/**
 * The adapter instance: the state `AdapterTrait` keeps on the object that
 * uses it, and the trait's operations on that state.
 *
 * The private bookkeeping properties `arOriginData`, `arCustomData` and the
 * dynamic `arMappingList` are `Option` fields, `None` once `unset`; the
 * public and dynamic properties the adapter produces are `fields`; the
 * dynamic `arCollection` is `collection`.
 */
module TraitAdapter {
  import opened Wrappers
  import opened PhpArray
  import opened Mapping
  import opened Hooks
  import opened Studly

  /** The key `createCollection` gives each item's position under. */
  const ItemIndexKey: string := "item-index"

  /** What `foreach` sees of `arMappingList`: nothing when it was never set. */
  function MappingOf(table: Option<MappingList>): MappingList
  {
    table.GetOr([])
  }

  /**
   * The properties a successful `create(data)` leaves, before the purge:
   * the mapping loop first, then the hooks of the declared public properties.
   */
  function CreatedFields(kind: AdapterType, table: MappingList, data: PArray, custom: PArray,
                         props: map<string, Value>): map<string, Value>
    requires SourcesPresent(table, data)
  {
    RunHooks(kind.methods, kind.publicProperties, data, custom, ApplyMapping(table, data, props))
  }

  /** `array_merge(['item-index' => $i], $custom)`: the custom data item `i` receives. */
  function ChildCustom(i: nat, custom: PArray): PArray
  {
    ArrayMerge([(StrKey(ItemIndexKey), Int(i))], custom)
  }

  /**
   * Item `i` sees its own position under "item-index" unless the caller's
   * custom data already has that key, in which case the caller's value wins;
   * every other string key reads as in the caller's custom data.
   */
  lemma ChildCustomContents(i: nat, custom: PArray, s: string)
    requires Wf(custom)
    ensures Wf(ChildCustom(i, custom))
    ensures s == ItemIndexKey && StrKey(s) !in Keys(custom) ==> Get(ChildCustom(i, custom), StrKey(s)) == Some(Int(i))
    ensures s != ItemIndexKey || StrKey(s) in Keys(custom) ==> Get(ChildCustom(i, custom), StrKey(s)) == Get(custom, StrKey(s))
  {
    ArrayMergeStringKey([(StrKey(ItemIndexKey), Int(i))], custom, s);
    ArrayMergeRenumbers([(StrKey(ItemIndexKey), Int(i))], custom);
  }

  /** The name of the dynamic public property `mapping` stores the table in. */
  const MappingListName: string := "arMappingList"

  /** The rename table as the PHP array it was passed as: entry key to source key. */
  function TableArray(table: MappingList): (r: PArray)
    ensures |r| == |table|
    ensures forall i :: 0 <= i < |table| ==> r[i] == (table[i].name, Str(table[i].source))
  {
    if table == [] then [] else [(table[0].name, Str(table[0].source))] + TableArray(table[1..])
  }

  /**
   * The public properties `json_encode` sees on an instance that is not a
   * collection wrapper: its own properties, plus `arMappingList` while the
   * table is still set. The private origin and custom data are never seen.
   */
  function PublicProps(fields: map<string, Value>, table: Option<MappingList>): (r: map<string, Value>)
    ensures table.None? ==> r == fields
    ensures table.Some? ==> r.Keys == fields.Keys + {MappingListName} && r[MappingListName] == Arr(TableArray(table.value))
    ensures forall p :: p in fields && p != MappingListName ==> p in r && r[p] == fields[p]
    ensures r == map[] <==> fields == map[] && table.None?
  {
    match table
    case None => fields
    case Some(t) => fields[MappingListName := Arr(TableArray(t))]
  }

  /** `getOrDefault($data, $key, null)` behind `getOrigin` and `getCustom`. */
  function Fetch(data: PArray, key: Option<string>): Value
  {
    if IsEmptyKey(key) then Arr(data) else Get(data, StrKey(key.value)).GetOr(Null)
  }

  /** What `toArray` returns: a list of items, or the object's own properties. */
  datatype Exported =
    | Rows(rows: seq<Option<map<string, Value>>>)
    | Props(props: map<string, Value>)

  /** Whether an export is PHP's empty array `[]`. */
  predicate IsEmptyArray(e: Exported)
  {
    e == Rows([]) || e == Props(map[])
  }

  /** The objects a sequence of collection slots refers to. */
  function Objects(items: seq<Adapter?>): set<Adapter>
  {
    set o: Adapter | o in items
  }

  /**
   * Each slot serialised as its object's public properties, `null` as None:
   * an item still holding a table exports it as `arMappingList`, as its own
   * `toArray` would.
   */
  function ExportRows(items: seq<Adapter?>): (rows: seq<Option<map<string, Value>>>)
    reads Objects(items)
    ensures |rows| == |items|
    ensures forall i :: 0 <= i < |items| ==> (rows[i].None? <==> items[i] == null)
    ensures forall i :: 0 <= i < |items| && items[i] != null ==>
              rows[i] == Some(PublicProps(items[i].fields, items[i].mappingList))
  {
    if items == [] then []
    else
      var last := items[|items| - 1];
      assert Objects(items[..|items| - 1]) <= Objects(items);
      ExportRows(items[..|items| - 1]) + [if last == null then None else Some(PublicProps(last.fields, last.mappingList))]
  }

  /**
   * The slots `createCollection(records)` builds: one per record, in order;
   * a null slot for an empty record, otherwise a finalised item of the same
   * type whose properties are those `create` gives it with the custom data
   * of item `i`.
   */
  ghost predicate ItemsMatch(items: seq<Adapter?>, records: seq<PArray>, kind: AdapterType,
                             table: MappingList, custom: PArray)
    reads Objects(items)
  {
    && |items| == |records|
    && forall i :: 0 <= i < |items| ==>
         && (items[i] == null <==> records[i] == [])
         && (items[i] != null ==>
               && items[i].kind == kind
               && items[i].Finalized()
               && items[i].collection == None
               && SourcesPresent(table, records[i])
               && items[i].fields == CreatedFields(kind, table, records[i], ChildCustom(i, custom), kind.defaults))
  }

  class Adapter {
    const kind: AdapterType
    var originData: Option<PArray>
    var customData: Option<PArray>
    var mappingList: Option<MappingList>
    var fields: map<string, Value>
    var collection: Option<seq<Adapter?>>

    /** The bookkeeping properties have been unset. */
    predicate Finalized()
      reads this
    {
      originData.None? && customData.None? && mappingList.None?
    }

    /** `make()`: a new instance of the concrete type, properties at their defaults. */
    constructor Make(kind: AdapterType)
      ensures this.kind == kind && fields == kind.defaults
      ensures originData == Some([]) && customData == Some([])
      ensures mappingList == None && collection == None
    {
      this.kind := kind;
      fields := kind.defaults;
      originData := Some([]);
      customData := Some([]);
      mappingList := None;
      collection := None;
    }

    /** `mapping($table)`: store the rename table; return the same instance. */
    method Mapping(table: MappingList) returns (self: Adapter)
      modifies this
      ensures self == this && mappingList == Some(table)
      ensures originData == old(originData) && customData == old(customData)
      ensures fields == old(fields) && collection == old(collection)
    {
      mappingList := Some(table);
      self := this;
    }

    /** `setCustom($custom)`: store the custom data; return the same instance. */
    method SetCustom(custom: PArray) returns (self: Adapter)
      modifies this
      ensures self == this && customData == Some(custom)
      ensures originData == old(originData) && mappingList == old(mappingList)
      ensures fields == old(fields) && collection == old(collection)
    {
      customData := Some(custom);
      self := this;
    }

    /**
     * `unsetAdapterProperty`: drop the three bookkeeping properties; on a
     * collection wrapper also drop every other property but `arCollection`.
     */
    method UnsetAdapterProperty()
      modifies this
      ensures Finalized() && collection == old(collection)
      ensures fields == if collection.Some? then map[] else old(fields)
    {
      mappingList := None;
      originData := None;
      customData := None;
      if collection.Some? {
        var keys := fields.Keys;
        while keys != {}
          invariant keys == fields.Keys
          invariant Finalized() && collection == old(collection)
          decreases keys
        {
          var k :| k in keys;
          fields := fields - {k};
          keys := keys - {k};
        }
      }
    }

    /**
     * `create($data)`: null for empty data, with nothing changed. Otherwise
     * store the data as origin, run the mapping loop, then the hook loop,
     * then purge the bookkeeping, and return the same instance.
     */
    method Create(data: PArray) returns (r: Adapter?)
      requires data != [] ==> customData.Some?
      requires data != [] ==> SourcesPresent(MappingOf(mappingList), data)
      modifies this
      ensures data == [] ==> r == null && unchanged(this)
      ensures data != [] ==> r == this && Finalized() && collection == old(collection)
      ensures data != [] ==> fields == if collection.Some? then map[]
                                      else CreatedFields(kind, MappingOf(old(mappingList)), data, old(customData).value, old(fields))
    {
      if data == [] {
        return null;
      }
      originData := Some(data);
      var table := MappingOf(mappingList);
      var custom := customData.value;
      ghost var start := fields;

      for i := 0 to |table|
        invariant originData == Some(data) && mappingList == old(mappingList)
        invariant customData == old(customData) && collection == old(collection)
        invariant fields == ApplyMapping(table[..i], data, start)
      {
        assert table[..i + 1][..i] == table[..i];
        var e := table[i];
        fields := fields[Destination(e) := Get(data, ArrayKey(e.source)).value];
      }
      assert table[..|table|] == table;

      ghost var mapped := fields;
      var names := kind.publicProperties;
      for i := 0 to |names|
        invariant originData == Some(data) && collection == old(collection)
        invariant fields == RunHooks(kind.methods, names[..i], data, custom, mapped)
      {
        assert names[..i + 1][..i] == names[..i];
        var m := FindMethod(kind.methods, HookName(names[i]));
        if m.Some? {
          fields := kind.methods[m.value].1(data, custom, fields);
        }
      }
      assert names[..|names|] == names;

      UnsetAdapterProperty();
      r := this;
    }

    /**
     * The closure `createCollection` maps over the records: item `i` is a
     * fresh instance of the same type, given the custom data of position `i`
     * and the wrapper's table, then `create`d from its record.
     */
    method MakeItem(i: nat, custom: PArray, table: MappingList, record: PArray) returns (item: Adapter?)
      requires record != [] ==> SourcesPresent(table, record)
      ensures item == null <==> record == []
      ensures item != null ==> fresh(item) && item.kind == kind && item.Finalized() && item.collection == None
      ensures item != null ==> item.fields == CreatedFields(kind, table, record, ChildCustom(i, custom), kind.defaults)
    {
      var instance := new Adapter.Make(kind);
      var withCustom := instance.SetCustom(ChildCustom(i, custom));
      var withMapping := withCustom.Mapping(table);
      item := withMapping.Create(record);
    }

    /**
     * `createCollection($records)`: null for an empty list, with nothing
     * changed. Otherwise map every record, in order, to an item; keep the
     * items as `arCollection`, which is then all the wrapper holds.
     */
    method CreateCollection(records: seq<PArray>) returns (r: Adapter?)
      requires records != [] ==> customData.Some?
      requires records != [] ==> mappingList.Some?
      requires records != [] ==> forall i :: 0 <= i < |records| && records[i] != [] ==>
                                   SourcesPresent(mappingList.value, records[i])
      modifies this
      ensures records == [] ==> r == null && unchanged(this)
      ensures records != [] ==> r == this && Finalized() && fields == map[] && collection.Some?
      ensures records != [] ==> ItemsMatch(collection.value, records, kind, old(mappingList).value, old(customData).value)
      ensures records != [] ==> forall i :: 0 <= i < |collection.value| && collection.value[i] != null ==>
                                  fresh(collection.value[i])
      ensures records != [] ==> forall i, j :: 0 <= i < j < |collection.value| && collection.value[i] != null ==>
                                  collection.value[i] != collection.value[j]
    {
      if records == [] {
        return null;
      }
      var table := mappingList.value;
      var custom := customData.value;
      var items: seq<Adapter?> := [];

      for i := 0 to |records|
        invariant |items| == i
        invariant forall j :: 0 <= j < i && items[j] != null ==> fresh(items[j])
        invariant forall j, k :: 0 <= j < k < i && items[j] != null ==> items[j] != items[k]
        invariant ItemsMatch(items, records[..i], kind, table, custom)
      {
        var made := MakeItem(i, custom, table, records[i]);
        assert made != null ==> made !in Objects(items);
        items := items + [made];
        assert records[..i + 1] == records[..i] + [records[i]];
      }
      assert records[..|records|] == records;

      collection := Some(items);
      UnsetAdapterProperty();
      r := this;
    }

    /** The objects `toArray` reads through `arCollection`. */
    function Children(): set<Adapter>
      reads this
    {
      if collection.Some? then Objects(collection.value) else {}
    }

    /**
     * `toArray`: a collection wrapper exports its items in order, a null
     * item as null; any other instance exports its own public properties,
     * which include the table while `mapping` has set it and the purge has
     * not yet removed it.
     */
    function ToArray(): (r: Exported)
      reads this, Children()
      ensures collection.Some? ==> r.Rows? && |r.rows| == |collection.value|
      ensures collection.Some? ==> forall i :: 0 <= i < |collection.value| ==>
                (r.rows[i].None? <==> collection.value[i] == null)
      ensures collection.Some? ==> forall i :: 0 <= i < |collection.value| && collection.value[i] != null ==>
                r.rows[i] == Some(PublicProps(collection.value[i].fields, collection.value[i].mappingList))
      ensures collection.Some? ==> forall i ::
                0 <= i < |collection.value| && collection.value[i] != null && collection.value[i].collection.None? ==>
                  r.rows[i] == Some(collection.value[i].ToArray().props)
      ensures collection.None? && mappingList.None? ==> r == Props(fields)
      ensures collection.None? && mappingList.Some? ==>
                && r.Props? && r.props.Keys == fields.Keys + {MappingListName}
                && r.props[MappingListName] == Arr(TableArray(mappingList.value))
                && forall p :: p in fields && p != MappingListName ==> r.props[p] == fields[p]
      ensures IsEmptyArray(r) <==> (if collection.Some? then collection.value == []
                                    else fields == map[] && mappingList.None?)
    {
      match collection
      case Some(items) => Rows(ExportRows(items))
      case None => Props(PublicProps(fields, mappingList))
    }

    /** `getOrigin($key)`: the whole origin for an empty key, else its value or null. */
    function GetOrigin(key: Option<string>): (r: Value)
      reads this
      requires originData.Some?
      ensures IsEmptyKey(key) ==> r == Arr(originData.value)
      ensures !IsEmptyKey(key) && StrKey(key.value) in Keys(originData.value) ==>
                Some(r) == Get(originData.value, StrKey(key.value))
      ensures !IsEmptyKey(key) && StrKey(key.value) !in Keys(originData.value) ==> r == Null
    {
      Fetch(originData.value, key)
    }

    /** `getCustom($key)`: the whole custom data for an empty key, else its value or null. */
    function GetCustom(key: Option<string>): (r: Value)
      reads this
      requires customData.Some?
      ensures IsEmptyKey(key) ==> r == Arr(customData.value)
      ensures !IsEmptyKey(key) && StrKey(key.value) in Keys(customData.value) ==>
                Some(r) == Get(customData.value, StrKey(key.value))
      ensures !IsEmptyKey(key) && StrKey(key.value) !in Keys(customData.value) ==> r == Null
    {
      Fetch(customData.value, key)
    }

    /**
     * `getCustomByItemIndex($key)`: the entry at this item's "item-index" in
     * the list stored under `key` in the custom data. Null for an empty key,
     * a missing or empty list, an index that is not an int (0 is an int), or
     * an index the list lacks.
     */
    function GetCustomByItemIndex(key: Option<string>): (r: Value)
      reads this
      requires customData.Some?
      ensures IsEmptyKey(key) ==> r == Null
      ensures !GetCustom(Some(ItemIndexKey)).Int? ==> r == Null
      ensures r != Null ==> !IsEmptyKey(key) && GetCustom(key).Arr? && GetCustom(Some(ItemIndexKey)).Int?
                            && Get(GetCustom(key).entries, IntKey(GetCustom(Some(ItemIndexKey)).i)) == Some(r)
      ensures !IsEmptyKey(key) && GetCustom(key).Arr? && GetCustom(Some(ItemIndexKey)).Int?
              && IntKey(GetCustom(Some(ItemIndexKey)).i) in Keys(GetCustom(key).entries) ==>
                Some(r) == Get(GetCustom(key).entries, IntKey(GetCustom(Some(ItemIndexKey)).i))
    {
      if IsEmptyKey(key) then Null
      else
        var list := Get(customData.value, StrKey(key.value)).GetOr(Null);
        var index := GetCustom(Some(ItemIndexKey));
        if IsEmpty(list) || (index == Null && IsEmpty(index)) || !index.Int? then Null
        else if list.Arr? then Get(list.entries, IntKey(index.i)).GetOr(Null)
        else Null
    }
  }

  /**
   * Inside the hooks of collection item `i`, `getCustomByItemIndex($key)`
   * reads entry `i` of the list the caller passed under `$key`, provided the
   * caller's custom data does not set "item-index" itself.
   */
  lemma ItemReadsItsOwnEntry(item: Adapter, i: nat, custom: PArray, key: string, list: PArray)
    requires Wf(custom) && StrKey(ItemIndexKey) !in Keys(custom)
    requires item.customData == Some(ChildCustom(i, custom))
    requires key != "" && key != "0" && key != ItemIndexKey
    requires Get(custom, StrKey(key)) == Some(Arr(list))
    requires IntKey(i) in Keys(list)
    ensures Some(item.GetCustomByItemIndex(Some(key))) == Get(list, IntKey(i))
  {
    ChildCustomContents(i, custom, ItemIndexKey);
    ChildCustomContents(i, custom, key);
  }

  /**
   * What `toArray` gives on a wrapper built by `createCollection`: row `i`
   * is null for an empty record and otherwise the properties `create` gave
   * item `i`.
   */
  lemma CollectionExportsEachRecord(w: Adapter, records: seq<PArray>, table: MappingList, custom: PArray, i: nat)
    requires w.collection.Some?
    requires ItemsMatch(w.collection.value, records, w.kind, table, custom)
    requires i < |records|
    ensures w.ToArray().Rows? && |w.ToArray().rows| == |records|
    ensures records[i] == [] ==> w.ToArray().rows[i] == None
    ensures records[i] != [] ==>
              && SourcesPresent(table, records[i])
              && w.ToArray().rows[i] == Some(CreatedFields(w.kind, table, records[i], ChildCustom(i, custom), w.kind.defaults))
  {
  }

  /** A type with no public properties and no methods: no hook ever runs. */
  const PlainType: AdapterType := AdapterType([], map[], [])

  /**
   * A table written without keys, `['id', 'name']`, copies each listed origin
   * key into the property of the same name.
   */
  lemma PositionalMappingExample()
    ensures var table := [MapEntry(IntKey(0), "id"), MapEntry(IntKey(1), "name")];
            var data := [(StrKey("id"), Int(1)), (StrKey("name"), Str("a"))];
            SourcesPresent(table, data) &&
            CreatedFields(PlainType, table, data, [], map[]) == map["id" := Int(1), "name" := Str("a")]
  {
    var table := [MapEntry(IntKey(0), "id"), MapEntry(IntKey(1), "name")];
    var data := [(StrKey("id"), Int(1)), (StrKey("name"), Str("a"))];
    assert ArrayKey("id") == StrKey("id");
    assert ArrayKey("name") == StrKey("name");
    assert table[..1] == [table[0]] && table[..1][..0] == [];
    assert Get(data, StrKey("id")) == Some(Int(1));
    assert Get(data, StrKey("name")) == Some(Str("a"));
    assert ApplyMapping(table[..1], data, map[]) == map["id" := Int(1)];
    assert ApplyMapping(table, data, map[]) == map["id" := Int(1), "name" := Str("a")];
  }

  /** Item 1 of a collection, given the list [10, 20, 30] under "totals", reads 20. */
  lemma TotalsExample(item: Adapter)
    requires item.customData == Some([(StrKey("totals"), Arr([(IntKey(0), Int(10)), (IntKey(1), Int(20)), (IntKey(2), Int(30))])),
                                      (StrKey(ItemIndexKey), Int(1))])
    ensures item.GetCustomByItemIndex(Some("totals")) == Int(20)
  {
    var custom := item.customData.value;
    assert StrKey("totals") != StrKey(ItemIndexKey);
    assert Get(custom, StrKey(ItemIndexKey)) == Some(Int(1));
    assert item.GetCustom(Some(ItemIndexKey)) == Int(1);
    assert Get(custom, StrKey("totals")) == Some(custom[0].1);
  }
}
