/**
 * The rename table (`arMappingList`) and what `create` does with it: for
 * each entry, in table order, copy the origin value under the source key
 * into a destination property.
 */
module Mapping {
  import opened PhpArray

  /**
   * One entry of the rename table, `$name => $key`. An int `name` is the
   * position PHP gives an entry written without a key (`['id', 'name']`).
   */
  datatype MapEntry = MapEntry(name: Key, source: string)

  type MappingList = seq<MapEntry>

  /** The property an entry writes: the source key itself for an int key, the entry's key otherwise. */
  function Destination(e: MapEntry): string
  {
    if e.name.IntKey? then e.source else e.name.s
  }

  /**
   * `$this->arOriginData[$key]` never misses: the source key of every entry,
   * cast the way PHP casts an array index, is a key of the origin data.
   */
  predicate SourcesPresent(table: MappingList, origin: PArray)
  {
    forall i :: 0 <= i < |table| ==> ArrayKey(table[i].source) in Keys(origin)
  }

  /** The origin value an entry copies. */
  function SourceValue(e: MapEntry, origin: PArray): Value
    requires ArrayKey(e.source) in Keys(origin)
  {
    Get(origin, ArrayKey(e.source)).value
  }

  /**
   * The properties after the mapping loop has run over `table`, starting
   * from the properties `props`; one assignment per entry, in table order.
   */
  function ApplyMapping(table: MappingList, origin: PArray, props: map<string, Value>): map<string, Value>
    requires SourcesPresent(table, origin)
    decreases |table|
  {
    if table == [] then props
    else
      var last := table[|table| - 1];
      ApplyMapping(table[..|table| - 1], origin, props)[Destination(last) := SourceValue(last, origin)]
  }

  /** The destinations the table writes. */
  function Destinations(table: MappingList): set<string>
  {
    set e | e in table :: Destination(e)
  }

  /** Mapping adds exactly the table's destinations to the properties and removes none. */
  lemma {:induction false} MappingKeys(table: MappingList, origin: PArray, props: map<string, Value>)
    requires SourcesPresent(table, origin)
    ensures ApplyMapping(table, origin, props).Keys == props.Keys + Destinations(table)
    decreases |table|
  {
    if table != [] {
      var init := table[..|table| - 1];
      MappingKeys(init, origin, props);
      assert table == init + [table[|table| - 1]];
      assert Destinations(table) == Destinations(init) + {Destination(table[|table| - 1])};
    }
  }

  /**
   * Entries are applied in table order, so a destination ends up holding the
   * value copied by the LAST entry that writes it.
   */
  lemma {:induction false} MappingLastWriterWins(table: MappingList, origin: PArray, props: map<string, Value>, j: nat)
    requires SourcesPresent(table, origin)
    requires j < |table|
    requires forall k :: j < k < |table| ==> Destination(table[k]) != Destination(table[j])
    ensures Destination(table[j]) in ApplyMapping(table, origin, props)
    ensures ApplyMapping(table, origin, props)[Destination(table[j])] == SourceValue(table[j], origin)
    decreases |table|
  {
    if j < |table| - 1 {
      var init := table[..|table| - 1];
      assert init[j] == table[j];
      MappingLastWriterWins(init, origin, props, j);
    }
  }

  /** A property that no entry names keeps whatever it held, or stays absent. */
  lemma {:induction false} MappingLeavesOthers(table: MappingList, origin: PArray, props: map<string, Value>, p: string)
    requires SourcesPresent(table, origin)
    requires forall k :: 0 <= k < |table| ==> Destination(table[k]) != p
    ensures p in ApplyMapping(table, origin, props) <==> p in props
    ensures p in props ==> ApplyMapping(table, origin, props)[p] == props[p]
    decreases |table|
  {
    if table != [] {
      MappingLeavesOthers(table[..|table| - 1], origin, props, p);
    }
  }
}
