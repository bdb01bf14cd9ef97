/**
 * The hook phase of `create`. PHP finds the declared public properties by
 * reflection and, for each, calls `set<Studly(name)>Attribute` when the class
 * has such a method. Here the concrete class is described by an
 * `AdapterType`: its public properties in declaration order, their default
 * values, and its methods, a hook being an update of the properties computed
 * from the origin and custom data.
 */
module Hooks {
  import opened Wrappers
  import opened PhpArray
  import opened Studly

  /** A hook body: reads origin and custom data, returns the new properties. */
  type Hook = (PArray, PArray, map<string, Value>) -> map<string, Value>

  datatype AdapterType = AdapterType(
    publicProperties: seq<string>,
    defaults: map<string, Value>,
    methods: seq<(string, Hook)>)

  /** PHP method names are compared without regard to ASCII case. */
  predicate SameMethodName(a: string, b: string)
  {
    LowerAscii(a) == LowerAscii(b)
  }

  /**
   * `method_exists` together with the method the dynamic call reaches: the
   * index of the first method whose name matches, or None.
   */
  function FindMethod(methods: seq<(string, Hook)>, name: string): (r: Option<nat>)
    ensures r.Some? ==> r.value < |methods| && SameMethodName(methods[r.value].0, name)
    ensures r.Some? ==> forall j :: 0 <= j < r.value ==> !SameMethodName(methods[j].0, name)
    ensures r.None? <==> forall j :: 0 <= j < |methods| ==> !SameMethodName(methods[j].0, name)
  {
    if methods == [] then None
    else if SameMethodName(methods[0].0, name) then Some(0)
    else
      match FindMethod(methods[1..], name)
      case None => None
      case Some(i) => Some(i + 1)
  }

  /** True when property `p` has a hook. */
  predicate HasHook(methods: seq<(string, Hook)>, p: string)
  {
    FindMethod(methods, HookName(p)).Some?
  }

  /**
   * The properties after the hook loop has run over `names`: for each name in
   * order, its hook (if any) is applied once to the properties so far.
   */
  function RunHooks(methods: seq<(string, Hook)>, names: seq<string>, origin: PArray, custom: PArray,
                    props: map<string, Value>): map<string, Value>
    decreases |names|
  {
    if names == [] then props
    else
      var before := RunHooks(methods, names[..|names| - 1], origin, custom, props);
      match FindMethod(methods, HookName(names[|names| - 1]))
      case None => before
      case Some(m) => methods[m].1(origin, custom, before)
  }

  /** The hooks of earlier declared properties run before those of later ones. */
  lemma {:induction false} RunHooksInOrder(methods: seq<(string, Hook)>, first: seq<string>, second: seq<string>,
                                          origin: PArray, custom: PArray, props: map<string, Value>)
    ensures RunHooks(methods, first + second, origin, custom, props)
         == RunHooks(methods, second, origin, custom, RunHooks(methods, first, origin, custom, props))
    decreases |second|
  {
    if second == [] {
      assert first + second == first;
    } else {
      var init := second[..|second| - 1];
      assert (first + second)[..|first + second| - 1] == first + init;
      assert (first + second)[|first + second| - 1] == second[|second| - 1];
      RunHooksInOrder(methods, first, init, origin, custom, props);
    }
  }

  /** A property without a hook is skipped, with no error and no change. */
  lemma {:induction false} RunHooksSkipsMissing(methods: seq<(string, Hook)>, names: seq<string>,
                                               origin: PArray, custom: PArray, props: map<string, Value>)
    requires forall i :: 0 <= i < |names| ==> !HasHook(methods, names[i])
    ensures RunHooks(methods, names, origin, custom, props) == props
    decreases |names|
  {
    if names != [] {
      RunHooksSkipsMissing(methods, names[..|names| - 1], origin, custom, props);
    }
  }

  /**
   * A property with a hook, wherever it stands in the declared list, has
   * exactly that hook applied, once, to the properties left by the hooks
   * before it; the hooks after it then continue from its result.
   */
  lemma {:induction false} RunHooksOne(methods: seq<(string, Hook)>, first: seq<string>, p: string, second: seq<string>,
                                       origin: PArray, custom: PArray, props: map<string, Value>)
    requires HasHook(methods, p)
    ensures RunHooks(methods, first + [p] + second, origin, custom, props)
         == RunHooks(methods, second, origin, custom,
              methods[FindMethod(methods, HookName(p)).value].1(origin, custom, RunHooks(methods, first, origin, custom, props)))
  {
    RunHooksInOrder(methods, first + [p], second, origin, custom, props);
    assert (first + [p])[..|first + [p]| - 1] == first;
  }

  /**
   * When `p` is the only declared property with a hook, the hook loop's
   * result is that one hook applied to the properties it started from.
   */
  lemma {:induction false} RunHooksOnlyOne(methods: seq<(string, Hook)>, first: seq<string>, p: string, second: seq<string>,
                                           origin: PArray, custom: PArray, props: map<string, Value>)
    requires HasHook(methods, p)
    requires forall i :: 0 <= i < |first| ==> !HasHook(methods, first[i])
    requires forall i :: 0 <= i < |second| ==> !HasHook(methods, second[i])
    ensures RunHooks(methods, first + [p] + second, origin, custom, props)
         == methods[FindMethod(methods, HookName(p)).value].1(origin, custom, props)
  {
    RunHooksOne(methods, first, p, second, origin, custom, props);
    RunHooksSkipsMissing(methods, first, origin, custom, props);
    var after := methods[FindMethod(methods, HookName(p)).value].1(origin, custom, props);
    RunHooksSkipsMissing(methods, second, origin, custom, after);
  }
}
