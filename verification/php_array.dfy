/**
 * PHP values and PHP arrays as the adapter sees them.
 *
 * A PHP array is an ordered dictionary whose keys are ints or strings. It is
 * modelled as an association list, `seq<(Key, Value)>`, so that the order in
 * which `foreach` visits the entries is kept; `Wf` says that no key occurs
 * twice, which every PHP array satisfies.
 */
module PhpArray {
  import opened Wrappers

  datatype Key = IntKey(i: int) | StrKey(s: string)

  datatype Value =
    | Null
    | Bool(b: bool)
    | Int(i: int)
    | Float(f: real)
    | Str(s: string)
    | Arr(entries: seq<(Key, Value)>)

  type PArray = seq<(Key, Value)>

  const PhpIntMin: int := -0x8000_0000_0000_0000
  const PhpIntMax: int := 0x7FFF_FFFF_FFFF_FFFF

  /** The keys of `a`. */
  function Keys(a: PArray): (ks: set<Key>)
    ensures forall i :: 0 <= i < |a| ==> a[i].0 in ks
  {
    if a == [] then {} else {a[0].0} + Keys(a[1..])
  }

  /** No key occurs twice. */
  predicate Wf(a: PArray)
  {
    a == [] || (a[0].0 !in Keys(a[1..]) && Wf(a[1..]))
  }

  /**
   * The value stored under `k` as Knapsack's `get`/`getOrDefault` finds it:
   * the first entry whose key is strictly (`===`) equal to `k`.
   */
  function Get(a: PArray, k: Key): (r: Option<Value>)
    ensures r.Some? <==> k in Keys(a)
  {
    if a == [] then None
    else if a[0].0 == k then Some(a[0].1)
    else Get(a[1..], k)
  }

  /** `Get` finds the first entry under the key, whatever follows it. */
  lemma {:induction false} GetFindsFirst(a: PArray, i: nat)
    requires i < |a|
    requires forall j :: 0 <= j < i ==> a[j].0 != a[i].0
    ensures Get(a, a[i].0) == Some(a[i].1)
  {
    if i > 0 {
      assert a[1..][i - 1] == a[i];
      GetFindsFirst(a[1..], i - 1);
    }
  }

  /** `$a[$k] = $v`: overwrite the entry with key `k` in place, or append one. */
  function Set(a: PArray, k: Key, v: Value): (r: PArray)
    ensures Keys(r) == Keys(a) + {k}
    ensures Get(r, k) == Some(v)
    ensures forall k' :: k' != k ==> Get(r, k') == Get(a, k')
    ensures Wf(a) ==> Wf(r)
    ensures k in Keys(a) ==> |r| == |a|
    ensures Wf(a) && k in Keys(a) ==> forall j :: 0 <= j < |a| ==> r[j] == (if a[j].0 == k then (k, v) else a[j])
    ensures k !in Keys(a) ==> r == a + [(k, v)]
  {
    if a == [] then [(k, v)]
    else if a[0].0 == k then [(k, v)] + a[1..]
    else
      assert ([a[0]] + Set(a[1..], k, v))[1..] == Set(a[1..], k, v);
      [a[0]] + Set(a[1..], k, v)
  }

  /** The number of int-keyed entries. */
  function CountIntKeys(a: PArray): (n: nat)
    ensures n <= |a|
  {
    if a == [] then 0 else (if a[0].0.IntKey? then 1 else 0) + CountIntKeys(a[1..])
  }

  /** The int keys of `a` are exactly 0, 1, ..., n - 1 for n int-keyed entries. */
  ghost predicate DenseIntKeys(a: PArray)
  {
    forall k :: IntKey(k) in Keys(a) <==> 0 <= k < CountIntKeys(a)
  }

  /**
   * One step of `array_merge`: fold the entries of `b` into `acc` left to
   * right. A string key overwrites in place (a later array wins); an int key
   * is renumbered to the next free index, which is the count of int keys
   * already present because every int key so far was renumbered from 0.
   */
  function MergeInto(acc: PArray, b: PArray): PArray
    decreases |b|
  {
    if b == [] then acc
    else
      var e := b[0];
      var next := if e.0.IntKey? then acc + [(IntKey(CountIntKeys(acc)), e.1)] else Set(acc, e.0, e.1);
      MergeInto(next, b[1..])
  }

  /** PHP's `array_merge($a, $b)`. */
  function ArrayMerge(a: PArray, b: PArray): PArray
  {
    MergeInto(MergeInto([], a), b)
  }

  lemma {:induction false} CountIntKeysAppend(a: PArray, e: (Key, Value))
    ensures CountIntKeys(a + [e]) == CountIntKeys(a) + (if e.0.IntKey? then 1 else 0)
  {
    if a != [] {
      assert (a + [e])[1..] == a[1..] + [e];
      CountIntKeysAppend(a[1..], e);
    }
  }

  lemma {:induction false} CountIntKeysSetString(a: PArray, s: string, v: Value)
    ensures CountIntKeys(Set(a, StrKey(s), v)) == CountIntKeys(a)
  {
    if a != [] && a[0].0 != StrKey(s) {
      assert Set(a, StrKey(s), v)[1..] == Set(a[1..], StrKey(s), v);
      CountIntKeysSetString(a[1..], s, v);
    }
  }

  lemma {:induction false} KeysAppend(a: PArray, e: (Key, Value))
    ensures Keys(a + [e]) == Keys(a) + {e.0}
  {
    if a != [] {
      assert (a + [e])[1..] == a[1..] + [e];
      KeysAppend(a[1..], e);
    }
  }

  lemma {:induction false} WfAppend(a: PArray, e: (Key, Value))
    requires Wf(a) && e.0 !in Keys(a)
    ensures Wf(a + [e])
  {
    if a != [] {
      assert (a + [e])[1..] == a[1..] + [e];
      KeysAppend(a[1..], e);
      WfAppend(a[1..], e);
    }
  }

  /** Folding entries into a valid, densely numbered array keeps it so. */
  lemma {:induction false} MergeIntoKeepsShape(acc: PArray, b: PArray)
    requires Wf(acc) && DenseIntKeys(acc)
    ensures Wf(MergeInto(acc, b)) && DenseIntKeys(MergeInto(acc, b))
    ensures CountIntKeys(MergeInto(acc, b)) == CountIntKeys(acc) + CountIntKeys(b)
    decreases |b|
  {
    if b != [] {
      var e := b[0];
      var n := CountIntKeys(acc);
      if e.0.IntKey? {
        var e' := (IntKey(n), e.1);
        KeysAppend(acc, e');
        WfAppend(acc, e');
        CountIntKeysAppend(acc, e');
        MergeIntoKeepsShape(acc + [e'], b[1..]);
      } else {
        CountIntKeysSetString(acc, e.0.s, e.1);
        MergeIntoKeepsShape(Set(acc, e.0, e.1), b[1..]);
      }
    }
  }

  /**
   * `array_merge` returns a valid array whose int keys are renumbered
   * 0, 1, ..., n - 1, one for each int-keyed entry of either argument.
   */
  lemma ArrayMergeRenumbers(a: PArray, b: PArray)
    ensures Wf(ArrayMerge(a, b))
    ensures forall k :: IntKey(k) in Keys(ArrayMerge(a, b)) <==> 0 <= k < CountIntKeys(a) + CountIntKeys(b)
  {
    MergeIntoKeepsShape([], a);
    MergeIntoKeepsShape(MergeInto([], a), b);
  }

  /** Appending an entry under another key does not change what `Get` finds. */
  lemma {:induction false} GetAppendOther(a: PArray, e: (Key, Value), k: Key)
    requires e.0 != k
    ensures Get(a + [e], k) == Get(a, k)
  {
    if a != [] {
      assert (a + [e])[1..] == a[1..] + [e];
      GetAppendOther(a[1..], e, k);
    }
  }

  /**
   * For a string key, `array_merge($a, $b)` holds $b's value when $b has the
   * key, and otherwise whatever the accumulated array held.
   */
  lemma {:induction false} MergeIntoStringKey(acc: PArray, b: PArray, s: string)
    requires Wf(b)
    ensures Get(MergeInto(acc, b), StrKey(s)) == (if StrKey(s) in Keys(b) then Get(b, StrKey(s)) else Get(acc, StrKey(s)))
    decreases |b|
  {
    var k := StrKey(s);
    if b != [] {
      var e := b[0];
      var next := if e.0.IntKey? then acc + [(IntKey(CountIntKeys(acc)), e.1)] else Set(acc, e.0, e.1);
      assert Wf(b[1..]);
      MergeIntoStringKey(next, b[1..], s);
      if e.0.IntKey? {
        GetAppendOther(acc, (IntKey(CountIntKeys(acc)), e.1), k);
      }
    }
  }

  /** The string-key half of `array_merge`: the second array wins on a shared key. */
  lemma ArrayMergeStringKey(a: PArray, b: PArray, s: string)
    requires Wf(a) && Wf(b)
    ensures Get(ArrayMerge(a, b), StrKey(s)) == (if StrKey(s) in Keys(b) then Get(b, StrKey(s)) else Get(a, StrKey(s)))
  {
    MergeIntoStringKey([], a, s);
    MergeIntoStringKey(MergeInto([], a), b, s);
  }

  /**
   * PHP's `empty()`: null, false, 0, 0.0, "", "0" and the empty array are
   * empty; every other value is not.
   */
  predicate IsEmpty(v: Value)
  {
    match v
    case Null => true
    case Bool(b) => !b
    case Int(i) => i == 0
    case Float(f) => f == 0.0
    case Str(s) => s == "" || s == "0"
    case Arr(e) => e == []
  }

  /** `empty($sKey)` for a `?string` parameter: null, "" and "0". */
  predicate IsEmptyKey(k: Option<string>)
  {
    k == None || k == Some("") || k == Some("0")
  }

  predicate IsDigit(c: char)
  {
    '0' <= c <= '9'
  }

  predicate AllDigits(s: string)
  {
    forall i :: 0 <= i < |s| ==> IsDigit(s[i])
  }

  /** The value of a string of decimal digits. */
  function DigitsValue(s: string): (n: nat)
    requires AllDigits(s)
  {
    if s == [] then 0 else 10 * DigitsValue(s[..|s| - 1]) + (s[|s| - 1] as int - '0' as int)
  }

  /**
   * A decimal integer written the way PHP prints one: "0", or an optional
   * minus sign followed by digits that do not start with 0 (so "-0", "05"
   * and "+5" do not qualify).
   */
  predicate IsCanonicalDecimal(s: string)
  {
    || s == "0"
    || (|s| >= 1 && '1' <= s[0] <= '9' && AllDigits(s[1..]))
    || (|s| >= 2 && s[0] == '-' && '1' <= s[1] <= '9' && AllDigits(s[2..]))
  }

  function DecimalValue(s: string): int
    requires IsCanonicalDecimal(s)
  {
    if s[0] == '-' then -(DigitsValue(s[1..]) as int) else DigitsValue(s)
  }

  /**
   * The key a string stands for when it indexes a PHP array: a canonical
   * decimal integer inside the platform's 64-bit int range is cast to an int
   * key; every other string stays a string key.
   */
  function ArrayKey(s: string): (k: Key)
    ensures k.StrKey? ==> k.s == s
    ensures k.IntKey? <==> IsCanonicalDecimal(s) && PhpIntMin <= DecimalValue(s) <= PhpIntMax
    ensures k.IntKey? ==> k.i == DecimalValue(s)
  {
    if IsCanonicalDecimal(s) && PhpIntMin <= DecimalValue(s) <= PhpIntMax then IntKey(DecimalValue(s)) else StrKey(s)
  }

  lemma {:induction false} LeadingDigitPositive(s: string)
    requires |s| >= 1 && '1' <= s[0] <= '9' && AllDigits(s)
    ensures DigitsValue(s) > 0
  {
    if |s| > 1 {
      LeadingDigitPositive(s[..|s| - 1]);
    }
  }

  /** Two digit strings without a leading zero have the same value only if they are equal. */
  lemma {:induction false} DigitsValueInjective(s: string, t: string)
    requires AllDigits(s) && AllDigits(t)
    requires s == [] || '1' <= s[0] <= '9'
    requires t == [] || '1' <= t[0] <= '9'
    requires DigitsValue(s) == DigitsValue(t)
    ensures s == t
    decreases |s|
  {
    if s != [] && t != [] {
      var s', t' := s[..|s| - 1], t[..|t| - 1];
      assert DigitsValue(s) % 10 == s[|s| - 1] as int - '0' as int;
      assert DigitsValue(t) % 10 == t[|t| - 1] as int - '0' as int;
      assert DigitsValue(s') == DigitsValue(t');
      DigitsValueInjective(s', t');
      assert s == s' + [s[|s| - 1]] && t == t' + [t[|t| - 1]];
    } else if s != [] {
      LeadingDigitPositive(s);
    } else if t != [] {
      LeadingDigitPositive(t);
    }
  }

  /** Distinct strings index distinct array slots: the numeric cast merges no two keys. */
  lemma ArrayKeyInjective(s: string, t: string)
    requires ArrayKey(s) == ArrayKey(t)
    ensures s == t
  {
    if ArrayKey(s).IntKey? {
      if s == "0" || t == "0" {
        assert DigitsValue("0") == 10 * DigitsValue("") + 0;
        if s != "0" {
          if s[0] == '-' { LeadingDigitPositive(s[1..]); } else { LeadingDigitPositive(s); }
        }
        if t != "0" {
          if t[0] == '-' { LeadingDigitPositive(t[1..]); } else { LeadingDigitPositive(t); }
        }
      } else if s[0] == '-' {
        LeadingDigitPositive(s[1..]);
        if t[0] == '-' {
          DigitsValueInjective(s[1..], t[1..]);
          assert s == [s[0]] + s[1..] && t == [t[0]] + t[1..];
        } else {
          LeadingDigitPositive(t);
        }
      } else {
        LeadingDigitPositive(s);
        if t[0] != '-' {
          DigitsValueInjective(s, t);
        }
      }
    }
  }
}
