/**
 * `studly`: the string transform that turns a property name into the middle
 * of its hook name, `first_name` -> `FirstName` -> `setFirstNameAttribute`.
 *
 * It is modelled as the three stages the PHP code chains: `str_replace` of
 * '-' and '_' by ' ', `ucwords`, and `str_replace` of ' ' by nothing. The
 * lemma `StudlyMeaning` then states the result without the stages.
 */
module Studly {

  /** What `ucwords` treats as the end of a word by default: " \t\r\n\f\v". */
  const WordDelimiters: set<char> := {' ', '\t', '\r', '\n', '\U{000C}', '\U{000B}'}

  /** The characters that never survive into a studly name. */
  const Separators: set<char> := {'-', '_', ' '}

  /** After these an input character starts a word. */
  const WordBreaks: set<char> := WordDelimiters + Separators

  /** ASCII upper-casing, as `ucwords` applies it. */
  function ToUpper(c: char): char
  {
    if 'a' <= c <= 'z' then (c as int - 32) as char else c
  }

  /** ASCII lower-casing, as PHP applies it to compare method names. */
  function ToLower(c: char): char
  {
    if 'A' <= c <= 'Z' then (c as int + 32) as char else c
  }

  function LowerAscii(s: string): (r: string)
    ensures |r| == |s|
  {
    if s == [] then [] else [ToLower(s[0])] + LowerAscii(s[1..])
  }

  /** `str_replace(['-', '_'], ' ', $s)`. */
  function DashesToSpaces(s: string): (r: string)
    ensures |r| == |s|
  {
    if s == [] then [] else [if s[0] in {'-', '_'} then ' ' else s[0]] + DashesToSpaces(s[1..])
  }

  /**
   * `ucwords($s)` continued from a position where `atStart` says whether the
   * previous character ended a word (true at the start of the string).
   */
  function UcWordsFrom(s: string, atStart: bool): (r: string)
    ensures |r| == |s|
  {
    if s == [] then []
    else [if atStart then ToUpper(s[0]) else s[0]] + UcWordsFrom(s[1..], s[0] in WordDelimiters)
  }

  /** `ucwords($s)`: upper-case the first character and each one after a delimiter. */
  function UcWords(s: string): (r: string)
    ensures |r| == |s|
  {
    UcWordsFrom(s, true)
  }

  /** `str_replace(' ', '', $s)`. */
  function StripSpaces(s: string): (r: string)
    ensures ' ' !in r
    ensures |r| <= |s|
  {
    if s == [] then [] else (if s[0] == ' ' then [] else [s[0]]) + StripSpaces(s[1..])
  }

  /**
   * The trait's `studly`. No '-', '_' or ' ' is left in the result, and it is
   * never longer than the input.
   */
  function Studly(s: string): (r: string)
    ensures forall i :: 0 <= i < |r| ==> r[i] !in Separators
    ensures |r| <= |s|
  {
    var r := StripSpaces(UcWords(DashesToSpaces(s)));
    NoDashesSurvive(s, true);
    r
  }

  /** The name of the hook method looked up for a property. */
  function HookName(property: string): (r: string)
    ensures |r| == |Studly(property)| + 12
    ensures r[..3] == "set" && r[|r| - 9..] == "Attribute"
    ensures r[3..|r| - 9] == Studly(property)
  {
    "set" + Studly(property) + "Attribute"
  }

  /**
   * The reference reading of `studly`: every input character, upper-cased
   * when it is the first one or follows a word break, and then the
   * separators dropped.
   */
  function CapitalizeWords(s: string, atStart: bool): (r: string)
    ensures |r| == |s|
  {
    seq(|s|, i requires 0 <= i < |s| =>
      if (i == 0 && atStart) || (i > 0 && s[i - 1] in WordBreaks) then ToUpper(s[i]) else s[i])
  }

  function DropSeparators(s: string): (r: string)
    ensures |r| <= |s|
  {
    if s == [] then [] else (if s[0] in Separators then [] else [s[0]]) + DropSeparators(s[1..])
  }

  lemma {:induction false} NoDashesSurvive(s: string, atStart: bool)
    ensures forall c :: c in StripSpaces(UcWordsFrom(DashesToSpaces(s), atStart)) ==> c !in Separators
  {
    if s != [] {
      NoDashesSurvive(s[1..], s[0] in WordBreaks);
      var d := DashesToSpaces(s);
      assert d[1..] == DashesToSpaces(s[1..]);
      assert UcWordsFrom(d, atStart)[1..] == UcWordsFrom(DashesToSpaces(s[1..]), d[0] in WordDelimiters);
    }
  }

  /** The three PHP stages compute exactly the reference reading, from any start state. */
  lemma {:induction false} StagesMatchReference(s: string, atStart: bool)
    ensures StripSpaces(UcWordsFrom(DashesToSpaces(s), atStart)) == DropSeparators(CapitalizeWords(s, atStart))
  {
    if s != [] {
      var d := DashesToSpaces(s);
      var c := CapitalizeWords(s, atStart);
      assert d[1..] == DashesToSpaces(s[1..]);
      assert (d[0] in WordDelimiters) == (s[0] in WordBreaks);
      assert UcWordsFrom(d, atStart)[1..] == UcWordsFrom(d[1..], d[0] in WordDelimiters);
      assert c[1..] == CapitalizeWords(s[1..], s[0] in WordBreaks);
      StagesMatchReference(s[1..], s[0] in WordBreaks);
    }
  }

  /**
   * `studly` upper-cases the characters that start the string or follow a
   * '-', '_' or whitespace, keeps every other character in order, and drops
   * the separators.
   */
  lemma StudlyMeaning(s: string)
    ensures Studly(s) == DropSeparators(CapitalizeWords(s, true))
  {
    StagesMatchReference(s, true);
  }
}
