/*
 * Python values as the messaging and telemetry code sees them: keyword
 * arguments handed to record constructors, JSON documents decoded from the
 * trace store, and the few dynamic operations the code applies to them
 * (`dict.get`, iteration, `+`, `str.startswith`, `in`, `str.lower`).
 */
module PyValues {

  datatype Option<+T> = None | Some(value: T) {
    predicate IsFailure() { None? }

    function PropagateFailure<U>(): Option<U>
      requires None?
    {
      None
    }

    function Extract(): T
      requires Some?
    {
      value
    }
  }

  /** A Python value. Floats are not part of the model. */
  datatype Value =
    | VNone
    | VBool(b: bool)
    | VInt(i: int)
    | VStr(s: string)
    | VList(items: seq<Value>)
    | VDict(entries: map<string, Value>)
    | VTime(instant: int)   // a `datetime`, as an opaque clock reading

  /** An `Optional[str]` as a value: None or the str. */
  function OptStrValue(o: Option<string>): Value
  {
    match o
    case None => VNone
    case Some(s) => VStr(s)
  }

  /** An `Optional[int]` as a value: None or the int. */
  function OptIntValue(o: Option<int>): Value
  {
    match o
    case None => VNone
    case Some(i) => VInt(i)
  }

  /** `d.get(key, default)` on a dict's entries. */
  function GetOr(entries: map<string, Value>, key: string, default: Value): Value
  {
    if key in entries then entries[key] else default
  }

  /** `d.get(key, default)`: None stands for the AttributeError raised when `d` is not a dict. */
  function Get(d: Value, key: string, default: Value): Option<Value>
  {
    if !d.VDict? then None else Some(GetOr(d.entries, key, default))
  }

  /**
   * The elements a `for` loop visits, None when iterating raises (None, int,
   * bool, datetime). A non-empty str or dict yields str items, and every loop
   * of the core then raises on the first of them (`.get` or `["key"]` on a
   * str), so the model raises for those directly; empty ones give no items.
   */
  function Iter(v: Value): Option<seq<Value>>
  {
    match v
    case VList(items) => Some(items)
    case VStr(s) => if s == "" then Some([]) else None
    case VDict(entries) => if entries == map[] then Some([]) else None
    case _ => None
  }

  /** `a + b` for the start time and duration of a span: int addition, anything else fails. */
  function Add(a: Value, b: Value): (r: Option<Value>)
    ensures r.Some? <==> a.VInt? && b.VInt?
    ensures r.Some? ==> r.value == VInt(a.i + b.i)
  {
    if a.VInt? && b.VInt? then Some(VInt(a.i + b.i)) else None
  }

  /** `s.startswith(prefix)` */
  predicate StartsWith(s: string, prefix: string)
  {
    |prefix| <= |s| && s[..|prefix|] == prefix
  }

  /** `sub in s` for strings */
  predicate Contains(s: string, sub: string)
    decreases |s|
  {
    StartsWith(s, sub) || (|s| > 0 && Contains(s[1..], sub))
  }

  /** `c.lower()` for ASCII letters; other characters are left as they are. */
  function LowerChar(c: char): char
  {
    if 'A' <= c <= 'Z' then (c as int + 32) as char else c
  }

  /** `s.lower()` */
  function Lower(s: string): (r: string)
    ensures |r| == |s|
    ensures forall i :: 0 <= i < |s| ==> r[i] == LowerChar(s[i])
  {
    seq(|s|, i requires 0 <= i < |s| => LowerChar(s[i]))
  }

  /** A string that contains `sub` is at least as long as `sub`. */
  lemma {:induction false} ContainsLength(s: string, sub: string)
    requires Contains(s, sub)
    ensures |sub| <= |s|
    decreases |s|
  {
    if !StartsWith(s, sub) {
      ContainsLength(s[1..], sub);
    }
  }

  /** `sub` occurs in `s` starting at position `k`. */
  predicate OccursAt(s: string, sub: string, k: int)
  {
    0 <= k <= |s| - |sub| && s[k..k + |sub|] == sub
  }

  /** `sub in s` holds exactly when `sub` occurs at some position of `s`. */
  lemma {:induction false} ContainsAt(s: string, sub: string)
    ensures Contains(s, sub) <==> exists k :: OccursAt(s, sub, k)
    decreases |s|
  {
    if StartsWith(s, sub) {
      assert OccursAt(s, sub, 0);
    } else if |s| > 0 {
      ContainsAt(s[1..], sub);
      if Contains(s[1..], sub) {
        var k :| OccursAt(s[1..], sub, k);
        assert s[k + 1..k + 1 + |sub|] == s[1..][k..k + |sub|];
        assert OccursAt(s, sub, k + 1);
      }
      if exists k :: OccursAt(s, sub, k) {
        var k :| OccursAt(s, sub, k);
        assert k != 0;
        assert s[1..][k - 1..k - 1 + |sub|] == s[k..k + |sub|];
        assert OccursAt(s[1..], sub, k - 1);
      }
    }
  }

  /** A string that lacks one of the characters of `sub` does not contain `sub`. */
  lemma {:induction false} MissingCharNotContained(s: string, sub: string, c: char)
    requires c in sub && c !in s
    ensures !Contains(s, sub)
    decreases |s|
  {
    if |s| > 0 {
      assert c !in s[1..];
      MissingCharNotContained(s[1..], sub, c);
    }
  }
}
