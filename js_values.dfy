/** The JavaScript values a screen's form and the API's records hold, and the
    coercions the screens rely on: `Number(v)` inside `*` and `+`, loose
    equality `!=` between a record id and a stored string, and a property read
    that may find nothing. Numbers are exact reals here, and NaN is `None`. */
module JsValues {
  import opened Wrappers
  import opened Decimal

  datatype Value = Undefined | Str(s: string) | Num(r: real)

  /** `obj[key]` read from a plain object: undefined when the key is absent. */
  function Prop(m: map<string, Value>, key: string): (v: Value)
    ensures key !in m ==> v == Undefined
    ensures key in m ==> v == m[key]
  {
    if key in m then m[key] else Undefined
  }

  /** `Number(v)`: "" is 0, decimal text is its value, undefined and any other
      text are NaN (None). */
  function ToNumber(v: Value): Option<real> {
    match v
    case Undefined => None
    case Num(r) => Some(r)
    case Str(s) => if s == "" then Some(0.0) else ParseDecimal(s)
  }

  /** `a + b` on numbers: NaN when either side is NaN. */
  function Plus(a: Option<real>, b: Option<real>): (r: Option<real>)
    ensures r.Some? <==> a.Some? && b.Some?
    ensures r.Some? ==> r.value == a.value + b.value
  {
    if a.Some? && b.Some? then Some(a.value + b.value) else None
  }

  /** `a * b` on numbers: NaN when either side is NaN (even against 0). */
  function Times(a: Option<real>, b: Option<real>): (r: Option<real>)
    ensures r.Some? <==> a.Some? && b.Some?
    ensures r.Some? ==> r.value == a.value * b.value
  {
    if a.Some? && b.Some? then Some(a.value * b.value) else None
  }

  lemma PlusAssociative(a: Option<real>, b: Option<real>, c: Option<real>)
    ensures Plus(Plus(a, b), c) == Plus(a, Plus(b, c))
  {
  }

  lemma PlusCommutative(a: Option<real>, b: Option<real>)
    ensures Plus(a, b) == Plus(b, a)
  {
  }

  /** `v == stored` in JavaScript, where `stored` is what `localStorage.getItem`
      returns: a string, or null when nothing is stored. A number equals a
      string when the string reads as that number; undefined equals only null. */
  function LooseEqualsStored(v: Value, stored: Option<string>): bool {
    match stored
    case None => v == Undefined
    case Some(t) =>
      match v
      case Undefined => false
      case Str(s) => s == t
      case Num(r) => ToNumber(Str(t)) == Some(r)
  }

  /** A truthy URL: neither null nor the empty string. */
  predicate TruthyText(t: Option<string>) {
    t.Some? && t.value != ""
  }
}

/** The string methods the screens call: `startsWith`, `includes`, `split`,
    `slice(0, n)` and `toUpperCase`. */
module JsStrings {

  predicate StartsWith(s: string, prefix: string) {
    prefix <= s
  }

  /** `s.includes(sub)`, by scanning from the front. */
  predicate Contains(s: string, sub: string)
    decreases |s|
  {
    sub <= s || (|s| > 0 && Contains(s[1..], sub))
  }

  ghost predicate OccursAt(s: string, sub: string, k: int) {
    0 <= k && k + |sub| <= |s| && s[k..k + |sub|] == sub
  }

  /** The scan finds `sub` exactly when it occurs at some offset of `s`. */
  lemma {:induction false} ContainsIffOccurs(s: string, sub: string)
    ensures Contains(s, sub) <==> exists k :: OccursAt(s, sub, k)
    decreases |s|
  {
    if sub <= s {
      assert OccursAt(s, sub, 0);
    } else if |s| == 0 {
      assert forall k :: !OccursAt(s, sub, k);
    } else {
      ContainsIffOccurs(s[1..], sub);
      forall k | 0 < k && OccursAt(s, sub, k)
        ensures OccursAt(s[1..], sub, k - 1)
      {
        assert s[1..][k - 1..k - 1 + |sub|] == s[k..k + |sub|];
      }
      if Contains(s[1..], sub) {
        var k :| OccursAt(s[1..], sub, k);
        assert s[k + 1..k + 1 + |sub|] == s[1..][k..k + |sub|];
        assert OccursAt(s, sub, k + 1);
      }
    }
  }

  /** An occurrence at offset k is found by the scan. */
  lemma {:induction false} OccurrenceContained(s: string, sub: string, k: nat)
    requires OccursAt(s, sub, k)
    ensures Contains(s, sub)
    decreases k
  {
    if k > 0 {
      assert s[1..][k - 1..k - 1 + |sub|] == s[k..k + |sub|];
      OccurrenceContained(s[1..], sub, k - 1);
    }
  }

  /** A text in which the first character of `sub` never appears does not contain `sub`. */
  lemma {:induction false} AbsentHeadNotContained(s: string, sub: string)
    requires |sub| > 0 && forall i :: 0 <= i < |s| ==> s[i] != sub[0]
    ensures !Contains(s, sub)
    decreases |s|
  {
    if |s| > 0 {
      assert forall i :: 0 <= i < |s[1..]| ==> s[1..][i] == s[i + 1];
      AbsentHeadNotContained(s[1..], sub);
      assert !(sub <= s) by {
        assert s[0] != sub[0];
      }
    }
  }

  /** `s.slice(0, n)`. */
  function Take(s: string, n: nat): (t: string)
    ensures |t| == if |s| < n then |s| else n
    ensures t <= s
  {
    if |s| < n then s else s[..n]
  }

  function UpperChar(c: char): char {
    if 'a' <= c <= 'z' then (c as int - 'a' as int + 'A' as int) as char else c
  }

  /** `s.toUpperCase()` on ASCII letters; every other character is kept. */
  function Upper(s: string): (u: string)
    ensures |u| == |s|
    ensures forall i :: 0 <= i < |s| ==> u[i] == UpperChar(s[i])
  {
    seq(|s|, i requires 0 <= i < |s| => UpperChar(s[i]))
  }

  /** The index of the first `sep` in s, or |s| when there is none. */
  function IndexOf(s: string, sep: char): (k: nat)
    ensures k <= |s|
    ensures forall j :: 0 <= j < k ==> s[j] != sep
    ensures k < |s| ==> s[k] == sep
  {
    if s == [] || s[0] == sep then 0 else 1 + IndexOf(s[1..], sep)
  }

  /** `s.split(sep)` for a one-character separator: the pieces between the
      separators, in order, with empty pieces kept. */
  function Split(s: string, sep: char): (parts: seq<string>)
    ensures |parts| >= 1
    decreases |s|
  {
    var k := IndexOf(s, sep);
    if k == |s| then [s] else [s[..k]] + Split(s[k + 1..], sep)
  }

  predicate Free(s: string, sep: char) {
    forall i :: 0 <= i < |s| ==> s[i] != sep
  }

  /** Splitting pieces joined by the separator gives the pieces back. */
  lemma SplitJoined(a: string, sep: char, rest: string)
    requires Free(a, sep)
    ensures Split(a + [sep] + rest, sep) == [a] + Split(rest, sep)
  {
    var s := a + [sep] + rest;
    assert s[|a|] == sep;
    assert forall j :: 0 <= j < |a| ==> s[j] == a[j];
    assert s[..|a|] == a;
    assert s[|a| + 1..] == rest;
  }

  lemma SplitFree(a: string, sep: char)
    requires Free(a, sep)
    ensures Split(a, sep) == [a]
  {
  }
}
