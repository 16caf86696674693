/** The pieces of JavaScript's runtime semantics the client's logic relies on:
    optional values (null/undefined), parsed JSON values, truthiness, the
    conversion of values to text, and the string and plain-object operations
    the pages use (`indexOf`, `startsWith`, `replace`, `join`, object spread). */
module Js {

  datatype Option<+T> = None | Some(value: T)

  /** A value as `JSON.parse` produces it. Numbers are JavaScript numbers,
      taken as reals. An object is given by its properties in order. */
  datatype Json =
    | JNull
    | JBool(b: bool)
    | JNum(n: real)
    | JStr(s: string)
    | JArr(items: seq<Json>)
    | JObj(fields: seq<(string, Json)>)

  /** The value of property `key` among `fields` (the first one, where a key repeats). */
  function FieldLookup(fields: seq<(string, Json)>, key: string): (r: Option<Json>)
    ensures r.Some? <==> exists i :: 0 <= i < |fields| && fields[i].0 == key
    ensures r.Some? ==> exists i :: 0 <= i < |fields| && fields[i] == (key, r.value)
  {
    if |fields| == 0 then None
    else if fields[0].0 == key then Some(fields[0].1)
    else
      var r := FieldLookup(fields[1..], key);
      assert forall i :: 1 <= i < |fields| ==> fields[i] == fields[1..][i - 1];
      r
  }

  /** `j.key` for a value that is not null; `None` stands for undefined.
      Only objects own the keys this client reads. */
  function Property(j: Json, key: string): (r: Option<Json>)
    ensures r.Some? ==> j.JObj?
  {
    if j.JObj? then FieldLookup(j.fields, key) else None
  }

  /** JavaScript truthiness of a possibly undefined value (NaN is not modelled). */
  predicate Truthy(v: Option<Json>)
  {
    match v
    case None => false
    case Some(JNull) => false
    case Some(JBool(b)) => b
    case Some(JNum(n)) => n != 0.0
    case Some(JStr(s)) => s != ""
    case Some(JArr(_)) => true
    case Some(JObj(_)) => true
  }

  // ---------------------------------------------------------------------------
  // Decimal text of numbers

  function Digit(d: nat): (c: char)
    requires d < 10
    ensures '0' <= c <= '9' && c as int - '0' as int == d
  {
    ['0', '1', '2', '3', '4', '5', '6', '7', '8', '9'][d]
  }

  predicate IsDigit(c: char) { '0' <= c <= '9' }

  /** The decimal text of `n`, without leading zeros. */
  function NatText(n: nat): (s: string)
    ensures |s| >= 1
    ensures forall i :: 0 <= i < |s| ==> IsDigit(s[i])
    ensures |s| > 1 ==> s[0] != '0'
    decreases n
  {
    if n < 10 then [Digit(n)] else NatText(n / 10) + [Digit(n % 10)]
  }

  /** The number a string of decimal digits denotes. */
  function DigitsValue(s: string): nat
    requires forall i :: 0 <= i < |s| ==> IsDigit(s[i])
  {
    if |s| == 0 then 0
    else
      assert IsDigit(s[|s| - 1]);
      DigitsValue(s[..|s| - 1]) * 10 + (s[|s| - 1] as int - '0' as int)
  }

  /** Reading back the text of `n` gives `n`: the text is a faithful rendering. */
  lemma {:induction false} NatTextRoundTrip(n: nat)
    ensures DigitsValue(NatText(n)) == n
  {
    if n >= 10 {
      var s := NatText(n);
      assert s[..|s| - 1] == NatText(n / 10);
      NatTextRoundTrip(n / 10);
    }
  }

  /** Two numbers have the same text only if they are equal. */
  lemma NatTextInjective(m: nat, n: nat)
    requires NatText(m) == NatText(n)
    ensures m == n
  {
    NatTextRoundTrip(m);
    NatTextRoundTrip(n);
  }

  function IntText(i: int): (s: string)
    ensures |s| >= 1
  {
    if i < 0 then "-" + NatText(-i) else NatText(i)
  }

  /** The integer part of `x`, rounded toward zero. */
  function Trunc(x: real): int
  {
    if x >= 0.0 then x.Floor else -((-x).Floor)
  }

  /** `String(x)` for a number: exact for whole numbers; of a fractional
      number only the integer part is rendered. */
  function NumberText(x: real): (s: string)
    ensures x == x.Floor as real ==> s == IntText(x.Floor)
  {
    IntText(Trunc(x))
  }

  // ---------------------------------------------------------------------------
  // Conversion of values to text, as `String(v)`, template literals,
  // `new Error(v)` and `Array.prototype.join` do it

  function ToText(j: Json): string
  {
    match j
    case JNull => "null"
    case JBool(b) => if b then "true" else "false"
    case JNum(n) => NumberText(n)
    case JStr(s) => s
    case JArr(items) =>
      Join(seq(|items|, i requires 0 <= i < |items| =>
        if items[i].JNull? then "" else ToText(items[i])), ",")
    case JObj(_) => "[object Object]"
  }

  /** How `join` writes one element: undefined and null become the empty string. */
  function ElementText(v: Option<Json>): (s: string)
    ensures v.None? || v == Some(JNull) ==> s == ""
    ensures v.Some? && v.value.JStr? ==> s == v.value.s
  {
    match v
    case None => ""
    case Some(JNull) => ""
    case Some(x) => ToText(x)
  }

  /** `xs.join(sep)`. */
  function Join(xs: seq<string>, sep: string): string
  {
    if |xs| == 0 then ""
    else if |xs| == 1 then xs[0]
    else xs[0] + sep + Join(xs[1..], sep)
  }

  /** Joining reads left to right: appending an element appends the separator
      and that element. */
  lemma {:induction false} JoinSnoc(xs: seq<string>, x: string, sep: string)
    requires |xs| >= 1
    ensures Join(xs + [x], sep) == Join(xs, sep) + sep + x
  {
    if |xs| == 1 {
      assert (xs + [x])[1..] == [x];
    } else {
      assert (xs + [x])[1..] == xs[1..] + [x];
      JoinSnoc(xs[1..], x, sep);
    }
  }

  /** The length of a join: every element, and one separator between neighbours. */
  lemma {:induction false} JoinLength(xs: seq<string>, sep: string)
    requires |xs| >= 1
    ensures |Join(xs, sep)| == TotalLength(xs) + (|xs| - 1) * |sep|
  {
    if |xs| > 1 {
      JoinLength(xs[1..], sep);
    }
  }

  function TotalLength(xs: seq<string>): nat
  {
    if |xs| == 0 then 0 else |xs[0]| + TotalLength(xs[1..])
  }

  // ---------------------------------------------------------------------------
  // Strings

  /** `s.startsWith(p)`. */
  predicate StartsWith(s: string, p: string)
  {
    |p| <= |s| && s[..|p|] == p
  }

  /** `sub` occurs in `s` starting at position `i`. */
  predicate OccursAt(s: string, sub: string, i: int)
  {
    0 <= i <= |s| - |sub| && s[i..i + |sub|] == sub
  }

  /** `s.indexOf(sub) !== -1`: `sub` occurs in `s` at some position. */
  ghost predicate Contains(s: string, sub: string)
  {
    exists i :: OccursAt(s, sub, i)
  }

  /** The search `indexOf` performs, one position after the other. */
  function ScanFor(s: string, sub: string): (found: bool)
    ensures found <==> Contains(s, sub)
    decreases |s|
  {
    if StartsWith(s, sub) then
      assert OccursAt(s, sub, 0);
      true
    else if |s| <= |sub| then
      assert !OccursAt(s, sub, 0);
      false
    else
      var found := ScanFor(s[1..], sub);
      assert found ==> Contains(s, sub) by {
        if found {
          var i :| OccursAt(s[1..], sub, i);
          assert s[i + 1..i + 1 + |sub|] == s[1..][i..i + |sub|];
          assert OccursAt(s, sub, i + 1);
        }
      }
      assert Contains(s, sub) ==> found by {
        if Contains(s, sub) {
          var i :| OccursAt(s, sub, i);
          assert i != 0;
          assert s[1..][i - 1..i - 1 + |sub|] == s[i..i + |sub|];
          assert OccursAt(s[1..], sub, i - 1);
        }
      }
      found
  }

  /** `s.replace(/c/g, d)` for one character: every `c` becomes `d`. */
  function ReplaceAll(s: string, c: char, d: char): (r: string)
    ensures |r| == |s|
    ensures forall i :: 0 <= i < |s| ==> r[i] == (if s[i] == c then d else s[i])
  {
    if |s| == 0 then [] else [if s[0] == c then d else s[0]] + ReplaceAll(s[1..], c, d)
  }

  /** `s.replace(c, d)` with a string pattern: only the first `c` becomes `d`. */
  function ReplaceFirst(s: string, c: char, d: char): (r: string)
    ensures |r| == |s|
    ensures forall i :: 0 <= i < |s| ==> r[i] == (if s[i] == c && c !in s[..i] then d else s[i])
  {
    if |s| == 0 then []
    else if s[0] == c then [d] + s[1..]
    else
      var r := [s[0]] + ReplaceFirst(s[1..], c, d);
      assert forall i :: 1 <= i < |s| ==> s[..i] == [s[0]] + s[1..][..i - 1];
      r
  }

  /** Replacing the first `c` where it stands after a prefix free of `c`. */
  lemma {:induction false} ReplaceFirstAt(a: string, b: string, c: char, d: char)
    requires c !in a
    ensures ReplaceFirst(a + [c] + b, c, d) == a + [d] + b
  {
    if |a| > 0 {
      assert (a + [c] + b)[1..] == a[1..] + [c] + b;
      ReplaceFirstAt(a[1..], b, c, d);
    }
  }

  /** A string without `c` is left as it is. */
  lemma {:induction false} ReplaceFirstAbsent(s: string, c: char, d: char)
    requires c !in s
    ensures ReplaceFirst(s, c, d) == s
  {
    if |s| > 0 {
      ReplaceFirstAbsent(s[1..], c, d);
    }
  }

  /** How often `c` occurs in `s`. */
  function Occurrences(s: string, c: char): nat
  {
    if |s| == 0 then 0 else (if s[0] == c then 1 else 0) + Occurrences(s[1..], c)
  }

  /** With at most one `c`, replacing the first is replacing them all. */
  lemma {:induction false} ReplaceFirstIsReplaceAll(s: string, c: char, d: char)
    requires Occurrences(s, c) <= 1
    ensures ReplaceFirst(s, c, d) == ReplaceAll(s, c, d)
  {
    if |s| > 0 {
      if s[0] == c {
        NoOccurrence(s[1..], c);
        assert ReplaceAll(s[1..], c, d) == s[1..];
      } else {
        ReplaceFirstIsReplaceAll(s[1..], c, d);
      }
    }
  }

  lemma {:induction false} NoOccurrence(s: string, c: char)
    requires Occurrences(s, c) == 0
    ensures c !in s
  {
    if |s| > 0 {
      NoOccurrence(s[1..], c);
      assert s == [s[0]] + s[1..];
    }
  }

  // ---------------------------------------------------------------------------
  // Plain objects whose values are numbers (a form's state, a record's inputs)

  /** The properties of an object, in property order. */
  type Entries = seq<(string, real)>

  function Keys(e: Entries): (ks: seq<string>)
    ensures |ks| == |e| && forall i :: 0 <= i < |e| ==> ks[i] == e[i].0
  {
    if |e| == 0 then [] else [e[0].0] + Keys(e[1..])
  }

  predicate Distinct(ks: seq<string>)
  {
    forall i, j :: 0 <= i < j < |ks| ==> ks[i] != ks[j]
  }

  /** `obj[k]`, with `None` for undefined. */
  function Get(e: Entries, k: string): (r: Option<real>)
    ensures r.Some? <==> k in Keys(e)
    ensures r.Some? ==> exists i :: 0 <= i < |e| && e[i] == (k, r.value)
  {
    if |e| == 0 then None
    else if e[0].0 == k then Some(e[0].1)
    else
      var r := Get(e[1..], k);
      assert Keys(e) == [e[0].0] + Keys(e[1..]);
      assert forall i :: 1 <= i < |e| ==> e[i] == e[1..][i - 1];
      r
  }

  /** `{...obj, [k]: v}`: an existing property keeps its place and takes the
      new value; a new one is added at the end. */
  function Set(e: Entries, k: string, v: real): (r: Entries)
    ensures k in Keys(r)
    ensures forall x :: x in Keys(e) ==> x in Keys(r)
    ensures forall x :: x in Keys(r) ==> x in Keys(e) || x == k
  {
    if |e| == 0 then [(k, v)]
    else if e[0].0 == k then [(k, v)] + e[1..]
    else [e[0]] + Set(e[1..], k, v)
  }

  /** After `Set`, the property has the new value. */
  lemma {:induction false} GetSetSame(e: Entries, k: string, v: real)
    ensures Get(Set(e, k, v), k) == Some(v)
  {
    if |e| > 0 && e[0].0 != k {
      GetSetSame(e[1..], k, v);
    }
  }

  /** After `Set`, every other property reads as before. */
  lemma {:induction false} GetSetOther(e: Entries, k: string, v: real, k': string)
    requires k' != k
    ensures Get(Set(e, k, v), k') == Get(e, k')
  {
    if |e| > 0 && e[0].0 != k {
      GetSetOther(e[1..], k, v, k');
    }
  }

  /** Setting a property the object has keeps its keys, in their order. */
  lemma {:induction false} SetKeepsKeys(e: Entries, k: string, v: real)
    requires k in Keys(e)
    ensures Keys(Set(e, k, v)) == Keys(e)
  {
    assert Keys(e) == [e[0].0] + Keys(e[1..]);
    if e[0].0 != k {
      SetKeepsKeys(e[1..], k, v);
    }
  }

  /** Setting a property the object lacks appends it. */
  lemma {:induction false} SetAddsKey(e: Entries, k: string, v: real)
    requires k !in Keys(e)
    ensures Set(e, k, v) == e + [(k, v)]
  {
    if |e| > 0 {
      assert Keys(e) == [e[0].0] + Keys(e[1..]);
      SetAddsKey(e[1..], k, v);
    }
  }

  /** With distinct keys, each property reads back as the value it holds. */
  lemma {:induction false} GetAt(e: Entries, i: nat)
    requires Distinct(Keys(e)) && i < |e|
    ensures Get(e, e[i].0) == Some(e[i].1)
  {
    if i > 0 {
      assert Keys(e[1..]) == Keys(e)[1..];
      assert Keys(e)[0] != Keys(e)[i];
      GetAt(e[1..], i - 1);
    }
  }
}
