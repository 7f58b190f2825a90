/** Small shared vocabulary: an optional value, the ASCII upper-casing the
    stores apply to typed words, decimal rendering of integers for the score
    breakdown text, and `split`/`join` on a one-character separator as
    JavaScript's `String.prototype.split` and `Array.prototype.join` do it. */
module Common {

  datatype Option<T> = None | Some(value: T) {
    function GetOr(default: T): T {
      match this
      case Some(v) => v
      case None => default
    }
  }

  /** `findIndex(pred)`: the first index whose element satisfies `pred`,
      or nothing when none does. */
  function FindIndex<T>(xs: seq<T>, pred: T -> bool): (r: Option<nat>)
    ensures r.Some? ==> r.value < |xs| && pred(xs[r.value]) &&
                        forall j :: 0 <= j < r.value ==> !pred(xs[j])
    ensures r.None? <==> forall j :: 0 <= j < |xs| ==> !pred(xs[j])
    decreases |xs|
  {
    if |xs| == 0 then None
    else if pred(xs[0]) then Some(0)
    else match FindIndex(xs[1..], pred)
      case None => None
      case Some(k) => Some(k + 1)
  }

  /** `toUpperCase` restricted to ASCII letters. */
  function UpperChar(c: char): char {
    if 'a' <= c <= 'z' then (c as int - 32) as char else c
  }

  function Upper(s: string): (r: string)
    ensures |r| == |s|
    ensures forall i :: 0 <= i < |s| ==> r[i] == UpperChar(s[i])
  {
    seq(|s|, i requires 0 <= i < |s| => UpperChar(s[i]))
  }

  function DigitChar(d: nat): char
    requires d < 10
  {
    "0123456789"[d]
  }

  function NatToString(n: nat): string
    decreases n
  {
    if n < 10 then [DigitChar(n)] else NatToString(n / 10) + [DigitChar(n % 10)]
  }

  /** The decimal text JavaScript prints for an integer in a template string. */
  function IntToString(n: int): string {
    if n < 0 then "-" + NatToString(-n) else NatToString(n)
  }

  /** `parts.join(sep)`. */
  function Join(parts: seq<string>, sep: char): string
    decreases |parts|
  {
    if |parts| == 0 then ""
    else if |parts| == 1 then parts[0]
    else parts[0] + [sep] + Join(parts[1..], sep)
  }

  /** `s.split(sep)`: never empty, no part holds the separator, and joining
      the parts back with the separator gives `s` again. */
  function Split(s: string, sep: char): (parts: seq<string>)
    ensures |parts| >= 1
    ensures forall i :: 0 <= i < |parts| ==> sep !in parts[i]
    ensures Join(parts, sep) == s
    decreases |s|
  {
    if |s| == 0 then [""]
    else
      var rest := Split(s[1..], sep);
      if s[0] == sep then
        assert s == [sep] + Join(rest, sep);
        [""] + rest
      else
        assert s == [s[0]] + s[1..];
        [[s[0]] + rest[0]] + rest[1..]
  }

  lemma {:induction false} SplitPrefix(p: string, sep: char, rest: string)
    requires sep !in p
    ensures Split(p + [sep] + rest, sep) == [p] + Split(rest, sep)
    decreases |p|
  {
    if |p| == 0 {
      assert p + [sep] + rest == [sep] + rest;
      assert ([sep] + rest)[1..] == rest;
    } else {
      assert (p + [sep] + rest)[1..] == p[1..] + [sep] + rest;
      SplitPrefix(p[1..], sep, rest);
      assert [p[0]] + p[1..] == p;
    }
  }

  lemma {:induction false} SplitWhole(p: string, sep: char)
    requires sep !in p
    ensures Split(p, sep) == [p]
    decreases |p|
  {
    if |p| > 0 {
      SplitWhole(p[1..], sep);
      assert [p[0]] + p[1..] == p;
    }
  }

  /** `split` undoes `join` when no part holds the separator. */
  lemma {:induction false} SplitJoin(parts: seq<string>, sep: char)
    requires |parts| >= 1
    requires forall i :: 0 <= i < |parts| ==> sep !in parts[i]
    ensures Split(Join(parts, sep), sep) == parts
    decreases |parts|
  {
    if |parts| == 1 {
      SplitWhole(parts[0], sep);
    } else {
      SplitJoin(parts[1..], sep);
      SplitPrefix(parts[0], sep, Join(parts[1..], sep));
      assert [parts[0]] + parts[1..] == parts;
    }
  }
}
