/**
 * The few Python string operations the application relies on, stated over
 * `seq<char>`: `sep.join(parts)`, `s.split(c)` for a one-character separator,
 * concatenating a stream of pieces, ASCII `str.upper()` and the quoting that
 * `repr` applies to a plain string.
 */
module PyStr {

  /** Python's `sep.join(parts)`: no separator before the first part or after the last. */
  function Join(sep: string, parts: seq<string>): string
    decreases |parts|
  {
    if |parts| == 0 then ""
    else if |parts| == 1 then parts[0]
    else parts[0] + sep + Join(sep, parts[1..])
  }

  /** Joining two non-empty lists puts exactly one separator between their joins. */
  lemma {:induction false} JoinConcat(sep: string, a: seq<string>, b: seq<string>)
    requires a != [] && b != []
    ensures Join(sep, a + b) == Join(sep, a) + sep + Join(sep, b)
    decreases |a|
  {
    if |a| == 1 {
      assert (a + b)[0] == a[0];
      assert (a + b)[1..] == b;
    } else {
      assert (a + b)[0] == a[0];
      assert (a + b)[1..] == a[1..] + b;
      JoinConcat(sep, a[1..], b);
    }
  }

  /** The last character of a join is the last character of its last part, when that part is non-empty. */
  lemma JoinEndsWithLastPart(sep: string, parts: seq<string>)
    requires parts != [] && parts[|parts| - 1] != []
    ensures var r := Join(sep, parts); r != [] && r[|r| - 1] == parts[|parts| - 1][|parts[|parts| - 1]| - 1]
  {
    var n := |parts|;
    if n > 1 {
      assert parts == parts[..n - 1] + [parts[n - 1]];
      JoinConcat(sep, parts[..n - 1], [parts[n - 1]]);
    }
  }

  /** Python's `s.split(c)`: the fields between occurrences of `c`; always at least one field. */
  function SplitOn(c: char, s: string): (r: seq<string>)
    ensures |r| >= 1
    decreases |s|
  {
    if s == [] then [[]]
    else if s[0] == c then [[]] + SplitOn(c, s[1..])
    else
      var rest := SplitOn(c, s[1..]);
      [[s[0]] + rest[0]] + rest[1..]
  }

  /** A string free of the separator splits into itself. */
  lemma {:induction false} SplitOnFree(c: char, p: string)
    requires c !in p
    ensures SplitOn(c, p) == [p]
    decreases |p|
  {
    if p != [] {
      SplitOnFree(c, p[1..]);
      assert [p[0]] + p[1..] == p;
    }
  }

  /** A separator-free field followed by the separator splits off as one field. */
  lemma {:induction false} SplitOnField(c: char, p: string, s: string)
    requires c !in p
    ensures SplitOn(c, p + [c] + s) == [p] + SplitOn(c, s)
    decreases |p|
  {
    var t := p + [c] + s;
    if p == [] {
      assert t == [c] + s;
      assert t[1..] == s;
    } else {
      assert t[0] == p[0];
      assert t[1..] == p[1..] + [c] + s;
      SplitOnField(c, p[1..], s);
      assert [p[0]] + p[1..] == p;
    }
  }

  /** Round trip: splitting a join on its one-character separator gives the parts back. */
  lemma {:induction false} SplitJoin(c: char, parts: seq<string>)
    requires parts != []
    requires forall i :: 0 <= i < |parts| ==> c !in parts[i]
    ensures SplitOn(c, Join([c], parts)) == parts
    decreases |parts|
  {
    if |parts| == 1 {
      SplitOnFree(c, parts[0]);
    } else {
      SplitJoin(c, parts[1..]);
      SplitOnField(c, parts[0], Join([c], parts[1..]));
      assert [parts[0]] + parts[1..] == parts;
    }
  }

  /** `"".join(pieces)`: the text a stream of pieces adds up to. */
  function Concat(pieces: seq<string>): string
    decreases |pieces|
  {
    if pieces == [] then "" else pieces[0] + Concat(pieces[1..])
  }

  lemma {:induction false} ConcatSnoc(pieces: seq<string>, p: string)
    ensures Concat(pieces + [p]) == Concat(pieces) + p
    decreases |pieces|
  {
    if pieces == [] {
      assert pieces + [p] == [p];
    } else {
      assert (pieces + [p])[0] == pieces[0];
      assert (pieces + [p])[1..] == pieces[1..] + [p];
      ConcatSnoc(pieces[1..], p);
    }
  }

  /** `str.upper()` on one character, for the ASCII letters. */
  function UpperChar(c: char): char
  {
    if 'a' <= c <= 'z' then (c as int - 32) as char else c
  }

  /** `str.upper()`, for ASCII text. */
  function Upper(s: string): string
  {
    seq(|s|, i requires 0 <= i < |s| => UpperChar(s[i]))
  }

  /** Upper-casing twice is upper-casing once, so an upper-cased ticker is its own key. */
  lemma UpperIdempotent(s: string)
    ensures Upper(Upper(s)) == Upper(s)
  {
    assert forall i :: 0 <= i < |s| ==> Upper(Upper(s))[i] == Upper(s)[i];
  }

  /** `repr` of a plain string: the text between single quotes. */
  function Quote(s: string): string
  {
    "'" + s + "'"
  }
}
