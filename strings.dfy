/** The few System.String operations the tracer relies on: IndexOf,
    LastIndexOf, Split (with and without RemoveEmptyEntries) and Join, on
    strings as sequences of characters. */
module Strings {

  /** String.IndexOf(char): the first position of `c`, or -1. */
  function IndexOf(s: string, c: char): (r: int)
    ensures -1 <= r < |s|
    ensures r == -1 <==> c !in s
    ensures r >= 0 ==> s[r] == c && c !in s[..r]
  {
    if |s| == 0 then -1
    else if s[0] == c then 0
    else
      var k := IndexOf(s[1..], c);
      if k == -1 then -1 else k + 1
  }

  /** String.LastIndexOf(char): the last position of `c`, or -1. */
  function LastIndexOf(s: string, c: char): (r: int)
    ensures -1 <= r < |s|
    ensures r == -1 <==> c !in s
    ensures r >= 0 ==> s[r] == c && c !in s[r + 1..]
  {
    if |s| == 0 then -1
    else if s[|s| - 1] == c then |s| - 1
    else LastIndexOf(s[..|s| - 1], c)
  }

  /** String.Split(d) without options: every piece between delimiters,
      empty ones included; always at least one piece. */
  function SplitAll(s: string, d: char): (r: seq<string>)
    ensures |r| >= 1
    ensures forall i :: 0 <= i < |r| ==> d !in r[i]
    decreases |s|
  {
    if |s| == 0 then [""]
    else
      var rest := SplitAll(s[1..], d);
      if s[0] == d then [""] + rest
      else [[s[0]] + rest[0]] + rest[1..]
  }

  /** The pieces that StringSplitOptions.RemoveEmptyEntries keeps. */
  function RemoveEmpty(parts: seq<string>): (r: seq<string>)
    ensures forall i :: 0 <= i < |r| ==> r[i] != "" && r[i] in parts
    ensures forall p :: p in parts && p != "" ==> p in r
    ensures |r| <= |parts|
  {
    if parts == [] then []
    else if parts[0] == "" then RemoveEmpty(parts[1..])
    else [parts[0]] + RemoveEmpty(parts[1..])
  }

  /** String.Split(new[] { d }, StringSplitOptions.RemoveEmptyEntries). */
  function Split(s: string, d: char): (r: seq<string>)
    ensures forall i :: 0 <= i < |r| ==> r[i] != "" && d !in r[i]
  {
    RemoveEmpty(SplitAll(s, d))
  }

  /** String.Join(d, parts): the parts with one `d` between neighbours. */
  function Join(parts: seq<string>, d: char): string
  {
    if |parts| == 0 then ""
    else if |parts| == 1 then parts[0]
    else parts[0] + [d] + Join(parts[1..], d)
  }

  /** No piece contains `d`, and each is non-empty. */
  ghost predicate Segments(parts: seq<string>, d: char)
  {
    forall i :: 0 <= i < |parts| ==> parts[i] != "" && d !in parts[i]
  }

  /** Joining the raw pieces of a split gives the string back. */
  lemma {:induction false} JoinSplitAll(s: string, d: char)
    ensures Join(SplitAll(s, d), d) == s
    decreases |s|
  {
    if |s| > 0 {
      var rest := SplitAll(s[1..], d);
      JoinSplitAll(s[1..], d);
      if s[0] == d {
        assert Join([""] + rest, d) == "" + [d] + Join(rest, d) by {
          assert ([""] + rest)[1..] == rest;
        }
        assert s == [d] + s[1..];
      } else if |rest| == 1 {
        assert s == [s[0]] + s[1..];
      } else {
        var r := [[s[0]] + rest[0]] + rest[1..];
        assert r[1..] == rest[1..];
        assert Join(rest, d) == rest[0] + [d] + Join(rest[1..], d);
        assert s == [s[0]] + s[1..];
      }
    }
  }

  /** A string without the delimiter is one raw piece. */
  lemma {:induction false} SplitAllNoDelimiter(s: string, d: char)
    requires d !in s
    ensures SplitAll(s, d) == [s]
    decreases |s|
  {
    if |s| > 0 {
      assert d !in s[1..];
      SplitAllNoDelimiter(s[1..], d);
      assert s == [s[0]] + s[1..];
    }
  }

  /** Splitting at the first delimiter peels off the piece before it. */
  lemma {:induction false} SplitAllCons(a: string, b: string, d: char)
    requires d !in a
    ensures SplitAll(a + [d] + b, d) == [a] + SplitAll(b, d)
    decreases |a|
  {
    var s := a + [d] + b;
    if |a| == 0 {
      assert s[1..] == b;
    } else {
      assert s[1..] == a[1..] + [d] + b;
      assert d !in a[1..];
      SplitAllCons(a[1..], b, d);
      assert [a[0]] + a[1..] == a;
    }
  }

  /** Raw splitting undoes joining pieces that do not contain the delimiter. */
  lemma {:induction false} SplitAllJoin(parts: seq<string>, d: char)
    requires |parts| >= 1
    requires forall i :: 0 <= i < |parts| ==> d !in parts[i]
    ensures SplitAll(Join(parts, d), d) == parts
    decreases |parts|
  {
    if |parts| == 1 {
      SplitAllNoDelimiter(parts[0], d);
    } else {
      SplitAllJoin(parts[1..], d);
      SplitAllCons(parts[0], Join(parts[1..], d), d);
      assert [parts[0]] + parts[1..] == parts;
    }
  }

  lemma {:induction false} RemoveEmptyKeeps(parts: seq<string>)
    requires forall i :: 0 <= i < |parts| ==> parts[i] != ""
    ensures RemoveEmpty(parts) == parts
    decreases |parts|
  {
    if parts != [] {
      RemoveEmptyKeeps(parts[1..]);
      assert [parts[0]] + parts[1..] == parts;
    }
  }

  /** Round trip: splitting (empty pieces dropped) undoes joining non-empty,
      delimiter-free segments. */
  lemma SplitJoin(parts: seq<string>, d: char)
    requires Segments(parts, d)
    ensures Split(Join(parts, d), d) == parts
  {
    if parts == [] {
      assert Join(parts, d) == "";
    } else {
      SplitAllJoin(parts, d);
      RemoveEmptyKeeps(parts);
    }
  }

  /** Join of one more segment. */
  lemma {:induction false} JoinSnoc(parts: seq<string>, x: string, d: char)
    requires |parts| >= 1
    ensures Join(parts + [x], d) == Join(parts, d) + [d] + x
    decreases |parts|
  {
    if |parts| > 1 {
      assert (parts + [x])[1..] == parts[1..] + [x];
      JoinSnoc(parts[1..], x, d);
    }
  }

  /** A character that is neither the separator nor in any part is not in the join. */
  lemma {:induction false} NotInJoin(parts: seq<string>, d: char, c: char)
    requires c != d
    requires forall i :: 0 <= i < |parts| ==> c !in parts[i]
    ensures c !in Join(parts, d)
    decreases |parts|
  {
    if |parts| > 1 {
      NotInJoin(parts[1..], d, c);
    }
  }

  /** A join starts with its first part. */
  lemma {:induction false} JoinStartsWith(parts: seq<string>, d: char)
    requires |parts| >= 1
    ensures |Join(parts, d)| >= |parts[0]|
    ensures Join(parts, d)[..|parts[0]|] == parts[0]
  {
  }

  /** The raw pieces of a string avoid every character the string avoids. */
  lemma {:induction false} SplitAllAvoids(s: string, d: char, c: char)
    requires c !in s
    ensures forall i :: 0 <= i < |SplitAll(s, d)| ==> c !in SplitAll(s, d)[i]
    decreases |s|
  {
    if |s| > 0 {
      assert c !in s[1..];
      SplitAllAvoids(s[1..], d, c);
    }
  }

  /** Split pieces avoid every character the string avoids. */
  lemma SplitAvoids(s: string, d: char, c: char)
    requires c !in s
    ensures forall i :: 0 <= i < |Split(s, d)| ==> c !in Split(s, d)[i]
  {
    SplitAllAvoids(s, d, c);
  }
}
