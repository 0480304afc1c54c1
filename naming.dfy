/** TracerManager.CompositeFor: the chain of trace source names a tracer
    name inherits from, most general first. */
module Naming {
  import Strings

  /** TracerManager.DefaultSourceName, the source every chain starts with. */
  const DefaultSourceName: string := "*"

  /** The dotted prefixes `parts[0]`, `parts[0].parts[1]`, ... of a list of
      segments: string.Join(".", parts, 0, i) for i = 1 .. parts.Length. */
  function Prefixes(parts: seq<string>): (r: seq<string>)
    ensures |r| == |parts|
  {
    if |parts| == 0 then []
    else Prefixes(parts[..|parts| - 1]) + [Strings.Join(parts, '.')]
  }

  /** The i-th prefix joins the first i + 1 segments. */
  lemma {:induction false} PrefixAt(parts: seq<string>, i: nat)
    requires i < |parts|
    ensures Prefixes(parts)[i] == Strings.Join(parts[..i + 1], '.')
    decreases |parts|
  {
    var n := |parts|;
    if i < n - 1 {
      PrefixAt(parts[..n - 1], i);
      assert parts[..n - 1][..i + 1] == parts[..i + 1];
    } else {
      assert parts[..n] == parts;
    }
  }

  /** The chain of source names for `name`: "*", then the prefixes of the
      part before the first '<' (or, without one, before the last '.'),
      then `name` itself. */
  function CompositeFor(name: string): (r: seq<string>)
    ensures |r| >= 2
    ensures r[0] == DefaultSourceName && r[|r| - 1] == name
    ensures forall i :: 1 <= i < |r| - 1 ==> r[i] != "" && '<' !in r[i]
  {
    var indexOfGeneric := Strings.IndexOf(name, '<');
    var indexOfLastDot := Strings.LastIndexOf(name, '.');
    if indexOfGeneric == -1 && indexOfLastDot == -1 then
      [DefaultSourceName, name]
    else
      var base := if indexOfGeneric == -1 then name[..indexOfLastDot] else name[..indexOfGeneric];
      var parts := Strings.Split(base, '.');
      PrefixesWellFormed(parts, base);
      [DefaultSourceName] + Prefixes(parts) + [name]
  }

  /** Every prefix of non-empty segments taken from a '<'-free string is
      non-empty and '<'-free. */
  lemma PrefixesWellFormed(parts: seq<string>, base: string)
    requires parts == Strings.Split(base, '.')
    requires '<' !in base
    ensures forall i :: 0 <= i < |Prefixes(parts)| ==> Prefixes(parts)[i] != "" && '<' !in Prefixes(parts)[i]
  {
    Strings.SplitAvoids(base, '.', '<');
    forall i | 0 <= i < |parts|
      ensures Prefixes(parts)[i] != "" && '<' !in Prefixes(parts)[i]
    {
      var p := parts[..i + 1];
      PrefixAt(parts, i);
      Strings.JoinStartsWith(p, '.');
      Strings.NotInJoin(p, '.', '<');
    }
  }

  /** A name with neither '.' nor '<' inherits only from "*". */
  lemma {:induction false} PlainName(name: string)
    requires '.' !in name && '<' !in name
    ensures CompositeFor(name) == [DefaultSourceName, name]
  {
  }

  /** Only the empty name has an empty name in its chain, right after "*":
      there Get caches "*" and then fails to create "". */
  lemma EmptyInChain(name: string)
    ensures "" in CompositeFor(name) <==> name == ""
    ensures name == "" ==> CompositeFor(name) == [DefaultSourceName, ""]
  {
    if name == "" {
      PlainName(name);
    }
  }

  /** Hence the default source lists itself twice. */
  lemma DefaultSourceTwice()
    ensures CompositeFor(DefaultSourceName) == [DefaultSourceName, DefaultSourceName]
  {
    PlainName(DefaultSourceName);
  }

  /** Without '<', the prefixes come from the part before the last '.'. */
  lemma NonGenericName(name: string, head: string)
    requires '<' !in name
    requires Strings.LastIndexOf(name, '.') == |head| && name[..|head|] == head
    ensures CompositeFor(name) == [DefaultSourceName] + Prefixes(Strings.Split(head, '.')) + [name]
  {
  }

  /** The last '.' of a join of '.'-free pieces precedes the last piece. */
  lemma LastDotOfJoin(segments: seq<string>)
    requires |segments| >= 2
    requires Strings.Segments(segments, '.')
    ensures var head := Strings.Join(segments[..|segments| - 1], '.');
            var name := Strings.Join(segments, '.');
            Strings.LastIndexOf(name, '.') == |head| && name[..|head|] == head
  {
    var n := |segments|;
    var init := segments[..n - 1];
    assert init + [segments[n - 1]] == segments;
    Strings.JoinSnoc(init, segments[n - 1], '.');
    var head := Strings.Join(init, '.');
    var name := Strings.Join(segments, '.');
    assert name == head + ['.'] + segments[n - 1];
    assert name[|head|] == '.';
    assert name[|head| + 1..] == segments[n - 1];
    assert name[..|head|] == head;
  }

  /** A name of two or more '.'-separated segments without '<' inherits
      from every dotted prefix of its segments. */
  lemma {:induction false} DottedChain(segments: seq<string>, name: string)
    requires |segments| >= 2
    requires Strings.Segments(segments, '.')
    requires forall i :: 0 <= i < |segments| ==> '<' !in segments[i]
    requires name == Strings.Join(segments, '.')
    ensures CompositeFor(name) == [DefaultSourceName] + Prefixes(segments)
  {
    var n := |segments|;
    Strings.NotInJoin(segments, '.', '<');
    var init := segments[..n - 1];
    var head := Strings.Join(init, '.');
    LastDotOfJoin(segments);
    assert Strings.Segments(init, '.');
    Strings.SplitJoin(init, '.');
    NonGenericName(name, head);
  }

  /** A non-generic name made of k non-empty segments gives k + 1 names: "*"
      and the k dotted prefixes, the last of which is the name itself. */
  lemma DottedName(segments: seq<string>, name: string)
    requires |segments| >= 1
    requires Strings.Segments(segments, '.')
    requires forall i :: 0 <= i < |segments| ==> '<' !in segments[i]
    requires name == Strings.Join(segments, '.')
    ensures CompositeFor(name) == [DefaultSourceName] + Prefixes(segments)
    ensures |CompositeFor(name)| == |segments| + 1
  {
    if |segments| == 1 {
      assert name == segments[0];
      PlainName(name);
      assert segments[..0] == [];
    } else {
      DottedChain(segments, name);
    }
  }

  /** Dots after the first '<' never produce prefixes: the chain of a generic
      name depends on the part before the '<' only. */
  lemma GenericName(prefix: string, rest: string)
    requires '<' !in prefix
    ensures CompositeFor(prefix + "<" + rest)
         == [DefaultSourceName] + Prefixes(Strings.Split(prefix, '.')) + [prefix + "<" + rest]
  {
    var name := prefix + "<" + rest;
    assert Strings.IndexOf(name, '<') == |prefix| by {
      assert name[|prefix|] == '<';
      assert name[..|prefix|] == prefix;
    }
    assert name[..|prefix|] == prefix;
  }

  /** For instance, "A<B.C>" inherits from "*" and "A" only. */
  lemma GenericExample(a: string, b: string, c: string)
    requires a != "" && '.' !in a && '<' !in a
    ensures CompositeFor(a + "<" + b + "." + c + ">") == ["*", a, a + "<" + b + "." + c + ">"]
  {
    var rest := b + "." + c + ">";
    var name := a + "<" + b + "." + c + ">";
    assert name == a + "<" + rest;
    GenericName(a, rest);
    assert Prefixes(Strings.Split(a, '.')) == [a] by {
      Strings.SplitJoin([a], '.');
      assert [a][..0] == [];
    }
  }

  /** "A.B" inherits from "*" and "A". */
  lemma DottedPair(a: string, b: string)
    requires Strings.Segments([a, b], '.')
    requires '<' !in a && '<' !in b
    ensures CompositeFor(a + "." + b) == ["*", a, a + "." + b]
  {
    var segments := [a, b];
    var name := a + "." + b;
    assert Strings.Join(segments, '.') == name by {
      assert segments[1..] == [b];
    }
    DottedName(segments, name);
    assert segments[..1] == [a];
    assert [a][..0] == [];
    assert Prefixes([a]) == [a];
  }

  /** And "A.B.C" inherits from "*", "A" and "A.B". */
  lemma DottedExample(a: string, b: string, c: string)
    requires Strings.Segments([a, b, c], '.')
    requires '<' !in a && '<' !in b && '<' !in c
    ensures CompositeFor(a + "." + b + "." + c) == ["*", a, a + "." + b, a + "." + b + "." + c]
  {
    var segments := [a, b, c];
    var name := a + "." + b + "." + c;
    assert Strings.Join(segments, '.') == name by {
      assert segments[1..] == [b, c];
      assert [b, c][1..] == [c];
      assert Strings.Join([c], '.') == c;
      assert Strings.Join([b, c], '.') == b + "." + c;
      assert Strings.Join(segments, '.') == a + "." + (b + "." + c);
    }
    DottedName(segments, name);
    assert segments[..2] == [a, b];
    assert [a, b][..1] == [a];
    assert [a][..0] == [];
    assert Strings.Join([a, b], '.') == a + "." + b by {
      assert [a, b][1..] == [b];
    }
    assert Prefixes([a]) == [a];
    assert Prefixes([a, b]) == [a, a + "." + b];
    assert Prefixes(segments) == [a, a + "." + b, name];
  }
}
