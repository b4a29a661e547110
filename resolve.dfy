/** Path resolution, shared verbatim by both packages: a dotted path is split on
    the separator and the tree is walked one segment at a time. */
module Resolve {
  import opened Values

  const Separator: char := '.'

  /** Go's strings.Split(s, "."): the pieces between separators, in order. */
  function Split(s: string): (r: seq<string>)
    ensures |r| >= 1
    ensures forall i | 0 <= i < |r| :: Separator !in r[i]
    decreases |s|
  {
    if s == [] then [[]]
    else
      var rest := Split(s[1..]);
      if s[0] == Separator then [[]] + rest
      else [[s[0]] + rest[0]] + rest[1..]
  }

  /** strings.Join(segs, "."), the inverse of Split. */
  function Join(segs: seq<string>): string
    requires |segs| >= 1
    decreases |segs|
  {
    if |segs| == 1 then segs[0] else segs[0] + [Separator] + Join(segs[1..])
  }

  lemma {:induction false} JoinSplit(s: string)
    ensures Join(Split(s)) == s
    decreases |s|
  {
    if s != [] {
      JoinSplit(s[1..]);
      var rest := Split(s[1..]);
      if s[0] != Separator {
        if |rest| == 1 {
        } else {
          assert Join(rest) == rest[0] + [Separator] + Join(rest[1..]);
          assert ([[s[0]] + rest[0]] + rest[1..])[1..] == rest[1..];
        }
      } else {
        assert ([[]] + rest)[1..] == rest;
      }
    }
  }

  lemma {:induction false} SplitJoin(segs: seq<string>)
    requires |segs| >= 1
    requires forall i | 0 <= i < |segs| :: Separator !in segs[i]
    ensures Split(Join(segs)) == segs
    decreases |segs|, |segs[0]|
  {
    if |segs| == 1 {
      SplitPlain(segs[0]);
    } else {
      var tail := segs[1..];
      SplitJoin(tail);
      SplitPrefix(segs[0], Join(tail));
      assert tail == segs[1..];
    }
  }

  /** Split of a string that starts with `c`, one character at a time. */
  lemma SplitCons(c: char, t: string)
    ensures Split([c] + t) ==
      if c == Separator then [[]] + Split(t) else [[c] + Split(t)[0]] + Split(t)[1..]
  {
    assert ([c] + t)[0] == c && ([c] + t)[1..] == t;
  }

  /** strings.Split(a.b) is Split(a) followed by Split(b). */
  lemma {:induction false} SplitDotted(a: string, b: string)
    ensures Split(a + [Separator] + b) == Split(a) + Split(b)
    decreases |a|
  {
    if a == [] {
      assert a + [Separator] + b == [Separator] + b;
      SplitCons(Separator, b);
    } else {
      SplitDotted(a[1..], b);
      SplitDottedStep(a[0], a[1..], b);
      assert a == [a[0]] + a[1..];
    }
  }

  /** One more leading character keeps Split(a.b) == Split(a) + Split(b). */
  lemma SplitDottedStep(c: char, t: string, b: string)
    requires Split(t + [Separator] + b) == Split(t) + Split(b)
    ensures Split([c] + t + [Separator] + b) == Split([c] + t) + Split(b)
  {
    var x := t + [Separator] + b;
    assert [c] + t + [Separator] + b == [c] + x;
    if c == Separator {
      SplitDottedSeparator(t, b);
    } else {
      var rest, sb := Split(t), Split(b);
      calc {
        Split([c] + x);
      == { SplitCons(c, x); }
        [[c] + Split(x)[0]] + Split(x)[1..];
      ==
        [[c] + (rest + sb)[0]] + (rest + sb)[1..];
      == { ConsHead(c, rest, sb); }
        ([[c] + rest[0]] + rest[1..]) + sb;
      == { SplitCons(c, t); }
        Split([c] + t) + sb;
      }
    }
  }

  /** The step of SplitDotted for a leading separator. */
  lemma SplitDottedSeparator(t: string, b: string)
    requires Split(t + [Separator] + b) == Split(t) + Split(b)
    ensures Split([Separator] + (t + [Separator] + b)) == Split([Separator] + t) + Split(b)
  {
    var rest, sb := Split(t), Split(b);
    calc {
      Split([Separator] + (t + [Separator] + b));
    == { SplitCons(Separator, t + [Separator] + b); }
      [[]] + (rest + sb);
    == { ConsAppend([], rest, sb); }
      ([[]] + rest) + sb;
    == { SplitCons(Separator, t); }
      Split([Separator] + t) + sb;
    }
  }

  /** Prepending one element commutes with appending a sequence. A general fact about
      sequences with no counterpart in the source; it keeps SplitDotted's proof small. */
  lemma ConsAppend<T>(x: T, r: seq<T>, s: seq<T>)
    ensures [x] + (r + s) == ([x] + r) + s
  {
  }

  /** The segment lists of `c` + rest and of rest + more agree at the head. */
  lemma ConsHead(c: char, rest: seq<string>, sb: seq<string>)
    requires |rest| >= 1
    ensures [[c] + (rest + sb)[0]] + (rest + sb)[1..] == ([[c] + rest[0]] + rest[1..]) + sb
  {
    assert (rest + sb)[0] == rest[0];
    assert (rest + sb)[1..] == rest[1..] + sb;
  }

  /** A string with no separator is a single segment. */
  lemma {:induction false} SplitPlain(s: string)
    requires Separator !in s
    ensures Split(s) == [s]
    decreases |s|
  {
    if s != [] {
      assert Separator !in s[1..] by {
        forall i | 0 <= i < |s[1..]| ensures s[1..][i] != Separator { assert s[1..][i] == s[i + 1]; }
      }
      SplitPlain(s[1..]);
      assert [s[0]] + s[1..] == s;
    }
  }

  /** Splitting `w.t`, where `w` holds no separator, yields `w` before the pieces of `t`. */
  lemma {:induction false} SplitPrefix(w: string, t: string)
    requires Separator !in w
    ensures Split(w + [Separator] + t) == [w] + Split(t)
    decreases |w|
  {
    var s := w + [Separator] + t;
    if w == [] {
      assert s[0] == Separator && s[1..] == t;
    } else {
      assert s[0] == w[0];
      assert s[1..] == w[1..] + [Separator] + t;
      assert Separator !in w[1..] by {
        forall i | 0 <= i < |w[1..]| ensures w[1..][i] != Separator { assert w[1..][i] == w[i + 1]; }
      }
      SplitPrefix(w[1..], t);
      assert [w[0]] + w[1..] == w;
    }
  }

  /** The first segment of a path that is empty or starts with the separator is
      the empty string. */
  lemma LeadingSegmentEmpty(s: string)
    requires s == [] || s[0] == Separator
    ensures Split(s)[0] == []
  {
  }

  /** The result of walking a path: the non-null value found, nothing, or the
      panic raised by the unchecked assertion `result.(ConfigNode)` when an
      intermediate segment holds something other than a map. */
  datatype Resolved = Absent | Found(v: Value) | BadDescent

  /** configVal: look up the first segment; a missing key or an explicit null
      ends resolution with nothing; one segment left gives the value found;
      otherwise the walk continues inside the value, which must be a map. */
  function ConfigVal(path: seq<string>, node: Node): (r: Resolved)
    requires |path| >= 1
    ensures r.Found? ==> r.v != Null
    ensures (path[0] !in node || node[path[0]] == Null) ==> r == Absent
    ensures |path| == 1 && path[0] in node && node[path[0]] != Null ==> r == Found(node[path[0]])
    decreases |path|
  {
    var result := if path[0] in node then node[path[0]] else Null;
    if result == Null then Absent
    else if |path| == 1 then Found(result)
    else match result
      case Obj(m) => ConfigVal(path[1..], m)
      case _ => BadDescent
  }

  /** Walking `p + q` is walking `p` and then walking `q` inside what `p` found,
      which must be a map. */
  lemma {:induction false} ConfigValAppend(p: seq<string>, q: seq<string>, node: Node)
    requires |p| >= 1 && |q| >= 1
    ensures ConfigVal(p + q, node) ==
      match ConfigVal(p, node)
      case Absent => Absent
      case BadDescent => BadDescent
      case Found(v) => if v.Obj? then ConfigVal(q, v.fields) else BadDescent
    decreases |p|
  {
    var pq := p + q;
    assert pq[0] == p[0];
    if |p| == 1 {
      assert pq[1..] == q;
    } else {
      assert pq[1..] == p[1..] + q;
      var result := if p[0] in node then node[p[0]] else Null;
      if result != Null && result.Obj? {
        ConfigValAppend(p[1..], q, result.fields);
      }
    }
  }

  /** A null entry and a missing entry resolve identically, whatever the path. */
  lemma NullIsMissing(path: seq<string>, node: Node, k: string)
    requires |path| >= 1
    ensures ConfigVal(path, node[k := Null]) == ConfigVal(path, node - {k})
  {
  }
}
