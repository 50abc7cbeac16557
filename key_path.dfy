/**
 * Dot-separated key paths: `keyPath.split('.')` and its inverse. As in
 * JavaScript, splitting never yields an empty list: "" splits to [""] and an
 * empty segment stands wherever two dots are adjacent or a dot is at an end.
 */
module KeyPath {

  function Split(s: string): (segs: seq<string>)
    ensures |segs| >= 1
    ensures forall i :: 0 <= i < |segs| ==> '.' !in segs[i]
  {
    if s == [] then [""]
    else
      var rest := Split(s[1..]);
      if s[0] == '.' then [""] + rest
      else [[s[0]] + rest[0]] + rest[1..]
  }

  /** `segs.join('.')`. */
  function Join(segs: seq<string>): string
    requires |segs| >= 1
  {
    if |segs| == 1 then segs[0] else segs[0] + "." + Join(segs[1..])
  }

  predicate DotFree(segs: seq<string>)
  {
    forall i :: 0 <= i < |segs| ==> '.' !in segs[i]
  }

  /** Joining the pieces gives back the path, so splitting loses nothing. */
  lemma {:induction false} JoinSplit(s: string)
    ensures Join(Split(s)) == s
  {
    if s != [] {
      var rest := Split(s[1..]);
      JoinSplit(s[1..]);
      if s[0] == '.' {
        assert Split(s) == [""] + rest;
        assert Split(s)[1..] == rest;
        assert s == "." + s[1..];
      } else if |rest| == 1 {
        assert Split(s) == [[s[0]] + rest[0]];
        assert s == [s[0]] + s[1..];
      } else {
        assert Split(s)[1..] == rest[1..];
        assert Join(rest) == rest[0] + "." + Join(rest[1..]);
        assert s == [s[0]] + s[1..];
      }
    }
  }

  /** A dot-free word in front of a string becomes part of its first segment. */
  lemma {:induction false} SplitDotFreePrefix(w: string, t: string)
    requires '.' !in w
    ensures Split(w + t) == [w + Split(t)[0]] + Split(t)[1..]
  {
    if w != [] {
      assert (w + t)[1..] == w[1..] + t;
      assert w[0] != '.' by { assert w[0] in w; }
      SplitDotFreePrefix(w[1..], t);
      assert [w[0]] + (w[1..] + Split(t)[0]) == w + Split(t)[0];
    } else {
      assert w + t == t;
      assert w + Split(t)[0] == Split(t)[0];
      assert Split(t) == [Split(t)[0]] + Split(t)[1..];
    }
  }

  /** Splitting a joined list of dot-free segments gives the segments back. */
  lemma {:induction false} SplitJoin(segs: seq<string>)
    requires |segs| >= 1 && DotFree(segs)
    ensures Split(Join(segs)) == segs
  {
    if |segs| == 1 {
      SplitDotFreePrefix(segs[0], "");
      assert segs[0] + "" == segs[0];
    } else {
      var tail := segs[1..];
      assert DotFree(tail) by {
        forall i | 0 <= i < |tail| ensures '.' !in tail[i] { assert tail[i] == segs[i + 1]; }
      }
      SplitJoin(tail);
      var t := "." + Join(tail);
      assert '.' !in segs[0];
      assert Join(segs) == segs[0] + t;
      SplitDotFreePrefix(segs[0], t);
      assert t[1..] == Join(tail);
      assert Split(t) == [""] + tail;
      assert Split(t)[0] == "" && Split(t)[1..] == tail;
      assert segs[0] + "" == segs[0];
      assert segs == [segs[0]] + tail;
    }
  }

  /** A path `p.q` splits into the segments of `p` followed by those of `q`. */
  lemma {:induction false} SplitConcat(p: string, q: string)
    ensures Split(p + "." + q) == Split(p) + Split(q)
  {
    if p == [] {
      assert p + "." + q == "." + q;
      assert ("." + q)[1..] == q;
    } else {
      assert (p + "." + q)[1..] == p[1..] + "." + q;
      SplitConcat(p[1..], q);
      if p[0] != '.' {
        var x := Split(p[1..]) + Split(q);
        assert x[0] == Split(p[1..])[0];
        assert x[1..] == Split(p[1..])[1..] + Split(q);
      }
    }
  }
}
