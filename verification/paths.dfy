/** Request paths as '/'-separated segments. The client builds paths by
    plain string interpolation, with no escaping, so an identifier is a
    single segment exactly when it contains no '/'. */
module Paths {

  predicate NoSlash(s: string) {
    forall i :: 0 <= i < |s| ==> s[i] != '/'
  }

  /** The segments joined with '/' between neighbours. */
  function Join(segs: seq<string>): string
    decreases |segs|
  {
    if |segs| == 0 then ""
    else if |segs| == 1 then segs[0]
    else segs[0] + "/" + Join(segs[1..])
  }

  /** Splits a path at every '/': the pieces between separators, so `k`
      separators give `k + 1` segments (some possibly empty). */
  function Segments(p: string): (segs: seq<string>)
    ensures |segs| >= 1
    ensures forall k :: 0 <= k < |segs| ==> NoSlash(segs[k])
    ensures Join(segs) == p
    decreases |p|
  {
    if |p| == 0 then [""]
    else
      var rest := Segments(p[1..]);
      if p[0] == '/' then
        assert Join([""] + rest) == "" + "/" + Join(rest) by {
          assert ([""] + rest)[1..] == rest;
        }
        [""] + rest
      else
        var segs := [[p[0]] + rest[0]] + rest[1..];
        JoinConsHead(p[0], rest);
        assert p == [p[0]] + p[1..];
        segs
  }

  /** Prepending a non-separator character extends the first segment. */
  lemma {:induction false} JoinConsHead(c: char, rest: seq<string>)
    requires |rest| >= 1
    ensures Join([[c] + rest[0]] + rest[1..]) == [c] + Join(rest)
  {
    var segs := [[c] + rest[0]] + rest[1..];
    if |rest| == 1 {
    } else {
      assert segs[1..] == rest[1..];
    }
  }

  /** A slash-free string followed by '/' contributes exactly one segment. */
  lemma {:induction false} SegmentsOfPrefixed(s: string, t: string)
    requires NoSlash(s)
    ensures Segments(s + "/" + t) == [s] + Segments(t)
    decreases |s|
  {
    if |s| == 0 {
      assert s + "/" + t == ['/'] + t;
      assert (['/'] + t)[1..] == t;
    } else {
      var p := s + "/" + t;
      assert p[1..] == s[1..] + "/" + t;
      SegmentsOfPrefixed(s[1..], t);
      assert [s[0]] + s[1..] == s;
    }
  }

  /** A slash-free string is a single segment. */
  lemma {:induction false} SegmentsOfSingle(s: string)
    requires NoSlash(s)
    ensures Segments(s) == [s]
    decreases |s|
  {
    if |s| > 0 {
      SegmentsOfSingle(s[1..]);
      assert [s[0]] + s[1..] == s;
    }
  }

  /** Splitting undoes joining, for slash-free segments. */
  lemma {:induction false} SegmentsOfJoin(segs: seq<string>)
    requires |segs| >= 1
    requires forall k :: 0 <= k < |segs| ==> NoSlash(segs[k])
    ensures Segments(Join(segs)) == segs
    decreases |segs|
  {
    if |segs| == 1 {
      SegmentsOfSingle(segs[0]);
    } else {
      SegmentsOfJoin(segs[1..]);
      SegmentsOfPrefixed(segs[0], Join(segs[1..]));
    }
  }
}
