/**
 * URL paths as sequences of segments, and the joining that client.go's
 * BuildURL does with path.Join.
 */
module Paths {

  type Path = seq<string>

  /** The segments of `segs` that are not empty, in order: path.Join drops empty elements. */
  function NonEmpty(segs: seq<string>): (r: seq<string>)
    ensures |r| <= |segs|
    ensures "" !in r
    ensures forall s :: s != "" ==> multiset(r)[s] == multiset(segs)[s]
  {
    if segs == [] then []
    else if segs[0] == "" then
      assert segs == [segs[0]] + segs[1..];
      NonEmpty(segs[1..])
    else
      assert segs == [segs[0]] + segs[1..];
      [segs[0]] + NonEmpty(segs[1..])
  }

  lemma {:induction false} NonEmptyKeepsAll(segs: seq<string>)
    requires forall i :: 0 <= i < |segs| ==> segs[i] != ""
    ensures NonEmpty(segs) == segs
  {
    if segs != [] {
      NonEmptyKeepsAll(segs[1..]);
    }
  }

  /** Dropping empty segments commutes with concatenation. */
  lemma {:induction false} NonEmptyAppend(xs: seq<string>, ys: seq<string>)
    ensures NonEmpty(xs + ys) == NonEmpty(xs) + NonEmpty(ys)
    decreases |xs|
  {
    if xs != [] {
      assert (xs + ys)[0] == xs[0];
      assert (xs + ys)[1..] == xs[1..] + ys;
      NonEmptyAppend(xs[1..], ys);
    } else {
      assert xs + ys == ys;
    }
  }

  /** `base` extended by the non-empty segments of `segs`. */
  function Join(base: Path, segs: seq<string>): (p: Path)
    ensures |base| <= |p| && p[..|base|] == base
    ensures "" !in segs ==> p == base + segs
    ensures "" !in p[|base|..]
    ensures forall s :: s != "" ==> multiset(p[|base|..])[s] == multiset(segs)[s]
  {
    assert "" !in segs ==> NonEmpty(segs) == segs by {
      if "" !in segs {
        NonEmptyKeepsAll(segs);
      }
    }
    assert (base + NonEmpty(segs))[|base|..] == NonEmpty(segs);
    base + NonEmpty(segs)
  }

  /** Joining in two steps is joining once with all the segments. */
  lemma JoinAssociates(base: Path, xs: seq<string>, ys: seq<string>)
    ensures Join(Join(base, xs), ys) == Join(base, xs + ys)
  {
    NonEmptyAppend(xs, ys);
    assert Join(base, xs) == base + NonEmpty(xs);
    assert Join(Join(base, xs), ys) == base + NonEmpty(xs) + NonEmpty(ys);
  }

  /** The slash-separated text of a path. */
  function Text(p: Path): string
  {
    if |p| == 0 then "" else if |p| == 1 then p[0] else p[0] + "/" + Text(p[1..])
  }

  lemma TextPair(x: string, y: string)
    ensures Text([x, y]) == x + "/" + y
  {
    assert [x, y][1..] == [y];
  }

  lemma TextCons(x: string, q: Path)
    requires q != []
    ensures Text([x] + q) == x + "/" + Text(q)
  {
    assert ([x] + q)[1..] == q;
  }
}
