/**
 * The shape of the card-news story and the pure arithmetic of navigating it.
 *
 * A story is a sequence of chapters, each an ordered list of scenes. Navigation
 * only depends on how many scenes each chapter has, so a story is represented
 * here by its sequence of per-chapter scene counts. A position is a pair of
 * zero-based indices (chapter, scene).
 */
module Story {

  /** A position in the story: zero-based chapter index and scene index. */
  datatype Position = Position(chapter: int, scene: int)

  /** The story table must have at least one chapter, and every chapter at least
      one scene: the page looks up chapter 0 at start-up and the backward step
      computes "number of scenes - 1" without checking. */
  predicate WellFormed(sizes: seq<nat>)
  {
    |sizes| > 0 && forall i :: 0 <= i < |sizes| ==> sizes[i] >= 1
  }

  /** The position addresses an existing scene of the story. */
  predicate InRange(sizes: seq<nat>, p: Position)
  {
    0 <= p.chapter < |sizes| && 0 <= p.scene < sizes[p.chapter]
  }

  /** The first scene of the first chapter. */
  function Start(): Position
  {
    Position(0, 0)
  }

  /** The last scene of the last chapter. */
  predicate AtEnd(sizes: seq<nat>, p: Position)
    requires WellFormed(sizes)
  {
    p.chapter == |sizes| - 1 && p.scene == sizes[|sizes| - 1] - 1
  }

  /** Sum of a sequence, accumulated from the left as a running total. */
  function Sum(s: seq<nat>): nat
  {
    if s == [] then 0 else Sum(s[..|s| - 1]) + s[|s| - 1]
  }

  /** Total number of scenes in the story (the progress denominator). */
  function Total(sizes: seq<nat>): nat
  {
    Sum(sizes)
  }

  /** Adding one more chapter to a prefix adds its scene count. */
  lemma PrefixStep(s: seq<nat>, i: nat)
    requires i < |s|
    ensures Sum(s[..i + 1]) == Sum(s[..i]) + s[i]
  {
    assert s[..i + 1][..i] == s[..i];
  }

  /** Between two chapter boundaries there is at least one scene per chapter. */
  lemma {:induction false} PrefixGap(sizes: seq<nat>, i: nat, j: nat)
    requires WellFormed(sizes)
    requires i <= j <= |sizes|
    ensures Sum(sizes[..i]) + (j - i) <= Sum(sizes[..j])
  {
    if i < j {
      PrefixGap(sizes, i, j - 1);
      PrefixStep(sizes, j - 1);
    }
  }

  /** The full prefix is the whole story. */
  lemma PrefixAll(sizes: seq<nat>)
    ensures Sum(sizes[..|sizes|]) == Total(sizes)
  {
    assert sizes[..|sizes|] == sizes;
  }

  /** The progress numerator: the scenes of all earlier chapters, plus the
      scenes up to and including the current one. */
  function Progress(sizes: seq<nat>, p: Position): (n: nat)
    requires WellFormed(sizes) && InRange(sizes, p)
    ensures 1 <= n <= Total(sizes)
  {
    PrefixStep(sizes, p.chapter);
    PrefixGap(sizes, p.chapter + 1, |sizes|);
    PrefixAll(sizes);
    Sum(sizes[..p.chapter]) + p.scene + 1
  }

  /** The "next" transition: one scene forward; at the end of a chapter, the
      first scene of the following chapter; at the end of the story, no move. */
  function Next(sizes: seq<nat>, p: Position): (q: Position)
    requires WellFormed(sizes) && InRange(sizes, p)
    ensures InRange(sizes, q)
  {
    if p.scene < sizes[p.chapter] - 1 || p.chapter < |sizes| - 1 then
      if p.scene < sizes[p.chapter] - 1 then Position(p.chapter, p.scene + 1)
      else Position(p.chapter + 1, 0)
    else p
  }

  /** The "previous" transition: one scene back; at the start of a chapter, the
      last scene of the preceding chapter; at the start of the story, no move. */
  function Prev(sizes: seq<nat>, p: Position): (q: Position)
    requires WellFormed(sizes) && InRange(sizes, p)
    ensures InRange(sizes, q)
  {
    if p.scene > 0 || p.chapter > 0 then
      if p.scene > 0 then Position(p.chapter, p.scene - 1)
      else Position(p.chapter - 1, sizes[p.chapter - 1] - 1)
    else p
  }

  /** Reference definition: the position whose progress numerator is k, found
      by locating the chapter whose scene range contains k. */
  function PositionAt(sizes: seq<nat>, k: int): (p: Position)
    requires WellFormed(sizes) && 1 <= k <= Total(sizes)
    ensures InRange(sizes, p) && Progress(sizes, p) == k
    decreases |sizes|
  {
    var n := |sizes| - 1;
    PrefixAll(sizes);
    PrefixStep(sizes, n);
    var before := Sum(sizes[..n]);
    if k > before then
      Position(n, k - before - 1)
    else
      var shorter := sizes[..n];
      assert n > 0;
      var q := PositionAt(shorter, k);
      assert shorter[..q.chapter] == sizes[..q.chapter];
      q
  }

  /** The start of the story is a valid position and shows progress 1 of Total. */
  lemma StartPosition(sizes: seq<nat>)
    requires WellFormed(sizes)
    ensures InRange(sizes, Start()) && Progress(sizes, Start()) == 1
  {
  }

  /** Progress is 1 exactly at the start of the story. */
  lemma ProgressAtStart(sizes: seq<nat>, p: Position)
    requires WellFormed(sizes) && InRange(sizes, p)
    ensures Progress(sizes, p) == 1 <==> p == Start()
  {
  }

  /** Progress equals Total exactly at the last scene of the last chapter. */
  lemma ProgressAtEnd(sizes: seq<nat>, p: Position)
    requires WellFormed(sizes) && InRange(sizes, p)
    ensures Progress(sizes, p) == Total(sizes) <==> AtEnd(sizes, p)
  {
    PrefixStep(sizes, p.chapter);
    PrefixGap(sizes, p.chapter + 1, |sizes|);
    PrefixAll(sizes);
  }

  /** Distinct valid positions show distinct progress numerators. */
  lemma ProgressInjective(sizes: seq<nat>, p: Position, q: Position)
    requires WellFormed(sizes) && InRange(sizes, p) && InRange(sizes, q)
    requires Progress(sizes, p) == Progress(sizes, q)
    ensures p == q
  {
    if p.chapter < q.chapter {
      PrefixStep(sizes, p.chapter);
      PrefixGap(sizes, p.chapter + 1, q.chapter);
      assert false;
    } else if q.chapter < p.chapter {
      PrefixStep(sizes, q.chapter);
      PrefixGap(sizes, q.chapter + 1, p.chapter);
      assert false;
    }
  }

  /** Every valid position is the reference position for its own progress. */
  lemma PositionAtProgress(sizes: seq<nat>, p: Position)
    requires WellFormed(sizes) && InRange(sizes, p)
    ensures PositionAt(sizes, Progress(sizes, p)) == p
  {
    ProgressInjective(sizes, p, PositionAt(sizes, Progress(sizes, p)));
  }

  /** "next" is a no-op at the end of the story and otherwise moves progress
      forward by exactly one. */
  lemma NextProgress(sizes: seq<nat>, p: Position)
    requires WellFormed(sizes) && InRange(sizes, p)
    ensures AtEnd(sizes, p) ==> Next(sizes, p) == p
    ensures !AtEnd(sizes, p) ==> Progress(sizes, Next(sizes, p)) == Progress(sizes, p) + 1
  {
    if !AtEnd(sizes, p) && p.scene == sizes[p.chapter] - 1 {
      PrefixStep(sizes, p.chapter);
    }
  }

  /** "previous" is a no-op at the start of the story and otherwise moves
      progress back by exactly one. */
  lemma PrevProgress(sizes: seq<nat>, p: Position)
    requires WellFormed(sizes) && InRange(sizes, p)
    ensures p == Start() ==> Prev(sizes, p) == p
    ensures p != Start() ==> Progress(sizes, Prev(sizes, p)) + 1 == Progress(sizes, p)
  {
    if p.scene == 0 && p.chapter > 0 {
      PrefixStep(sizes, p.chapter - 1);
    }
  }

  /** Away from the end, "next" lands on the position one scene further on in
      reading order, as given by the reference definition. */
  lemma NextIsFollowingScene(sizes: seq<nat>, p: Position)
    requires WellFormed(sizes) && InRange(sizes, p) && !AtEnd(sizes, p)
    ensures Progress(sizes, p) < Total(sizes)
    ensures Next(sizes, p) == PositionAt(sizes, Progress(sizes, p) + 1)
  {
    NextProgress(sizes, p);
    PositionAtProgress(sizes, Next(sizes, p));
  }

  /** Away from the start, "previous" lands on the position one scene earlier
      in reading order, as given by the reference definition. */
  lemma PrevIsPrecedingScene(sizes: seq<nat>, p: Position)
    requires WellFormed(sizes) && InRange(sizes, p) && p != Start()
    ensures Progress(sizes, p) > 1
    ensures Prev(sizes, p) == PositionAt(sizes, Progress(sizes, p) - 1)
  {
    PrevProgress(sizes, p);
    PositionAtProgress(sizes, Prev(sizes, p));
  }

  /** "previous" undoes "next", except at the end of the story. */
  lemma PrevAfterNext(sizes: seq<nat>, p: Position)
    requires WellFormed(sizes) && InRange(sizes, p) && !AtEnd(sizes, p)
    ensures Prev(sizes, Next(sizes, p)) == p
  {
  }

  /** "next" undoes "previous", except at the start of the story. */
  lemma NextAfterPrev(sizes: seq<nat>, p: Position)
    requires WellFormed(sizes) && InRange(sizes, p) && p != Start()
    ensures Next(sizes, Prev(sizes, p)) == p
  {
  }
}
