/**
 * The page's navigation controller: the two session-state indices and the
 * "previous" / "next" buttons that update them in place. A button press is a
 * call of Retreat or Advance; the rerun that follows reads the new state.
 */
module Navigation {
  import opened Story

  class Navigator {
    /** Per-chapter scene counts of the story table (read-only). */
    const sizes: seq<nat>
    /** Session state: current chapter index. */
    var chapter: int
    /** Session state: current scene index within the chapter. */
    var scene: int

    /** The indices address an existing scene, so the table lookups of the
        current chapter and scene are in range. */
    ghost predicate Valid()
      reads this
    {
      WellFormed(sizes) && InRange(sizes, Position(chapter, scene))
    }

    /** The current position as a value. */
    function At(): Position
      reads this
    {
      Position(chapter, scene)
    }

    /** A fresh session starts at the first scene of the first chapter. */
    constructor (sizes: seq<nat>)
      requires WellFormed(sizes)
      ensures Valid() && this.sizes == sizes
      ensures At() == Start() && Progress(sizes, At()) == 1
    {
      this.sizes := sizes;
      chapter := 0;
      scene := 0;
    }

    /** The "previous" button. */
    method Retreat()
      requires Valid()
      modifies this
      ensures Valid()
      ensures At() == Prev(sizes, old(At()))
      ensures old(At()) == Start() ==> At() == old(At())
      ensures old(At()) != Start() ==> Progress(sizes, At()) + 1 == Progress(sizes, old(At()))
    {
      PrevProgress(sizes, At());
      if scene > 0 || chapter > 0 {
        if scene > 0 {
          scene := scene - 1;
        } else {
          chapter := chapter - 1;
          scene := sizes[chapter] - 1;
        }
      }
    }

    /** The "next" button. */
    method Advance()
      requires Valid()
      modifies this
      ensures Valid()
      ensures At() == Next(sizes, old(At()))
      ensures AtEnd(sizes, old(At())) ==> At() == old(At())
      ensures !AtEnd(sizes, old(At())) ==> Progress(sizes, At()) == Progress(sizes, old(At())) + 1
    {
      NextProgress(sizes, At());
      if scene < sizes[chapter] - 1 || chapter < |sizes| - 1 {
        if scene < sizes[chapter] - 1 {
          scene := scene + 1;
        } else {
          chapter := chapter + 1;
          scene := 0;
        }
      }
    }

    /** The progress indicator's "current / total" pair. */
    method Counter() returns (current: nat, total: nat)
      requires Valid()
      ensures current == Progress(sizes, At()) && total == Total(sizes)
      ensures 1 <= current <= total
      ensures current == total <==> AtEnd(sizes, At())
    {
      ProgressAtEnd(sizes, At());
      current := Progress(sizes, At());
      total := Total(sizes);
    }
  }

  /** The story table of the page has two chapters, of two scenes and one
      scene. Walks it with the buttons, relying only on the contracts above. */
  method WalkPageStory()
  {
    var nav := new Navigator([2, 1]);
    nav.Advance();
    assert nav.At() == Position(0, 1);
    nav.Advance();
    assert nav.At() == Position(1, 0);
    var current, total := nav.Counter();
    assert current == total == 3;
    nav.Advance();
    assert nav.At() == Position(1, 0);
    nav.Retreat();
    assert nav.At() == Position(0, 1);
  }
}
