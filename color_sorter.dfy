/** The conveyor game of src/views/games/ColorSorter.tsx: a red or blue
    item is shown and the player sorts it into a bin. A matching bin is a
    point, a wrong one costs nothing. Ten items come after the first one;
    the sort made when none is left ends the game with ten times the score
    as it stood before that sort. The colour of each next item, drawn with
    `Math.random` in the source, is an input here. */
module ColorSorter {
  import opened Wrappers

  datatype Color = Red | Blue

  /** The initial `itemsLeft`. */
  const Items: int := 10

  datatype State = State(score: int, currentItem: Color, itemsLeft: int)

  /** What one `handleSort` does: the next state and the score passed to
      `onEnd`, if it is called. */
  datatype Outcome = Outcome(next: State, ended: Option<int>)

  /** The initial `useState` values: no points, a red item, ten items left. */
  function Start(): (s: State)
    ensures s.score == 0 && s.currentItem == Red && s.itemsLeft == Items
  {
    State(0, Red, Items)
  }

  /** `handleSort(bin)` followed by its `nextItem()`. `next` is the colour
      the random draw picks. The end score reads `score` as it was when
      the handler started, because `setScore` only takes effect at the
      next render. */
  function Sort(s: State, bin: Color, next: Color): (o: Outcome)
    ensures o.next.score == s.score + (if bin == s.currentItem then 1 else 0)
    ensures s.itemsLeft > 0 ==>
      o.ended.None? && o.next.itemsLeft == s.itemsLeft - 1 && o.next.currentItem == next
    ensures s.itemsLeft <= 0 ==>
      o.ended == Some(s.score * 10) && o.next.itemsLeft == s.itemsLeft &&
      o.next.currentItem == s.currentItem
  {
    var score := if bin == s.currentItem then s.score + 1 else s.score;
    if s.itemsLeft <= 0 then Outcome(s.(score := score), Some(s.score * 10))
    else Outcome(State(score, next, s.itemsLeft - 1), None)
  }

  // ---------------------------------------------------------------------
  // Whole games

  /** One press of a bin, with the colour drawn for the next item. */
  datatype Press = Press(bin: Color, next: Color)

  /** The state after a sequence of presses and every `onEnd` score passed
      along the way. */
  datatype Trace = Trace(state: State, ends: seq<int>)

  function Next(t: Trace, p: Press): Trace
  {
    var o := Sort(t.state, p.bin, p.next);
    Trace(o.next, t.ends + (if o.ended.Some? then [o.ended.value] else []))
  }

  function Play(s: State, ps: seq<Press>): Trace
  {
    if ps == [] then Trace(s, []) else Next(Play(s, ps[..|ps| - 1]), ps[|ps| - 1])
  }

  lemma {:induction false} PlaySnoc(s: State, ps: seq<Press>, p: Press)
    ensures Play(s, ps + [p]) == Next(Play(s, ps), p)
  {
    assert (ps + [p])[..|ps|] == ps;
  }

  /** The item shown for the `i`-th press: red first, then the colour drawn
      by the press before. */
  function Shown(ps: seq<Press>, i: int): Color
    requires 0 <= i <= |ps|
  {
    if i == 0 then Red else ps[i - 1].next
  }

  /** The presses that hit the bin of the item shown. */
  function Hits(ps: seq<Press>): (n: nat)
    ensures n <= |ps|
  {
    if ps == [] then 0
    else Hits(ps[..|ps| - 1]) + (if ps[|ps| - 1].bin == Shown(ps, |ps| - 1) then 1 else 0)
  }

  /** Each press either takes an item off the conveyor or ends the game,
      the count never goes below 0, and the score counts at most one point
      per press. */
  lemma {:induction false} PressesAccounted(ps: seq<Press>)
    ensures var t := Play(Start(), ps);
      0 <= t.state.itemsLeft <= Items &&
      (Items - t.state.itemsLeft) + |t.ends| == |ps| &&
      (|t.ends| > 0 ==> t.state.itemsLeft == 0) &&
      0 <= t.state.score <= |ps|
  {
    if ps != [] {
      PressesAccounted(ps[..|ps| - 1]);
    }
  }

  /** While items are left, the score is exactly the number of hits and the
      item shown is the last colour drawn. */
  lemma {:induction false} ScoreIsHits(ps: seq<Press>)
    requires |ps| <= Items
    ensures Play(Start(), ps) == Trace(State(Hits(ps), Shown(ps, |ps|), Items - |ps|), [])
  {
    if ps != [] {
      var ps' := ps[..|ps| - 1];
      ScoreIsHits(ps');
      assert forall i :: 0 <= i <= |ps'| ==> Shown(ps', i) == Shown(ps, i);
    }
  }

  /** The first `onEnd` comes with the eleventh press and passes ten times
      the hits among the first ten presses, so it lies in [0, 100]. */
  lemma {:induction false} FirstEnd(ps: seq<Press>, p: Press)
    requires |ps| == Items
    ensures Play(Start(), ps + [p]).ends == [10 * Hits(ps)]
    ensures 0 <= 10 * Hits(ps) <= 100
  {
    ScoreIsHits(ps);
    PlaySnoc(Start(), ps, p);
  }

  /** No press before the eleventh ends the game. */
  lemma {:induction false} NoEarlyEnd(ps: seq<Press>)
    requires |ps| <= Items
    ensures Play(Start(), ps).ends == []
  {
    ScoreIsHits(ps);
  }

  // ---------------------------------------------------------------------
  // The component

  class Session {
    var score: int
    var currentItem: Color
    var itemsLeft: int

    function Snapshot(): State
      reads this
    {
      State(score, currentItem, itemsLeft)
    }

    constructor ()
      ensures Snapshot() == Start()
    {
      score, currentItem, itemsLeft := 0, Red, Items;
    }

    /** `handleSort(bin)`; `next` is the colour `Math.random` picks and the
        result is the score passed to `onEnd`, if it is called. */
    method HandleSort(bin: Color, next: Color) returns (ended: Option<int>)
      modifies this
      ensures Outcome(Snapshot(), ended) == Sort(old(Snapshot()), bin, next)
    {
      var rendered := score;
      if bin == currentItem {
        score := score + 1;
      }
      ended := NextItem(rendered, next);
    }

    /** `nextItem()`, reading the score of the current render. */
    method NextItem(rendered: int, next: Color) returns (ended: Option<int>)
      modifies this
      ensures score == old(score)
      ensures old(itemsLeft) <= 0 ==>
        ended == Some(rendered * 10) && itemsLeft == old(itemsLeft) && currentItem == old(currentItem)
      ensures old(itemsLeft) > 0 ==>
        ended.None? && itemsLeft == old(itemsLeft) - 1 && currentItem == next
    {
      if itemsLeft <= 0 {
        return Some(rendered * 10);
      }
      itemsLeft := itemsLeft - 1;
      currentItem := next;
      ended := None;
    }
  }
}
