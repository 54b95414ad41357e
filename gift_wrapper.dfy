/** The gift-wrapping drag game of src/views/games/GiftWrapper.tsx: the
    player drags packing items onto the box and must use them in a fixed
    order. Every wrong item is a mistake; the right last item ends the
    game with a score of 100 less 10 per mistake, never below 0. */
module GiftWrapper {
  import opened Wrappers
  import opened Js

  /** The packing station; `handleDragStart` is only ever called with one
      of these names. */
  datatype Item = Paper | Tape | Bow | Label

  function Name(i: Item): string
  {
    match i
    case Paper => "Paper"
    case Tape => "Tape"
    case Bow => "Bow"
    case Label => "Label"
  }

  /** The names are distinct, so comparing names, as the source does, is
      comparing items. */
  lemma {:induction false} NamesDistinct(a: Item, b: Item)
    ensures Name(a) == Name(b) <==> a == b
  {
  }

  /** `SEQUENCE` */
  const Sequence: seq<Item> := [Paper, Tape, Bow, Label]

  /** `SEQUENCE.length - 1` */
  const LastStep: int := 3

  /** The component state. */
  datatype State = State(currentStep: int, mistakes: int, startTime: int, dragged: Option<Item>)

  /** The arguments of `onEnd(score, time)`. */
  datatype Finish = Finish(score: int, time: int)

  /** What one `handleDrop` does: the next state and the `onEnd` call, if any. */
  datatype Outcome = Outcome(next: State, finish: Option<Finish>)

  /** The step index stays inside `SEQUENCE` and the mistake count is a count. */
  predicate Valid(s: State)
  {
    0 <= s.currentStep <= LastStep && s.mistakes >= 0
  }

  /** The state when the component mounts at time `now`. */
  function Start(now: int): (s: State)
    ensures Valid(s) && s.dragged.None?
    ensures s.currentStep == 0 && s.mistakes == 0 && s.startTime == now
  {
    State(0, 0, now, None)
  }

  /** `handleDragStart(item)` */
  function DragStart(s: State, item: Item): (t: State)
    ensures t.dragged == Some(item)
    ensures t.(dragged := s.dragged) == s
  {
    s.(dragged := Some(item))
  }

  /** `Math.max(0, 100 - (mistakes * 10))`, the 10-point penalty. */
  function FinalScore(mistakes: int): (score: int)
    ensures score >= 0
    ensures mistakes >= 0 ==> score <= 100 && (score == 100 <==> mistakes == 0)
    ensures score == 0 <==> mistakes >= 10
  {
    if 100 - mistakes * 10 > 0 then 100 - mistakes * 10 else 0
  }

  /** `handleDrop` at time `now`. */
  function Drop(s: State, now: int): (o: Outcome)
    requires Valid(s)
    ensures Valid(o.next)
    ensures o.next.startTime == s.startTime
    ensures s.dragged.None? ==> o == Outcome(s, None)
    ensures s.dragged.Some? ==> o.next.dragged == None
    ensures s.dragged.Some? && s.dragged.value == Sequence[s.currentStep] ==>
      o.next.mistakes == s.mistakes &&
      o.next.currentStep == (if s.currentStep == LastStep then LastStep else s.currentStep + 1)
    ensures s.dragged.Some? && s.dragged.value != Sequence[s.currentStep] ==>
      o.next.mistakes == s.mistakes + 1 && o.next.currentStep == s.currentStep
    ensures o.finish.Some? <==>
      s.dragged == Some(Sequence[LastStep]) && s.currentStep == LastStep
    ensures o.finish.Some? ==>
      o.finish.value.score == FinalScore(s.mistakes) && 0 <= o.finish.value.score <= 100
    ensures o.finish.Some? ==>
      2000 * o.finish.value.time - 1000 <= 2 * (now - s.startTime) < 2000 * o.finish.value.time + 1000
    ensures o.finish.Some? && now >= s.startTime ==> o.finish.value.time >= 0
  {
    match s.dragged
    case None => Outcome(s, None)
    case Some(item) =>
      if item == Sequence[s.currentStep] then
        if s.currentStep == LastStep then
          var finish := Finish(FinalScore(s.mistakes), Round(now - s.startTime, 1000));
          Outcome(s.(dragged := None), Some(finish))
        else
          Outcome(s.(currentStep := s.currentStep + 1, dragged := None), None)
      else
        Outcome(s.(mistakes := s.mistakes + 1, dragged := None), None)
  }

  // ---------------------------------------------------------------------
  // Whole games

  /** One gesture of the player: drag `item` to the box and drop it at
      time `now`. */
  datatype Gesture = Gesture(item: Item, now: int)

  /** The state after a sequence of gestures and every `onEnd` call made
      along the way. */
  datatype Trace = Trace(state: State, finishes: seq<Finish>)

  /** One more gesture. */
  function Next(t: Trace, g: Gesture): (u: Trace)
    requires Valid(t.state)
    ensures Valid(u.state) && u.state.startTime == t.state.startTime
  {
    var o := Drop(DragStart(t.state, g.item), g.now);
    Trace(o.next, t.finishes + (if o.finish.Some? then [o.finish.value] else []))
  }

  function Play(s: State, gs: seq<Gesture>): (t: Trace)
    requires Valid(s)
    ensures Valid(t.state) && t.state.startTime == s.startTime
  {
    if gs == [] then Trace(s, []) else Next(Play(s, gs[..|gs| - 1]), gs[|gs| - 1])
  }

  lemma {:induction false} PlaySnoc(s: State, gs: seq<Gesture>, g: Gesture)
    requires Valid(s)
    ensures Play(s, gs + [g]) == Next(Play(s, gs), g)
  {
    assert (gs + [g])[..|gs|] == gs;
  }

  /** Each gesture either advances a step, counts a mistake or finishes the
      game: the three add up to the number of gestures, and once the game
      has finished the step stays on the last item. */
  lemma {:induction false} GesturesAccounted(now: int, gs: seq<Gesture>)
    ensures var t := Play(Start(now), gs);
      t.state.currentStep + t.state.mistakes + |t.finishes| == |gs| &&
      (|t.finishes| > 0 ==> t.state.currentStep == LastStep)
  {
    if gs != [] {
      GesturesAccounted(now, gs[..|gs| - 1]);
    }
  }

  /** A game whose first `onEnd` comes with gesture `n` (so after `n - 4`
      wrong drops) scores `max(0, 100 - 10 * (n - 4))`. */
  lemma {:induction false} FirstFinishScore(now: int, gs: seq<Gesture>, g: Gesture)
    ensures var u := Play(Start(now), gs + [g]);
      Play(Start(now), gs).finishes == [] && u.finishes != [] ==> u.finishes == [Finish(FinalScore(|gs| - 3), Round(g.now - now, 1000))]
  {
    var s0 := Start(now);
    var t := Play(s0, gs);
    assert t.state.startTime == now;
    PlaySnoc(s0, gs, g);
    GesturesAccounted(now, gs);
    FinishingGesture(t, g, |gs|);
  }

  /** One gesture after `n` that did not finish the game: if it finishes,
      it scores `FinalScore(n - 3)`. */
  lemma {:induction false} FinishingGesture(t: Trace, g: Gesture, n: int)
    requires Valid(t.state)
    requires t.state.currentStep + t.state.mistakes + |t.finishes| == n
    ensures t.finishes == [] && Next(t, g).finishes != [] ==>
      Next(t, g).finishes == [Finish(FinalScore(n - 3), Round(g.now - t.state.startTime, 1000))]
  {
    if t.finishes == [] {
      var o := Drop(DragStart(t.state, g.item), g.now);
      if o.finish.Some? {
        assert t.state.mistakes == n - 3;
        assert Next(t, g).finishes == [o.finish.value];
      }
    }
  }

  /** One misplaced item costs 10 points: Paper, Bow (wrong), Tape, Bow,
      Label finishes with 90. */
  lemma {:induction false} OneMistakeGame(now: int)
    ensures var gs := [Gesture(Paper, now), Gesture(Bow, now), Gesture(Tape, now), Gesture(Bow, now), Gesture(Label, now)];
      Play(Start(now), gs).finishes == [Finish(90, 0)]
  {
    var g0, g1, g2, g3, g4 := Gesture(Paper, now), Gesture(Bow, now), Gesture(Tape, now), Gesture(Bow, now), Gesture(Label, now);
    var s0 := Start(now);
    var t1 := Next(Trace(s0, []), g0);
    assert t1 == Trace(State(1, 0, now, None), []);
    var t2 := Next(t1, g1);
    assert t2 == Trace(State(1, 1, now, None), []);
    var t3 := Next(t2, g2);
    assert t3 == Trace(State(2, 1, now, None), []);
    var t4 := Next(t3, g3);
    assert t4 == Trace(State(3, 1, now, None), []);
    var t5 := Next(t4, g4);
    assert Round(0, 1000) == 0;
    assert t5.finishes == [Finish(90, 0)];
    PlaySnoc(s0, [], g0);
    assert [] + [g0] == [g0];
    PlaySnoc(s0, [g0], g1);
    assert [g0] + [g1] == [g0, g1];
    PlaySnoc(s0, [g0, g1], g2);
    assert [g0, g1] + [g2] == [g0, g1, g2];
    PlaySnoc(s0, [g0, g1, g2], g3);
    assert [g0, g1, g2] + [g3] == [g0, g1, g2, g3];
    PlaySnoc(s0, [g0, g1, g2, g3], g4);
    assert [g0, g1, g2, g3] + [g4] == [g0, g1, g2, g3, g4];
  }

  // ---------------------------------------------------------------------
  // The component

  class Session {
    var currentStep: int
    var mistakes: int
    var startTime: int
    var dragged: Option<Item>

    function Snapshot(): State
      reads this
    {
      State(currentStep, mistakes, startTime, dragged)
    }

    constructor (now: int)
      ensures Snapshot() == Start(now)
    {
      currentStep, mistakes, startTime, dragged := 0, 0, now, None;
    }

    method HandleDragStart(item: Item)
      modifies this
      ensures Snapshot() == DragStart(old(Snapshot()), item)
    {
      dragged := Some(item);
    }

    /** `handleDrop`; `now` is `Date.now()` and the result is the `onEnd`
        call it makes, if any. */
    method HandleDrop(now: int) returns (finish: Option<Finish>)
      requires Valid(Snapshot())
      modifies this
      ensures Outcome(Snapshot(), finish) == Drop(old(Snapshot()), now)
    {
      finish := None;
      if dragged.None? {
        return;
      }
      var required := Sequence[currentStep];
      if dragged.value == required {
        if currentStep == |Sequence| - 1 {
          var timeTaken := Round(now - startTime, 1000);
          var finalScore := FinalScore(mistakes);
          finish := Some(Finish(finalScore, timeTaken));
        } else {
          currentStep := currentStep + 1;
        }
      } else {
        mistakes := mistakes + 1;
      }
      dragged := None;
    }
  }
}
