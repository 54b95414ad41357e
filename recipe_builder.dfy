/** The cookie drag game of src/views/games/RecipeBuilder.tsx: the player
    drags pantry ingredients onto the bowl and must add them in the order
    of the recipe card. Every wrong ingredient is a mistake; the right
    last ingredient ends the game with a score of 100 less 10 per mistake,
    never below 0. */
module RecipeBuilder {
  import opened Wrappers
  import opened Js

  /** The pantry; `handleDragStart` is only ever called with one of these
      names. */
  datatype Ingredient = Flour | Sugar | Eggs | Water

  function Name(i: Ingredient): string
  {
    match i
    case Flour => "Flour"
    case Sugar => "Sugar"
    case Eggs => "Eggs"
    case Water => "Water"
  }

  /** The names are distinct, so comparing names, as the source does, is
      comparing ingredients. */
  lemma {:induction false} NamesDistinct(a: Ingredient, b: Ingredient)
    ensures Name(a) == Name(b) <==> a == b
  {
  }

  /** `RECIPE_SEQUENCE` */
  const RecipeSequence: seq<Ingredient> := [Water, Flour, Eggs, Sugar]

  /** `RECIPE_SEQUENCE.length - 1` */
  const LastStep: int := 3

  /** The component state. `added` lists the ingredients dropped into the
      bowl; the source keeps their pantry icons, which are in one-to-one
      correspondence with the names kept here. */
  datatype State = State(
    currentStep: int,
    mistakes: int,
    startTime: int,
    dragged: Option<Ingredient>,
    added: seq<Ingredient>)

  /** The arguments of `onEnd(score, time)`. */
  datatype Finish = Finish(score: int, time: int)

  /** What one `handleDrop` does: the next state and the `onEnd` call, if any. */
  datatype Outcome = Outcome(next: State, finish: Option<Finish>)

  /** The step index stays inside the recipe and the mistake count is a count. */
  predicate Valid(s: State)
  {
    0 <= s.currentStep <= LastStep && s.mistakes >= 0
  }

  /** `!draggedIngredient` is false: an ingredient is being dragged. */
  predicate Holding(s: State)
  {
    s.dragged.Some?
  }

  /** The state when the component mounts at time `now`. */
  function Start(now: int): (s: State)
    ensures Valid(s) && !Holding(s)
    ensures s.currentStep == 0 && s.mistakes == 0 && s.startTime == now && s.added == []
  {
    State(0, 0, now, None, [])
  }

  /** `handleDragStart(item)` */
  function DragStart(s: State, item: Ingredient): (t: State)
    ensures Holding(t) && t.dragged.value == item
    ensures t.(dragged := s.dragged) == s
  {
    s.(dragged := Some(item))
  }

  /** `Math.max(0, 100 - (mistakes * 10))` */
  function FinalScore(mistakes: int): (score: int)
    ensures score >= 0
    ensures mistakes >= 0 ==> score <= 100 && (score == 100 <==> mistakes == 0)
    ensures score == 0 <==> mistakes >= 10
  {
    if 100 - mistakes * 10 > 0 then 100 - mistakes * 10 else 0
  }

  /** `handleDrop` at time `now`. */
  function Drop(s: State, now: int): (o: Outcome)
    requires Valid(s)
    ensures Valid(o.next)
    ensures !Holding(s) ==> o == Outcome(s, None)
    ensures o.next.startTime == s.startTime
    ensures Holding(s) ==> o.next.dragged == None
    ensures Holding(s) && s.dragged.value == RecipeSequence[s.currentStep] ==>
      o.next.added == s.added + [s.dragged.value] && o.next.mistakes == s.mistakes &&
      o.next.currentStep == (if s.currentStep == LastStep then LastStep else s.currentStep + 1)
    ensures Holding(s) && s.dragged.value != RecipeSequence[s.currentStep] ==>
      o.next.added == s.added && o.next.mistakes == s.mistakes + 1 &&
      o.next.currentStep == s.currentStep
    ensures o.finish.Some? <==>
      Holding(s) && s.currentStep == LastStep && s.dragged.value == RecipeSequence[LastStep]
    ensures o.finish.Some? ==>
      o.finish.value.score == FinalScore(s.mistakes) && 0 <= o.finish.value.score <= 100
    ensures o.finish.Some? ==>
      2000 * o.finish.value.time - 1000 <= 2 * (now - s.startTime) < 2000 * o.finish.value.time + 1000
    ensures o.finish.Some? && now >= s.startTime ==> o.finish.value.time >= 0
  {
    if !Holding(s) then Outcome(s, None)
    else
      var item := s.dragged.value;
      if item == RecipeSequence[s.currentStep] then
        var added := s.added + [item];
        if s.currentStep == LastStep then
          var finish := Finish(FinalScore(s.mistakes), Round(now - s.startTime, 1000));
          Outcome(s.(added := added, dragged := None), Some(finish))
        else
          Outcome(s.(added := added, currentStep := s.currentStep + 1, dragged := None), None)
      else
        Outcome(s.(mistakes := s.mistakes + 1, dragged := None), None)
  }

  // ---------------------------------------------------------------------
  // Whole games

  /** One gesture of the player: drag `item` from the pantry and drop it on
      the bowl at time `now`. */
  datatype Gesture = Gesture(item: Ingredient, now: int)

  /** The state after a sequence of gestures and every `onEnd` call made
      along the way. */
  datatype Trace = Trace(state: State, finishes: seq<Finish>)

  /** One more gesture. */
  function Next(t: Trace, g: Gesture): (u: Trace)
    requires Valid(t.state)
    ensures Valid(u.state) && u.state.startTime == t.state.startTime
  {
    var o := Drop(DragStart(t.state, g.item), g.now);
    Trace(o.next, t.finishes + (if o.finish.Some? then [o.finish.value] else []))
  }

  function Play(s: State, gs: seq<Gesture>): (t: Trace)
    requires Valid(s)
    ensures Valid(t.state) && t.state.startTime == s.startTime
  {
    if gs == [] then Trace(s, []) else Next(Play(s, gs[..|gs| - 1]), gs[|gs| - 1])
  }

  lemma {:induction false} PlaySnoc(s: State, gs: seq<Gesture>, g: Gesture)
    requires Valid(s)
    ensures Play(s, gs + [g]) == Next(Play(s, gs), g)
  {
    assert (gs + [g])[..|gs|] == gs;
  }

  /** Each gesture either advances a step, counts a mistake or finishes the
      game: the three add up to the number of gestures. */
  lemma {:induction false} GesturesAccounted(now: int, gs: seq<Gesture>)
    ensures var t := Play(Start(now), gs);
      t.state.currentStep + t.state.mistakes + |t.finishes| == |gs|
  {
    if gs != [] {
      GesturesAccounted(now, gs[..|gs| - 1]);
    }
  }

  /** The bowl holds the ingredients in recipe order: one per correct drop,
      i.e. the steps done plus one Sugar per finishing drop. */
  lemma {:induction false} BowlInRecipeOrder(now: int, gs: seq<Gesture>)
    ensures var t := Play(Start(now), gs);
      |t.state.added| == t.state.currentStep + |t.finishes| &&
      (|t.finishes| > 0 ==> t.state.currentStep == LastStep) &&
      forall i :: 0 <= i < |t.state.added| ==>
        t.state.added[i] == RecipeSequence[if i < LastStep then i else LastStep]
  {
    if gs != [] {
      BowlInRecipeOrder(now, gs[..|gs| - 1]);
    }
  }

  /** A game whose first `onEnd` comes with gesture `n` (so after `n - 4`
      wrong drops) scores `max(0, 100 - 10 * (n - 4))`. */
  lemma {:induction false} FirstFinishScore(now: int, gs: seq<Gesture>, g: Gesture)
    ensures var u := Play(Start(now), gs + [g]);
      Play(Start(now), gs).finishes == [] && u.finishes != [] ==> u.finishes == [Finish(FinalScore(|gs| - 3), Round(g.now - now, 1000))]
  {
    var s0 := Start(now);
    var t := Play(s0, gs);
    assert t.state.startTime == now;
    PlaySnoc(s0, gs, g);
    GesturesAccounted(now, gs);
    FinishingGesture(t, g, |gs|);
  }

  /** One gesture after `n` that did not finish the game: if it finishes,
      it scores `FinalScore(n - 3)`. */
  lemma {:induction false} FinishingGesture(t: Trace, g: Gesture, n: int)
    requires Valid(t.state)
    requires t.state.currentStep + t.state.mistakes + |t.finishes| == n
    ensures t.finishes == [] && Next(t, g).finishes != [] ==>
      Next(t, g).finishes == [Finish(FinalScore(n - 3), Round(g.now - t.state.startTime, 1000))]
  {
    if t.finishes == [] {
      var o := Drop(DragStart(t.state, g.item), g.now);
      if o.finish.Some? {
        assert t.state.mistakes == n - 3;
        assert Next(t, g).finishes == [o.finish.value];
      }
    }
  }

  /** A perfect game: the four ingredients in order score 100. */
  lemma {:induction false} PerfectGame(now: int)
    ensures var gs := [Gesture(Water, now), Gesture(Flour, now), Gesture(Eggs, now), Gesture(Sugar, now + 2500)];
      Play(Start(now), gs).finishes == [Finish(100, 3)]
  {
    var g0, g1, g2, g3 := Gesture(Water, now), Gesture(Flour, now), Gesture(Eggs, now), Gesture(Sugar, now + 2500);
    var s0 := Start(now);
    var t1 := Next(Trace(s0, []), g0);
    assert t1 == Trace(State(1, 0, now, None, [Water]), []);
    var t2 := Next(t1, g1);
    assert t2 == Trace(State(2, 0, now, None, [Water, Flour]), []);
    var t3 := Next(t2, g2);
    assert t3 == Trace(State(3, 0, now, None, [Water, Flour, Eggs]), []);
    var t4 := Next(t3, g3);
    assert Round(2500, 1000) == 3;
    assert t4.finishes == [Finish(100, 3)];
    PlaySnoc(s0, [], g0);
    assert [] + [g0] == [g0];
    PlaySnoc(s0, [g0], g1);
    assert [g0] + [g1] == [g0, g1];
    PlaySnoc(s0, [g0, g1], g2);
    assert [g0, g1] + [g2] == [g0, g1, g2];
    PlaySnoc(s0, [g0, g1, g2], g3);
    assert [g0, g1, g2] + [g3] == [g0, g1, g2, g3];
  }

  // ---------------------------------------------------------------------
  // The component

  class Session {
    var currentStep: int
    var mistakes: int
    var startTime: int
    var dragged: Option<Ingredient>
    var added: seq<Ingredient>

    function Snapshot(): State
      reads this
    {
      State(currentStep, mistakes, startTime, dragged, added)
    }

    constructor (now: int)
      ensures Snapshot() == Start(now)
    {
      currentStep, mistakes, startTime := 0, 0, now;
      dragged, added := None, [];
    }

    method HandleDragStart(item: Ingredient)
      modifies this
      ensures Snapshot() == DragStart(old(Snapshot()), item)
    {
      dragged := Some(item);
    }

    /** `handleDrop`; `now` is `Date.now()` and the result is the `onEnd`
        call it makes, if any. */
    method HandleDrop(now: int) returns (finish: Option<Finish>)
      requires Valid(Snapshot())
      modifies this
      ensures Outcome(Snapshot(), finish) == Drop(old(Snapshot()), now)
    {
      finish := None;
      if dragged.None? {
        return;
      }
      var required := RecipeSequence[currentStep];
      if dragged.value == required {
        added := added + [dragged.value];
        if currentStep == |RecipeSequence| - 1 {
          var timeTaken := Round(now - startTime, 1000);
          var finalScore := FinalScore(mistakes);
          finish := Some(Finish(finalScore, timeTaken));
        } else {
          currentStep := currentStep + 1;
        }
      } else {
        mistakes := mistakes + 1;
      }
      dragged := None;
    }
  }
}
