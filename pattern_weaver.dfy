/** The dot-connecting game of src/views/games/PatternWeaver.tsx: five dots
    form a star and the player must click them in order. A click on any
    other dot is a mistake; clicking the last dot ends the game with 100
    less 10 per mistake. Unlike the drag games the score is not clamped,
    so it goes negative after more than ten mistakes. */
module PatternWeaver {
  import opened Wrappers

  /** `dots.length`: the star has five dots, indexed 0 to 4. */
  const DotCount: int := 5

  datatype State = State(activeDot: int, mistakes: int)

  /** What one `handleDotClick` does: the next state and the score passed
      to `onEnd`, if it is called. */
  datatype Outcome = Outcome(next: State, ended: Option<int>)

  /** The active dot is one of the five and the mistake count is a count. */
  predicate Valid(s: State)
  {
    0 <= s.activeDot < DotCount && s.mistakes >= 0
  }

  function Start(): (s: State)
    ensures Valid(s) && s.activeDot == 0 && s.mistakes == 0
  {
    State(0, 0)
  }

  /** `100 - (mistakes * 10)`, with no lower bound. */
  function FinalScore(mistakes: int): (score: int)
    ensures mistakes >= 0 ==> score <= 100
    ensures score < 0 <==> mistakes > 10
    ensures score == 100 <==> mistakes == 0
  {
    100 - mistakes * 10
  }

  /** `handleDotClick(index)`. */
  function Click(s: State, index: int): (o: Outcome)
    requires Valid(s)
    ensures Valid(o.next)
    ensures index == s.activeDot && s.activeDot < DotCount - 1 ==>
      o.next == State(s.activeDot + 1, s.mistakes)
    ensures index == s.activeDot && s.activeDot == DotCount - 1 ==> o.next == s
    ensures index != s.activeDot ==> o.next == State(s.activeDot, s.mistakes + 1)
    ensures o.ended.Some? <==> index == s.activeDot == DotCount - 1
    ensures o.ended.Some? ==> o.ended.value == FinalScore(s.mistakes) && o.ended.value <= 100
  {
    if index == s.activeDot then
      if s.activeDot == DotCount - 1 then Outcome(s, Some(FinalScore(s.mistakes)))
      else Outcome(s.(activeDot := s.activeDot + 1), None)
    else
      Outcome(s.(mistakes := s.mistakes + 1), None)
  }

  // ---------------------------------------------------------------------
  // Whole games

  /** The state after a sequence of clicks and every `onEnd` score passed
      along the way. */
  datatype Trace = Trace(state: State, ends: seq<int>)

  function Next(t: Trace, index: int): (u: Trace)
    requires Valid(t.state)
    ensures Valid(u.state)
  {
    var o := Click(t.state, index);
    Trace(o.next, t.ends + (if o.ended.Some? then [o.ended.value] else []))
  }

  function Play(s: State, clicks: seq<int>): (t: Trace)
    requires Valid(s)
    ensures Valid(t.state)
  {
    if clicks == [] then Trace(s, []) else Next(Play(s, clicks[..|clicks| - 1]), clicks[|clicks| - 1])
  }

  lemma {:induction false} PlaySnoc(s: State, clicks: seq<int>, index: int)
    requires Valid(s)
    ensures Play(s, clicks + [index]) == Next(Play(s, clicks), index)
  {
    assert (clicks + [index])[..|clicks|] == clicks;
  }

  /** Playing `a` and then `b` is playing `b` from where `a` left off. */
  lemma {:induction false} PlayAppend(s: State, a: seq<int>, b: seq<int>)
    requires Valid(s)
    ensures var ta := Play(s, a);
      var tb := Play(ta.state, b);
      Play(s, a + b) == Trace(tb.state, ta.ends + tb.ends)
  {
    if b == [] {
      assert a + b == a;
    } else {
      var b' := b[..|b| - 1];
      var last := b[|b| - 1];
      assert a + b == (a + b') + [last];
      PlayAppend(s, a, b');
      PlaySnoc(s, a + b', last);
    }
  }

  /** Each click either advances the active dot, counts a mistake or ends
      the game: the three add up to the number of clicks, and once the game
      has ended the last dot stays active. */
  lemma {:induction false} ClicksAccounted(clicks: seq<int>)
    ensures var t := Play(Start(), clicks);
      t.state.activeDot + t.state.mistakes + |t.ends| == |clicks| &&
      (|t.ends| > 0 ==> t.state.activeDot == DotCount - 1)
  {
    if clicks != [] {
      ClicksAccounted(clicks[..|clicks| - 1]);
    }
  }

  /** A game whose first `onEnd` comes with click `n` (so after `n - 5`
      wrong clicks) scores `100 - 10 * (n - 5)`. */
  lemma {:induction false} FirstEndScore(clicks: seq<int>, index: int)
    ensures var u := Play(Start(), clicks + [index]);
      Play(Start(), clicks).ends == [] && u.ends != [] ==> u.ends == [FinalScore(|clicks| - 4)]
  {
    var t := Play(Start(), clicks);
    PlaySnoc(Start(), clicks, index);
    if t.ends == [] {
      ClicksAccounted(clicks);
      var o := Click(t.state, index);
      if o.ended.Some? {
        assert Next(t, index).ends == [o.ended.value];
      }
    }
  }

  /** Clicking `k` times on a dot that is not the active one adds `k`
      mistakes and nothing else. */
  lemma {:induction false} WrongClicks(s: State, index: int, k: nat)
    requires Valid(s) && index != s.activeDot
    ensures Play(s, seq(k, _ => index)) == Trace(State(s.activeDot, s.mistakes + k), [])
  {
    if k > 0 {
      assert seq(k, _ => index) == seq(k - 1, _ => index) + [index];
      WrongClicks(s, index, k - 1);
      PlaySnoc(s, seq(k - 1, _ => index), index);
    }
  }

  /** The final score is not clamped: eleven clicks on the wrong dot and
      then the five dots in order end the game with -10. */
  lemma {:induction false} ScoreCanBeNegative()
    ensures Play(Start(), seq(11, _ => 4) + [0, 1, 2, 3, 4]).ends == [-10]
  {
    var wrong := seq(11, _ => 4);
    WrongClicks(Start(), 4, 11);
    var s := State(0, 11);
    assert Play(Start(), wrong).state == s;
    var t1 := Next(Trace(s, []), 0);
    var t2 := Next(t1, 1);
    var t3 := Next(t2, 2);
    var t4 := Next(t3, 3);
    var t5 := Next(t4, 4);
    assert t5 == Trace(State(4, 11), [-10]);
    PlaySnoc(s, [], 0);
    assert [] + [0] == [0];
    PlaySnoc(s, [0], 1);
    assert [0] + [1] == [0, 1];
    PlaySnoc(s, [0, 1], 2);
    assert [0, 1] + [2] == [0, 1, 2];
    PlaySnoc(s, [0, 1, 2], 3);
    assert [0, 1, 2] + [3] == [0, 1, 2, 3];
    PlaySnoc(s, [0, 1, 2, 3], 4);
    assert [0, 1, 2, 3] + [4] == [0, 1, 2, 3, 4];
    PlayAppend(Start(), wrong, [0, 1, 2, 3, 4]);
  }

  // ---------------------------------------------------------------------
  // The component

  class Session {
    var activeDot: int
    var mistakes: int

    function Snapshot(): State
      reads this
    {
      State(activeDot, mistakes)
    }

    constructor ()
      ensures Snapshot() == Start()
    {
      activeDot, mistakes := 0, 0;
    }

    /** `handleDotClick(index)`; the result is the score passed to `onEnd`,
        if it is called. */
    method HandleDotClick(index: int) returns (ended: Option<int>)
      requires Valid(Snapshot())
      modifies this
      ensures Outcome(Snapshot(), ended) == Click(old(Snapshot()), index)
    {
      ended := None;
      if index == activeDot {
        if activeDot == DotCount - 1 {
          ended := Some(100 - mistakes * 10);
        } else {
          activeDot := activeDot + 1;
        }
      } else {
        mistakes := mistakes + 1;
      }
    }
  }
}
