/** The icon-hunting game of src/views/games/DesktopRanger.tsx: an icon
    jumps around a desktop and the player must click it only when it is
    the target, the folder. A hit is a point, a miss costs a point down to
    0. A one-second timer counts 15 seconds down and then ends the game
    with twenty times the score. The icon each move picks with
    `Math.random` is an input here; its screen position is layout only. */
module DesktopRanger {
  import opened Wrappers

  /** The three desktop icons, in the order of the `icons` array. */
  datatype Icon = Folder | Trash | File

  /** The initial `timeLeft`, in seconds. */
  const Duration: int := 15

  datatype State = State(target: Icon, score: int, timeLeft: int, currentIcon: Icon)

  /** What one timer tick does: the next state and the score passed to
      `onEnd`, if it is called. */
  datatype Outcome = Outcome(next: State, ended: Option<int>)

  /** The target is the folder (`setTarget` is never called), the score is
      never negative and the clock stays between 0 and 15. */
  predicate Valid(s: State)
  {
    s.target == Folder && s.score >= 0 && 0 <= s.timeLeft <= Duration
  }

  /** On mount the first icon, the folder, is shown. */
  function Start(): (s: State)
    ensures Valid(s)
    ensures s.target == Folder && s.score == 0 && s.timeLeft == Duration && s.currentIcon == Folder
  {
    State(Folder, 0, Duration, Folder)
  }

  /** `handleClick()` followed by its `moveIcon()`, which shows `icon`. */
  function Click(s: State, icon: Icon): (t: State)
    ensures s.currentIcon == s.target ==> t.score == s.score + 1
    ensures s.currentIcon != s.target ==> t.score == if s.score > 0 then s.score - 1 else 0
    ensures s.score >= 0 ==> t.score >= 0
    ensures t.target == s.target && t.timeLeft == s.timeLeft && t.currentIcon == icon
  {
    var score := if s.currentIcon == s.target then s.score + 1
      else if 0 > s.score - 1 then 0 else s.score - 1;
    s.(score := score, currentIcon := icon)
  }

  /** One interval callback: the `setTimeLeft` updater, then `moveIcon()`
      showing `icon`. */
  function Tick(s: State, icon: Icon): (o: Outcome)
    ensures s.timeLeft <= 1 ==> o.next.timeLeft == 0 && o.ended == Some(s.score * 20)
    ensures s.timeLeft > 1 ==> o.next.timeLeft == s.timeLeft - 1 && o.ended.None?
    ensures o.next.target == s.target && o.next.score == s.score && o.next.currentIcon == icon
    ensures s.score >= 0 && o.ended.Some? ==> o.ended.value >= 0
  {
    if s.timeLeft <= 1 then Outcome(s.(timeLeft := 0, currentIcon := icon), Some(s.score * 20))
    else Outcome(s.(timeLeft := s.timeLeft - 1, currentIcon := icon), None)
  }

  // ---------------------------------------------------------------------
  // Whole games

  /** What can happen to the component: the player clicks the icon, or the
      interval fires; either way the icon then moves to `icon`. */
  datatype Event = ClickEvent(icon: Icon) | TickEvent(icon: Icon)

  /** The state after a sequence of events and every `onEnd` score passed
      along the way. */
  datatype Trace = Trace(state: State, ends: seq<int>)

  function Next(t: Trace, e: Event): Trace
  {
    match e
    case ClickEvent(icon) => Trace(Click(t.state, icon), t.ends)
    case TickEvent(icon) =>
      var o := Tick(t.state, icon);
      Trace(o.next, t.ends + (if o.ended.Some? then [o.ended.value] else []))
  }

  function Play(s: State, es: seq<Event>): Trace
  {
    if es == [] then Trace(s, []) else Next(Play(s, es[..|es| - 1]), es[|es| - 1])
  }

  function Ticks(es: seq<Event>): (n: nat)
    ensures n <= |es|
  {
    if es == [] then 0 else Ticks(es[..|es| - 1]) + (if es[|es| - 1].TickEvent? then 1 else 0)
  }

  function Clicks(es: seq<Event>): (n: nat)
    ensures n <= |es|
  {
    if es == [] then 0 else Clicks(es[..|es| - 1]) + (if es[|es| - 1].ClickEvent? then 1 else 0)
  }

  /** Whatever happens, the target stays the folder, the score stays
      between 0 and the number of clicks, the clock reads 15 less the ticks
      (never below 0), and the game has ended once per tick after the
      fourteenth, each time with a non-negative score. */
  lemma {:induction false} GameInvariant(es: seq<Event>)
    ensures var t := Play(Start(), es);
      Valid(t.state) &&
      t.state.score <= Clicks(es) &&
      t.state.timeLeft == (if Ticks(es) < Duration then Duration - Ticks(es) else 0) &&
      |t.ends| == (if Ticks(es) < Duration then 0 else Ticks(es) - (Duration - 1)) &&
      forall k :: 0 <= k < |t.ends| ==> 0 <= t.ends[k] <= 20 * Clicks(es)
  {
    if es != [] {
      GameInvariant(es[..|es| - 1]);
    }
  }

  // ---------------------------------------------------------------------
  // The component

  class Session {
    var target: Icon
    var score: int
    var timeLeft: int
    var currentIcon: Icon

    function Snapshot(): State
      reads this
    {
      State(target, score, timeLeft, currentIcon)
    }

    constructor ()
      ensures Snapshot() == Start()
    {
      target, score, timeLeft, currentIcon := Folder, 0, Duration, Folder;
    }

    /** `moveIcon()`; `icon` is the random pick. */
    method MoveIcon(icon: Icon)
      modifies this
      ensures Snapshot() == old(Snapshot()).(currentIcon := icon)
    {
      currentIcon := icon;
    }

    /** `handleClick()`; `icon` is where the icon moves next. */
    method HandleClick(icon: Icon)
      modifies this
      ensures Snapshot() == Click(old(Snapshot()), icon)
    {
      if currentIcon == target {
        score := score + 1;
      } else {
        score := if 0 > score - 1 then 0 else score - 1;
      }
      MoveIcon(icon);
    }

    /** The interval callback; `icon` is where the icon moves next and the
        result is the score passed to `onEnd`, if it is called. */
    method OnTick(icon: Icon) returns (ended: Option<int>)
      modifies this
      ensures Outcome(Snapshot(), ended) == Tick(old(Snapshot()), icon)
    {
      ended := None;
      if timeLeft <= 1 {
        ended := Some(score * 20);
        timeLeft := 0;
      } else {
        timeLeft := timeLeft - 1;
      }
      MoveIcon(icon);
    }
  }
}
