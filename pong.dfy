/**
  A two-player Pong game on a 612 x 512 canvas.

  The game state is eight numbers: the top edges `a1`, `a2` of the two
  paddles, the ball position (`bouleX`, `bouleY`), the ball velocity
  (`plusX`, `plusY`) in pixels per timer tick, and the two score counters.
  Two kinds of event change it: a key press (player 1 moves with "z"/"s",
  player 2 with "Up"/"Down") and a firing of the 50 ms timer, which moves the
  ball one step and resolves walls, goals and paddles.

  The transitions are given twice: as pure functions on a `State` value
  (`KeyStep`, `TickStep`), which the lemmas reason about, and as the methods
  `Game.Key` and `Game.Tick`, which update the fields of a `Game` object one
  assignment at a time, in the order the game does, and are proved to end
  in the state the functions specify.
*/
module Pong {

  // ---------------------------------------------------------------------------
  // Constants of the game
  // ---------------------------------------------------------------------------

  /** How far one key press moves a paddle. */
  const PaddleStep: int := 25
  /** A paddle may move down only while its new top stays at or above this line. */
  const PaddleLowest: int := 446
  /** A paddle may move up only while its new top stays at or below this line. */
  const PaddleHighest: int := -25
  /** Height of a paddle: it covers the open interval (a, a + 80). */
  const PaddleHeight: int := 80
  /** Both paddles start with their top edge here. */
  const PaddleStart: int := 140

  /** The ball bounces off the top wall above this line ... */
  const TopWall: real := 10.0
  /** ... and off the bottom wall below this one. */
  const BottomWall: real := 486.0
  /** Left of this line the ball is in player 1's goal. */
  const LeftGoal: real := 1.0
  /** Right of this line the ball is in player 2's goal. */
  const RightGoal: real := 612.0
  /** Left of this line the ball can touch player 1's paddle. */
  const LeftPaddleFace: real := 18.0
  /** Right of this line the ball can touch player 2's paddle. */
  const RightPaddleFace: real := 592.0

  /** Where the ball is served from, at start-up and after every point. */
  const ServeX: real := 306.0
  const ServeY: real := 256.0
  /** The velocity after a point has been scored. */
  const ServeSpeedX: real := 2.0
  const ServeSpeedY: real := 3.0
  /** The velocity at start-up. */
  const StartSpeedX: real := 4.0
  const StartSpeedY: real := 6.0
  /** Every paddle hit multiplies both velocity components by this factor. */
  const SpeedUp: real := 1.259

  // ---------------------------------------------------------------------------
  // The state and its transitions, as values
  // ---------------------------------------------------------------------------

  datatype State = State(
    a1: int, a2: int,              // top edges of the left and right paddles
    bouleX: real, bouleY: real,    // ball position
    plusX: real, plusY: real,      // ball velocity per tick
    sj1: nat, sj2: nat             // points of player 1 and player 2
  )

  /** The state the game starts in. */
  function Initial(): (s: State)
    ensures s.a1 == s.a2 == PaddleStart && s.sj1 == s.sj2 == 0
    ensures s.bouleX == ServeX && s.bouleY == ServeY
    ensures s.plusX == StartSpeedX && s.plusY == StartSpeedY
    ensures Invariant(s)
  {
    State(PaddleStart, PaddleStart, ServeX, ServeY, StartSpeedX, StartSpeedY, 0, 0)
  }

  function Abs(x: real): real { if x < 0.0 then -x else x }

  /** The keys that move a paddle; every other key is ignored. */
  predicate IsPaddleKey(keysym: string)
  {
    keysym == "s" || keysym == "z" || keysym == "Down" || keysym == "Up"
  }

  /**
    The effect of one key press. The four cases are tried in order and at
    most one applies: a key moves its paddle only when the guard on the new
    position holds.
  */
  function KeyStep(s: State, keysym: string): (r: State)
    // nothing but the paddles ever changes
    ensures r.(a1 := s.a1, a2 := s.a2) == s
    // at most one paddle moves, and it moves by exactly one step
    ensures r.a1 == s.a1 || r.a2 == s.a2
    ensures r.a1 in {s.a1 - PaddleStep, s.a1, s.a1 + PaddleStep}
    ensures r.a2 in {s.a2 - PaddleStep, s.a2, s.a2 + PaddleStep}
    ensures !IsPaddleKey(keysym) ==> r == s
    // each move happens exactly when its key is pressed and its guard holds
    ensures r.a1 == s.a1 + PaddleStep <==> keysym == "s" && s.a1 + PaddleStep <= PaddleLowest
    ensures r.a1 == s.a1 - PaddleStep <==> keysym == "z" && s.a1 - PaddleStep >= PaddleHighest
    ensures r.a2 == s.a2 + PaddleStep <==> keysym == "Down" && s.a2 + PaddleStep <= PaddleLowest
    ensures r.a2 == s.a2 - PaddleStep <==> keysym == "Up" && s.a2 - PaddleStep >= PaddleHighest
    // a paddle inside the allowed band stays inside it
    ensures PaddleHighest <= s.a1 <= PaddleLowest ==> PaddleHighest <= r.a1 <= PaddleLowest
    ensures PaddleHighest <= s.a2 <= PaddleLowest ==> PaddleHighest <= r.a2 <= PaddleLowest
    // a paddle that can be reached from the start stays reachable (see PaddleOnGrid)
    ensures PaddleOnGrid(s.a1) ==> PaddleOnGrid(r.a1)
    ensures PaddleOnGrid(s.a2) ==> PaddleOnGrid(r.a2)
  {
    if keysym == "s" && s.a1 + PaddleStep <= PaddleLowest then
      s.(a1 := s.a1 + PaddleStep)
    else if keysym == "z" && s.a1 - PaddleStep >= PaddleHighest then
      s.(a1 := s.a1 - PaddleStep)
    else if keysym == "Down" && s.a2 + PaddleStep <= PaddleLowest then
      s.(a2 := s.a2 + PaddleStep)
    else if keysym == "Up" && s.a2 - PaddleStep >= PaddleHighest then
      s.(a2 := s.a2 - PaddleStep)
    else
      s
  }

  /** The ball at (x, y) touches the left paddle whose top edge is at a1. */
  predicate HitsLeftPaddle(a1: int, x: real, y: real)
  {
    x < LeftPaddleFace && (a1 as real) < y < ((a1 + PaddleHeight) as real)
  }

  /** The ball at (x, y) touches the right paddle whose top edge is at a2. */
  predicate HitsRightPaddle(a2: int, x: real, y: real)
  {
    x > RightPaddleFace && (a2 as real) < y < ((a2 + PaddleHeight) as real)
  }

  // The four phases of a tick. Each phase sees the state the previous one left.

  /** Phase 1: the ball moves by its velocity. */
  function Move(s: State): State
  {
    s.(bouleX := s.bouleX + s.plusX, bouleY := s.bouleY + s.plusY)
  }

  /** Phase 2: the ball bounces off the top or the bottom wall. */
  function WallBounce(s: State): State
  {
    if s.bouleY < TopWall then s.(plusY := -s.plusY)
    else if s.bouleY > BottomWall then s.(plusY := -s.plusY)
    else s
  }

  /**
    Phase 3: a ball in a goal gives the opponent a point and is served again.
    The game negates `plusX` here before serving, but the serve overwrites
    both velocity components, so only the serve is visible.
  */
  function Score(s: State): State
  {
    if s.bouleX < LeftGoal then
      s.(sj2 := s.sj2 + 1, bouleX := ServeX, bouleY := ServeY, plusX := ServeSpeedX, plusY := ServeSpeedY)
    else if s.bouleX > RightGoal then
      s.(sj1 := s.sj1 + 1, bouleX := ServeX, bouleY := ServeY, plusX := ServeSpeedX, plusY := ServeSpeedY)
    else s
  }

  /** Phase 4: a ball touching a paddle is sent back, faster. */
  function PaddleBounce(s: State): State
  {
    if HitsLeftPaddle(s.a1, s.bouleX, s.bouleY) || HitsRightPaddle(s.a2, s.bouleX, s.bouleY) then
      s.(plusX := -s.plusX * SpeedUp, plusY := s.plusY * SpeedUp)
    else s
  }

  /**
    One firing of the game timer. Every test looks at the position after the
    move; a ball that scored is served at x = 306, where no paddle can touch it.
  */
  function TickStep(s: State): (r: State)
    // the paddles are not touched
    ensures r.a1 == s.a1 && r.a2 == s.a2
    // after a tick the ball is always between the two goals
    ensures LeftGoal <= r.bouleX <= RightGoal
    // scores never decrease and at most one point is scored per tick
    ensures s.sj1 <= r.sj1 && s.sj2 <= r.sj2 && r.sj1 + r.sj2 <= s.sj1 + s.sj2 + 1
    // a ball past the left goal line: player 2 scores and the ball is served
    ensures s.bouleX + s.plusX < LeftGoal ==>
      r == s.(sj2 := s.sj2 + 1, bouleX := ServeX, bouleY := ServeY, plusX := ServeSpeedX, plusY := ServeSpeedY)
    // a ball past the right goal line: player 1 scores and the ball is served
    ensures s.bouleX + s.plusX > RightGoal ==>
      r == s.(sj1 := s.sj1 + 1, bouleX := ServeX, bouleY := ServeY, plusX := ServeSpeedX, plusY := ServeSpeedY)
    // otherwise the ball ends where it moved to, with its vertical speed
    // reversed at a wall and both speeds scaled at a paddle
    ensures
      var x, y := s.bouleX + s.plusX, s.bouleY + s.plusY;
      var vy := if y < TopWall || y > BottomWall then -s.plusY else s.plusY;
      LeftGoal <= x <= RightGoal ==>
        && r.sj1 == s.sj1 && r.sj2 == s.sj2
        && r.bouleX == x && r.bouleY == y
        && if HitsLeftPaddle(s.a1, x, y) || HitsRightPaddle(s.a2, x, y)
           then r.plusX == -SpeedUp * s.plusX && r.plusY == SpeedUp * vy
           else r.plusX == s.plusX && r.plusY == vy
    // the ball never slows down below the serve speed
    ensures Abs(s.plusX) >= ServeSpeedX ==> Abs(r.plusX) >= ServeSpeedX
    ensures Abs(s.plusY) >= ServeSpeedY ==> Abs(r.plusY) >= ServeSpeedY
  {
    PaddleBounce(Score(WallBounce(Move(s))))
  }

  // ---------------------------------------------------------------------------
  // Runs of the game: the event loop delivers key presses and timer firings
  // ---------------------------------------------------------------------------

  datatype Event = KeyPress(keysym: string) | TimerFired

  function Step(s: State, e: Event): State
  {
    match e
    case KeyPress(k) => KeyStep(s, k)
    case TimerFired => TickStep(s)
  }

  /** The state after the events, delivered in order. */
  function Run(s: State, events: seq<Event>): State
    decreases |events|
  {
    if events == [] then s else Run(Step(s, events[0]), events[1..])
  }

  /** How many timer firings the events contain. */
  function Ticks(events: seq<Event>): nat
    decreases |events|
  {
    if events == [] then 0 else (if events[0].TimerFired? then 1 else 0) + Ticks(events[1..])
  }

  /**
    A paddle top that can be reached from the start by key presses: one of
    -10, 15, ..., 415, 440, the positions 140 + 25 k inside the allowed band.
  */
  predicate PaddleOnGrid(a: int)
  {
    PaddleStart - 6 * PaddleStep <= a <= PaddleStart + 12 * PaddleStep && (a - PaddleStart) % PaddleStep == 0
  }

  /** What holds in every state the game can reach. */
  predicate Invariant(s: State)
  {
    && PaddleOnGrid(s.a1) && PaddleOnGrid(s.a2)
    && LeftGoal <= s.bouleX <= RightGoal
    && Abs(s.plusX) >= ServeSpeedX && Abs(s.plusY) >= ServeSpeedY
  }

  /** Every event keeps the invariant. */
  lemma StepKeepsInvariant(s: State, e: Event)
    requires Invariant(s)
    ensures Invariant(Step(s, e))
  {
  }

  /** Every run keeps the invariant. */
  lemma {:induction false} RunKeepsInvariant(s: State, events: seq<Event>)
    requires Invariant(s)
    ensures Invariant(Run(s, events))
    decreases |events|
  {
    if events != [] {
      StepKeepsInvariant(s, events[0]);
      RunKeepsInvariant(Step(s, events[0]), events[1..]);
    }
  }

  /**
    Whatever the players do, every state reached from the start has both
    paddles inside the band the guards allow and the ball between the goals.
  */
  lemma {:induction false} ReachableStates(events: seq<Event>)
    ensures Invariant(Run(Initial(), events))
    ensures var r := Run(Initial(), events);
      PaddleHighest <= r.a1 <= PaddleLowest && PaddleHighest <= r.a2 <= PaddleLowest
  {
    RunKeepsInvariant(Initial(), events);
  }

  /** Over a run the scores never decrease and grow by at most one point per tick. */
  lemma {:induction false} RunScores(s: State, events: seq<Event>)
    ensures var r := Run(s, events);
      s.sj1 <= r.sj1 && s.sj2 <= r.sj2 && r.sj1 + r.sj2 <= s.sj1 + s.sj2 + Ticks(events)
    decreases |events|
  {
    if events != [] {
      RunScores(Step(s, events[0]), events[1..]);
    }
  }

  /** Key presses alone move the paddles and nothing else. */
  lemma {:induction false} KeysOnlyMovePaddles(s: State, events: seq<Event>)
    requires Ticks(events) == 0
    ensures Run(s, events).(a1 := s.a1, a2 := s.a2) == s
    decreases |events|
  {
    if events != [] {
      KeysOnlyMovePaddles(Step(s, events[0]), events[1..]);
    }
  }

  /** Timer firings alone never move the paddles. */
  lemma {:induction false} TicksKeepPaddles(s: State, events: seq<Event>)
    requires forall i :: 0 <= i < |events| ==> events[i].TimerFired?
    ensures Run(s, events).a1 == s.a1 && Run(s, events).a2 == s.a2
    decreases |events|
  {
    if events != [] {
      TicksKeepPaddles(Step(s, events[0]), events[1..]);
    }
  }

  // ---------------------------------------------------------------------------
  // The game object, updated in place
  // ---------------------------------------------------------------------------

  class Game {
    var a1: int
    var a2: int
    var bouleX: real
    var bouleY: real
    var plusX: real
    var plusY: real
    var sj1: nat
    var sj2: nat

    /** The current state as a value. */
    function Current(): State
      reads this
    {
      State(a1, a2, bouleX, bouleY, plusX, plusY, sj1, sj2)
    }

    /** The game as it is before the first event. */
    constructor ()
      ensures Current() == Initial()
      ensures Invariant(Current())
    {
      sj1, sj2 := 0, 0;
      bouleX, bouleY := ServeX, ServeY;
      a1, a2 := PaddleStart, PaddleStart;
      plusX, plusY := StartSpeedX, StartSpeedY;
    }

    /** Handle one key press, identified by its key symbol. */
    method Key(keysym: string)
      modifies this
      ensures Current() == KeyStep(old(Current()), keysym)
    {
      if keysym == "s" && a1 + PaddleStep <= PaddleLowest {
        a1 := a1 + PaddleStep;
      } else if keysym == "z" && a1 - PaddleStep >= PaddleHighest {
        a1 := a1 - PaddleStep;
      } else if keysym == "Down" && a2 + PaddleStep <= PaddleLowest {
        a2 := a2 + PaddleStep;
      } else if keysym == "Up" && a2 - PaddleStep >= PaddleHighest {
        a2 := a2 - PaddleStep;
      }
    }

    /** Handle one firing of the timer: move the ball and resolve walls, goals and paddles. */
    method Tick()
      modifies this
      ensures Current() == TickStep(old(Current()))
    {
      ghost var before := Current();

      bouleX := bouleX + plusX;
      bouleY := bouleY + plusY;
      assert Current() == Move(before);

      if bouleY < TopWall {
        plusY := plusY * -1.0;
      } else if bouleY > BottomWall {
        plusY := plusY * -1.0;
      }
      assert Current() == WallBounce(Move(before));

      if bouleX < LeftGoal {
        sj2 := sj2 + 1;
        plusX := plusX * -1.0;
        bouleX := ServeX;
        bouleY := ServeY;
        plusY := ServeSpeedY;
        plusX := ServeSpeedX;
      } else if bouleX > RightGoal {
        sj1 := sj1 + 1;
        plusX := plusX * -1.0;
        bouleX := ServeX;
        bouleY := ServeY;
        plusY := ServeSpeedY;
        plusX := ServeSpeedX;
      }
      assert Current() == Score(WallBounce(Move(before)));

      if bouleX < LeftPaddleFace && (a1 as real) < bouleY < ((a1 + PaddleHeight) as real) {
        plusX := plusX * -1.0;
        plusY := plusY * SpeedUp;
        plusX := plusX * SpeedUp;
      } else if bouleX > RightPaddleFace && (a2 as real) < bouleY < ((a2 + PaddleHeight) as real) {
        plusX := plusX * -1.0;
        plusY := plusY * SpeedUp;
        plusX := plusX * SpeedUp;
      }
      assert Current() == PaddleBounce(Score(WallBounce(Move(before))));
    }
  }
}
