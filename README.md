# Pong: paddle and ball rules

This project models the game logic of a two-player Pong game written with
Tkinter (`assets/files/PongV5.py`). Strip away the window, the canvas and the
labels, and the game is a state machine over eight numbers:

- the top edges `a1` and `a2` of the left and right paddles;
- the ball position `bouleX`, `bouleY`;
- the ball velocity `plusX`, `plusY`, in pixels per timer tick;
- the scores `sj1` and `sj2` of player 1 and player 2 (`SJ1`, `SJ2` in the game).

Two kinds of event change the state.

- **A key press** (`ControlesJ1etJ2`). "s" and "z" move the left paddle down
  and up by 25 pixels. "Down" and "Up" do the same for the right paddle. Each
  move is guarded by a bound on the new position, and at most one move happens
  per key press.
- **A timer firing** (`bouboule`, rescheduled every 50 ms). The ball moves by
  its velocity. Then three checks run in order, each on the state the previous
  one left:
  1. at the top or bottom wall, the vertical velocity is negated;
  2. past a goal line, the opponent scores and the ball is served again from
     (306, 256) with velocity (2, 3);
  3. on touching a paddle, the horizontal velocity is reversed and both
     components are multiplied by 1.259.

`pong.dfy` holds one module, `Pong`, with two views of the same rules.

- **Pure functions on a `State` value.** `KeyStep` is a key press. `TickStep`
  is a timer firing, written as the composition of the phases `Move`,
  `WallBounce`, `Score` and `PaddleBounce`. Their `ensures` clauses state the
  rules case by case. `Run` folds a sequence of events (key presses and timer
  firings, in the order the event loop delivers them). The lemmas about `Run`
  prove what holds over a whole game.
- **A `Game` class.** Its eight fields are the game's global variables. Its
  methods `Key` and `Tick` update the fields one assignment at a time, in the
  same order as the game. Each method is proved to end in exactly the state
  that `KeyStep` or `TickStep` gives.

The ball's position and velocity are Dafny `real`s. The paddles and scores are
integers.

## Model

| member | source | states |
|---|---|---|
| `Pong.Initial` | assets/files/PongV5.py:27-38 | The game starts with both paddle tops at 140, the ball at (306, 256) and both scores at 0 (lines 6-7); the starting velocity is (4, 6). This state satisfies the game invariant (see `Pong.StepKeepsInvariant`). |
| `Pong.KeyStep` | assets/files/PongV5.py:60-82 | A key press changes only the paddles. At most one paddle moves, by exactly -25, 0 or +25. A key other than "s", "z", "Down" or "Up" changes nothing. `a1` grows by 25 exactly when the key is "s" and `a1 + 25 <= 446`, and shrinks by 25 exactly when the key is "z" and `a1 - 25 >= -25`. "Down" and "Up" act the same way on `a2`. A paddle inside [-25, 446] stays inside it. A paddle top in {-10, 15, ..., 440} (the positions 140 + 25k that the guards let a paddle reach from 140) stays in that set. |
| `Pong.TickStep` | assets/files/PongV5.py:90-140 | A tick leaves the paddles alone and always ends with the ball between the goal lines 1 and 612. Scores never decrease, and their sum grows by at most 1. If the moved ball has `x < 1`, `sj2` goes up by exactly 1, `sj1` is unchanged, and the ball is at (306, 256) with velocity (2, 3). An `x > 612` is the same with `sj1`. Otherwise the ball ends at its moved position. Its vertical velocity is negated if the moved `y` is below 10 or above 486. If the moved ball touches a paddle (`x < 18` and `a1 < y < a1 + 80`, or `x > 592` and `a2 < y < a2 + 80`), `plusX` becomes `-1.259 * plusX` and `plusY` is multiplied by 1.259. A tick never slows the ball below the serve speed (2, 3). |
| `Pong.StepKeepsInvariant` | assets/files/PongV5.py:60-140 | Each key press and each tick preserves the invariant. The invariant is: both paddle tops in {-10, 15, ..., 440}, the ball between the goal lines, and `abs(plusX) >= 2`, `abs(plusY) >= 3`. |
| `Pong.RunKeepsInvariant` | assets/files/PongV5.py:86-97 | Any sequence of key presses and timer firings preserves the invariant. |
| `Pong.ReachableStates` | assets/files/PongV5.py:27-140 | Every state reachable from the start satisfies the invariant. In particular, both paddle tops stay within [-25, 446]. |
| `Pong.RunScores` | assets/files/PongV5.py:110-126 | Over any run, neither score decreases, and the total score grows by at most the number of timer firings. |
| `Pong.KeysOnlyMovePaddles` | assets/files/PongV5.py:60-82 | A run of key presses alone changes only the paddles. |
| `Pong.TicksKeepPaddles` | assets/files/PongV5.py:90-140 | A run of timer firings alone never moves a paddle. |
| `Pong.Game.constructor` | assets/files/PongV5.py:27-38 | A new game object holds the starting state, which satisfies the invariant. |
| `Pong.Game.Key` | assets/files/PongV5.py:60-82 | The handler updates `a1` or `a2` in place, through the same `if`/`elif` chain. It ends in exactly the state `KeyStep` gives. |
| `Pong.Game.Tick` | assets/files/PongV5.py:90-140 | The handler updates the ball and score fields in place, in the game's order, including the `plusX` negation that the serve then overwrites. It ends in exactly the state `TickStep` gives. |

## Left out

- The Tkinter window, score labels, `IntVar`s, canvas items, `canvas.move`, `canvas.coords`, `focus_set`, `bind` and `mainloop` (lines 4-23, 45-56, 67, 72, 77, 81, 85-86, 96, 146). They only draw the state.
- The score label text `"J1:" + str(SJ1)` (lines 115, 124). It is presentation; the model keeps the integer counters.
- The centre-line rectangles and `deco1X`/`deco2X` (lines 40-41, 51-56). They are decoration.
- `raquette1Y` and `raquette2Y` (lines 30-31). The game never changes them after drawing the paddles. The paddle hit test uses `a1` and `a2`, as the model does.
- The timer's 50 ms period (line 97) and wall-clock time. Each firing is one `Tick` call or one `TimerFired` event. `Run` accepts any interleaving of key presses and firings. The game itself fires the timer once before the event loop starts (line 145); that is one such run.
- IEEE double rounding of `plusX * 1.259` and `plusY * 1.259`. Ball coordinates and velocities are exact reals, so the model makes no claim about bit-exact floating-point behaviour.
- Only the game logic of `PongV5.py` is modelled.
