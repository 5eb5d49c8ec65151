# Klask simulator: game-rule layer

A Dafny model of the rule layer of `KlaskSimulator`, a two-player simulation of the
magnetic table game Klask. Two pucks are steered by the players. One ball and three
biscuits move freely on the board. A biscuit that touches a puck sticks to it for good.
The game is won by scoring the ball or the opponent's puck into a goal. It is also won
when the opponent's puck collects two biscuits.

The model works over an abstract world: the pieces still on the board, by name (the two
pucks, the ball and the free biscuits, each with its centre position and fixture list), the free-biscuit list `magnet_bodies`, the render
list `render_bodies`, and the contact listener's queue of `(puck, biscuit)` captures.
Positions are `real`. Lengths are the board constants multiplied by a length scaler.

Modules, leaves first:

- `KlaskConstants` (`constants.dfy`): board, goal, corner and piece constants as `real`
  literals, and RGB colours.
- `KlaskTypes` (`types.dfy`): vectors, fixtures with optional user data, bodies and
  queue entries. Also Python's `in` on strings, `list.remove`, and the error outcomes
  (`ValueError` of `remove`, a failed body lookup, the `KeyError` of an unknown ball
  start).
- `Contact` (`contact.dfy`): the contact listener. `ContactListener.PreSolve` disables a
  puck/biscuit contact and queues the pair, puck first. The pure function `Captured`
  states the classification. It is proved equal to a classification by explicit piece
  kinds, so it does not depend on which fixture the engine reports as A.
- `Attachment` (`attachment.dfy`): the attachment resolver as functions on a `Table`
  (`Attach` for one entry, `Drain` for the whole queue, last entry first), the world
  invariant `WorldValid`, and lemmas about draining: when it succeeds, what it removes,
  how the pucks grow, and biscuit conservation.
- `Rules` (`rules.dfy`): the goal test (squared distances, inclusive bound) and the
  game-state classification, with lemmas on mirror symmetry, inclusiveness, exclusive
  goals and the two-biscuit rule.
- `Setup` (`setup.dfy`): the layout `reset` builds and the ball start selection.
  "random" picks some one of the four corners, chosen nondeterministically.
- `Simulator` (`simulator.dfy`): the `KlaskSimulator` class. `Reset`, the magnet loop's
  targets, the engine step (`WorldStep`: the engine's moves and its contact reports are
  parameters), the capture loop `ResolveCollisions` and `Step`. Each method is proved
  against the functions of `Attachment` and `Contact`.

Modelling notes:

- Player 1 wins only through the right goal, index `[1]` of the goal test, and player 2
  only through the left goal, index `[0]` (klask_simulator.py:178 and :182).
- The resolver does not skip a queue entry whose biscuit was already attached earlier in
  the same drain. `list.remove` raises `ValueError`, and the model returns
  `Fail(NotInList(name))`. A drain succeeds exactly when the queued biscuits are distinct
  and all still free (`Attachment.DrainSucceedsIff`). In a step, the contacts the engine
  reports only ever queue free biscuits (`Simulator.QueuedAllValid`), so the step fails
  exactly when one biscuit is queued twice (`Simulator.KlaskSimulator.Step`).
- The contact listener keys the two fixtures by name in a dictionary. The model keeps
  that: two fixtures with equal names give one key, and the later fixture wins. The game
  never produces that case.
- A puck's fixture list is modelled as its own fixture first, then the captured
  biscuits in the order they were attached. This order is a convention of the model,
  not the engine's list order: the rules read only the length of the list
  (klask_simulator.py:193). So "comes right after" in
  `Attachment.LastQueuedAttachedFirst` is about this modelled list.

## Model

| member | source | states |
|---|---|---|
| `Contact.ContactListener.constructor` | klask_simulator.py:25-29 | a new listener starts with an empty capture queue |
| `Contact.ContactListener.PreSolve` | klask_simulator.py:31-52 | the queue grows by exactly the pair `Captured` returns (none or one); the contact is disabled exactly when a pair is queued, and is otherwise left as it was |
| `Contact.Captured` | klask_simulator.py:35-46 | a contact with an unnamed fixture (wall or ground) queues nothing; a queued pair is made of the two contacting fixtures |
| `Contact.ShortestKeyIsFirstShortest` | klask_simulator.py:45 | `min(keys, key=len)` returns a key of least length, the first such key |
| `Contact.LongestKeyIsFirstLongest` | klask_simulator.py:46 | `max(keys, key=len)` returns a key of greatest length, the first such key |
| `KlaskTypes.PuckAndBallSubstrings` | klask_simulator.py:42 | "puck1"/"puck2" contain "puck" but not "biscuit"; "ball" contains neither |
| `KlaskTypes.BiscuitSubstrings` | klask_simulator.py:42 | each biscuit name contains "biscuit" and not "puck" |
| `Contact.CapturedByKind` | klask_simulator.py:38-52 | on the game's fixtures, the substring test plus the shorter-name rule queues `(puck, biscuit)` exactly for a puck meeting a biscuit, puck first whichever fixture is A; puck-puck, puck-ball, ball-biscuit, biscuit-biscuit and wall contacts queue nothing |
| `Contact.CaptureIgnoresOrder` | klask_simulator.py:38-46 | swapping fixtures A and B gives the same queued pair |
| `KlaskTypes.Remove` | klask_simulator.py:163-164 | `list.remove` of a present name drops its first occurrence and keeps every other element in order: the result is `s[..i] + s[i + 1..]` for the first index `i` holding the name |
| `Attachment.NewFixture` | klask_simulator.py:153-160 | the fixture a capture creates: a sensor on the puck's body with the biscuit's name, colour and radius, placed toward the biscuit at distance puck radius plus biscuit radius |
| `Attachment.Attach` | klask_simulator.py:151-165 | one queue entry: succeeds exactly when the biscuit's name is in both lists and both bodies exist, and fails with the `ValueError` of `remove` when the name is not free; on success both lists lose one name, the biscuit's body is gone and the puck gains `NewFixture`. `AttachStep`, `AttachKeepsWorld` and `AttachSucceedsIffFree` state the rest |
| `Attachment.Drain` | klask_simulator.py:149-165 | the whole queue, last entry first: an empty queue changes nothing; on success both lists lose one name per entry. `DrainSucceedsIff`, `DrainFreesQueued`, `DrainGrowsPuck` and `DrainKeepsBall` state the rest |
| `Attachment.AttachSucceedsIffFree` | klask_simulator.py:163 | in a valid world an entry succeeds exactly when its biscuit is still in `magnet_bodies` |
| `Attachment.AttachStep` | klask_simulator.py:153-165 | one entry appends the new sensor fixture to its puck only, destroys the biscuit's body, leaves every other body alone, and removes the biscuit's name (only that name) from both lists |
| `Attachment.AttachKeepsWorld` | klask_simulator.py:153-165 | one successful entry keeps the world invariant: pieces well-formed, render list = pucks, ball and free biscuits, every biscuit free or captured exactly once |
| `Attachment.AttachTwiceFails` | klask_simulator.py:163 | a second entry for a biscuit just attached fails with the `ValueError` of `remove` |
| `Attachment.DrainSucceedsIff` | klask_simulator.py:149-165 | draining a valid queue succeeds exactly when the queued biscuits are distinct and all free, and then leaves a valid world |
| `Attachment.DrainFreesQueued` | klask_simulator.py:149-165 | after a successful drain the free list has lost exactly the queued biscuits, one per entry |
| `Attachment.DrainGrowsPuck` | klask_simulator.py:154-160 | each puck keeps its old fixtures and position and gains exactly one fixture per entry queued for it |
| `Attachment.DrainKeepsBall` | klask_simulator.py:149-165 | the resolver never touches the ball |
| `Attachment.LastQueuedAttachedFirst` | klask_simulator.py:149-151 | the queue is drained last in, first out: the last entry's fixture comes right after its puck's earlier fixtures |
| `Attachment.BiscuitCount` | klask_simulator.py:191-193 | in a valid world, free biscuits plus each puck's `len(fixtures) - 1` equals 3 |
| `Rules.DetermineGameState` | klask_simulator.py:173-189 | P1_WIN iff puck 2 or the ball is in the right goal or puck 2 carries two biscuits; P2_WIN iff the same holds for puck 1 and the left goal; P1_WIN listed first; `[PLAYING]` exactly when neither holds, never together with a win |
| `Rules.WithinRadiusIsDistanceBound` | klask_simulator.py:202-207 | the squared-distance test is Python's `dist(p, c) <= r` |
| `Rules.GoalsMirror` | klask_simulator.py:195-209 | a point is in the left goal exactly when its mirror image across x = W·ls/2 is in the right goal, and the other way round |
| `Rules.IsInGoal` | klask_simulator.py:195-209 | two flags, index 0 for the left goal and 1 for the right; the bound is inclusive, so a body on a goal centre is in that goal; on a positive scale the two flags are never both set. `GoalsMirror`, `WithinRadiusIsDistanceBound` and `ScaledGoal` state the rest |
| `Rules.NumBiscuitsOnPuck` | klask_simulator.py:191-193 | for a puck with its own fixture, `len(fixtures) - 1` is the number of biscuit fixtures attached to it (`BiscuitCount`, `TwoBiscuitsLose`) |
| `Rules.NoPointInBothGoals` | klask_simulator.py:195-209 | on a positive scale no point is in both goals |
| `Rules.TwoBiscuitsLose` | klask_simulator.py:178-183 | a puck carrying two or more biscuits makes its opponent win |
| `Rules.BiscuitLossesExclusive` | klask_simulator.py:178-183 | in a valid world the two pucks never both carry two biscuits |
| `Rules.BallGoalOneWinner` | klask_simulator.py:178-187 | a ball goal with no other win condition gives exactly one winner, the opponent of that goal's side |
| `Setup.BallStartPositions` | klask_simulator.py:102-105 | the table of named starts has exactly the four corner keys; "random" is not one of them (`StartCornersMirror`, `StartsOnBoard`, `StartsOutsideGoals`) |
| `Setup.StartsOnBoard` | klask_simulator.py:102-105 | on a positive scale every corner start lies strictly inside the board |
| `Setup.InitialTable` | klask_simulator.py:96-122 | the world `reset` builds: the ball at the chosen start, all three biscuits in `magnet_bodies`, render list pucks, ball, then biscuits (`InitialTableValid`, `ResetStartsPlaying`) |
| `Setup.SelectBallStart` | klask_simulator.py:102-108 | a named corner gives its position; "random" gives some one of the four corners; any other name fails with a lookup error |
| `Setup.StartCornersMirror` | klask_simulator.py:102-105 | the right-hand corner starts mirror the left-hand ones |
| `Setup.InitialTableValid` | klask_simulator.py:96-122 | the world after `reset` satisfies the world invariant with all three biscuits free, wherever the ball starts |
| `Setup.ScaledGoal` | klask_simulator.py:202-207 | on a positive length scaler the goal test is the unscaled test on the unscaled point |
| `Setup.StartsOutsideGoals` | klask_simulator.py:102-105 | no ball start lies in a goal |
| `Setup.ResetStartsPlaying` | klask_simulator.py:96-122 | right after `reset`, on any positive scale and from any corner, the game state is `[PLAYING]` |
| `Simulator.MagnetTargetsFree` | klask_simulator.py:141-143 | in a valid world every body the magnet loop pulls exists and is a free biscuit, carried by neither puck |
| `Simulator.QueuedAllValid` | klask_simulator.py:31-52 | from engine reports on live fixtures the listener queues only a puck's own fixture paired with a free biscuit's fixture, so every queued biscuit is free |
| `Simulator.StepTable` | klask_simulator.py:133-165 | one step on a valid world queues only free biscuits and succeeds exactly when the queued biscuits are distinct; then the world is valid again, the free count drops by the queue length and never rises, and the pucks only gain fixtures |
| `Simulator.BiscuitLossPersists` | klask_simulator.py:178-183 | once a puck carries two biscuits, every later successful step still reports its opponent's win and never `[PLAYING]` |
| `Simulator.ReportContacts` | klask_simulator.py:31-52 | the engine's contact reports, in order, extend the queue by what `PreSolve` queues for each, and disable exactly the captured contacts |
| `Simulator.KlaskSimulator.constructor` | klask_simulator.py:54-75 | a new simulator keeps its length scaler and has no world yet |
| `Simulator.KlaskSimulator.Reset` | klask_simulator.py:77-122 | builds the start world with an empty queue; fails exactly on an unknown start name, after the pucks are created; on success the world is valid and the ball is on one of the four corners |
| `Simulator.KlaskSimulator.MagnetForceTargets` | klask_simulator.py:141-143 | the loop pulls each free biscuit towards puck 1 and then puck 2, in list order; a missing body is a lookup error |
| `Simulator.KlaskSimulator.PlacePieces` | klask_simulator.py:96-122 | with an empty queue, stores exactly `Setup.InitialTable` as the world and leaves it valid |
| `Simulator.KlaskSimulator.PullAndStepWorld` | klask_simulator.py:141-146 | the magnet loop succeeds with two pulls per free biscuit, then the engine step moves the bodies as `Moved` says, queues exactly `QueuedAll` of the contacts and disables exactly the captured ones |
| `Simulator.KlaskSimulator.WorldStep` | klask_simulator.py:146 | the engine step moves bodies and passes every contact through `PreSolve`; the lists are untouched |
| `Simulator.KlaskSimulator.Capture` | klask_simulator.py:151-165 | one popped entry changes the state exactly as `Attachment.Attach`, failing with its error |
| `Simulator.KlaskSimulator.ResolveCollisions` | klask_simulator.py:149-165 | the pop loop ends with the queue empty and the state `Attachment.Drain` gives, or with its first error |
| `Simulator.KlaskSimulator.Step` | klask_simulator.py:133-171 | one tick fails exactly when the queue names a biscuit twice (the `ValueError` of `remove`); otherwise the new state is the drain of the moved world, the world stays valid and the queue is empty |

## Left out

- Rendering, the pygame window, clock and surfaces, and the logo image (klask_simulator.py:224-305): presentation I/O.
- Box2D world and body construction, edge shapes, collision filter bits, friction joints and the integration inside `world.Step`: they belong to the physics engine. `WorldStep` takes the engine's new positions and its ordered contact reports as parameters. The engine is assumed to report only live, non-sensor fixtures or unnamed walls (`Simulator.EngineReports`).
- Puck impulses (klask_simulator.py:135-138): force application by the engine, with no rule content.
- The magnetic force (klask_simulator.py:211-222): floating-point normalisation and an inverse-square law. The model keeps only which bodies the loop pulls (`MagnetForceTargets`). Its zero-separation division is not modelled.
- The attached fixture's local offset needs a vector normalisation, so a square root. It is kept symbolically as `Toward(direction, distance)`: the puck-to-biscuit direction and the length puck radius plus biscuit radius. Normalising a zero vector is therefore not modelled.
- Fixture density, restitution and mass: physics data with no rule content.
- `random.choice` is modelled as a nondeterministic choice among the four corners, not as a particular random generator.
- Floating point: all lengths are exact `real`s, so rounding at the inclusive goal bound is not modelled.
- Simulator.KlaskSimulator.Capture: on a failing entry, klask_simulator.py has already created the sensor fixture on the puck before `remove` raises. The model checks the name first and says nothing about the state after a failure.
- Simulator.KlaskSimulator.Step: the game-state list `step` computes and discards (klask_simulator.py:171) is the pure function `Rules.DetermineGameState` of the resulting bodies. `Step` does not return it.
- The field `bodies` holds only the pieces: the pucks, the ball and the free biscuits. The static bodies of klask_simulator.py:84-90 (four walls, two dividers and the ground) are left out; the engine's reports of them reach the listener as unnamed fixtures. A capture removes the biscuit's key, as `DestroyBody` does. The `self.bodies` dictionary of klask_simulator.py keeps the dead handle of a destroyed biscuit (klask_simulator.py:165). So a lookup of a destroyed biscuit is `NoSuchBody` in the model (as in `Simulator.KlaskSimulator.MagnetForceTargets`), where the Python code would use the dead handle. In a valid world no such lookup happens (`Simulator.MagnetTargetsFree`).
- Default arguments are not modelled: `reset`'s `ball_start_position="random"` (klask_simulator.py:77) and the constructor's `length_scaler=100` (klask_simulator.py:54). Callers of `Reset` and of the constructor always pass both.
