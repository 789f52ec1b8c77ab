# Pong control layer of the FreeRTOS emulator, in Dafny

This project models the discrete game-control logic of the two-player Pong demo in
`FreeRTOS_Simulator/src/main.c`. The demo runs as several FreeRTOS tasks. In the model
the scheduler is replaced by explicit inputs: the current tick, a snapshot of the
button table, and the command that the state queue delivers. Suspending or resuming a
task becomes a boolean "active" flag.

- `ctypes.dfy` (module `CTypes`): the C types `unsigned char`, `unsigned short` and
  `unsigned int` as bounded integer subset types. `TickType_t` is taken to be a 32-bit
  unsigned type.
- `mailbox.dfy` (module `Mailbox`): a queue of length one that is only used through
  `xQueueOverwrite` and `xQueueReceive(..., 0)`. It is modelled as an `Option` cell:
  "latest value wins", sends never block, and an empty receive leaves the destination
  variable alone.
- `state_machine.dfy` (module `StateMachine`): `changeState` and one iteration of the
  loop in `basicSequentialStateMachine`. This covers the debounce test, the dirty flag
  and suspend/resume of the paused-overlay, control and paddle tasks. The iteration is
  a specification function `Iteration`. The class `StateMachineTask` holds the loop's
  variables, and its method `Step` is proved against `Iteration`.
- `paddle.dfy` (module `Paddle`): the button table and its refresh from the input
  queue, and the paddle index bounded to `[0, PADDLE_Y_INCREMENTS]` (= 76). Also the
  input checks, where the up key (UP or W) takes priority over the down key (DOWN or
  S). A NULL paddle pointer is a nullable `Player?`.
- `pong.dfy` (module `Pong`): the two side-wall callbacks, the set-up of the paddle and
  control tasks, and one tick of `vPongControlTask`. The tick is modelled from taking
  `DrawReady` up to the poll of the score queues. It covers the P and R keys, the
  `BallInactive` semaphore, the serve from the direction slot, and the score polls. The
  specification function `ControlTick` is built from three stage functions. The class
  `PongControlTask` has a `Tick` method proved against `ControlTick`. The ball is only
  an integer position/velocity pair, which the tick sets to the centre at rest or to
  the serve speed `(±250, 250)`.

Some behaviour of the code is easy to misread. The model follows the code as written:

- A side-wall callback increments the `score` of the `player_data_t` passed as its
  context, which is the struct of the player whose task created that wall (the
  "owner"). The right wall increments `right_player.score` and publishes it on
  `RightScoreQueue`, which the control task reads into `right_score`
  (main.c:268-276, 283-284, 421). `vDrawScores` draws its `right` argument left of the
  centre and `left` right of it (main.c:249-255). So on screen the point goes to the
  opponent of the wall's owner, as the comment at main.c:269 says. The model tracks the
  fields, so its "owner's score" is the field that the opponent's number displays.
- The right wall writes `START_RIGHT` and the left wall writes `START_LEFT`. So the
  next serve goes towards the wall that was just hit (main.c:275, 309, 397-405).
- An empty serve slot leaves `ball_direction` at its previous value. It does not
  default to "serve right". Only the first serve of a game, with `ball_direction == 0`,
  goes right by default (`Pong.FirstServeGoesRight`). After a left-wall serve, a serve
  from an empty slot goes left again (`Pong.ServeStep`).
- The R key sets `left_score = 0` but `right_score = 1`. It clears neither the score
  queues nor the players' own scores. The model keeps this as written
  (`Pong.ResetAsWritten`).

## Model

| member | source | states |
|---|---|---|
| Mailbox.Receive | FreeRTOS_Simulator/src/main.c:395 | a non-blocking receive always leaves the slot empty; the destination gets the unread item if there was one; polling an empty slot changes neither the slot nor the destination variable |
| Mailbox.OverwriteForgets | FreeRTOS_Simulator/src/main.c:271-275 | whatever was unread, a receive after an overwrite yields exactly the item just written |
| Mailbox.Overwrite | FreeRTOS_Simulator/src/main.c:272-275 | after an overwrite the slot holds exactly the item just written, whatever was unread before |
| Mailbox.LatestWins | FreeRTOS_Simulator/src/main.c:270-272 | after any nonempty series of overwrites the slot holds only the last item, and one poll returns it |
| StateMachine.ChangeState | FreeRTOS_Simulator/src/main.c:85-103 | NEXT is successor modulo STATE_COUNT and PREV is predecessor modulo STATE_COUNT on valid states; any other signal changes nothing; a valid state stays valid; outside the range NEXT wraps in unsigned char |
| StateMachine.NextPrevInverse | FreeRTOS_Simulator/src/main.c:85-99 | NEXT then PREV, and PREV then NEXT, give back every valid state |
| StateMachine.TwoStateWrap | FreeRTOS_Simulator/src/main.c:85-99 | in the 2-state machine NEXT twice from 0 is 0 and PREV from 0 is 1 |
| StateMachine.NextCycles | FreeRTOS_Simulator/src/main.c:88-93 | n NEXT commands move a valid state to (state + n) mod STATE_COUNT |
| StateMachine.PrevCycles | FreeRTOS_Simulator/src/main.c:94-99 | n PREV commands move a valid state to (state - n) mod STATE_COUNT |
| StateMachine.Elapsed | FreeRTOS_Simulator/src/main.c:123 | the tick difference in unsigned 32-bit arithmetic: plain difference without wrap, 2^32 - last + now across a wrap |
| StateMachine.ApplyState | FreeRTOS_Simulator/src/main.c:131-146 | for a valid state, the paused-overlay task is resumed exactly in STATE_TWO, and control and both paddle tasks are resumed exactly when the overlay is not; any other state leaves all flags alone |
| StateMachine.Initial | FreeRTOS_Simulator/src/main.c:109-115 | the machine starts in STARTING_STATE, marked dirty, with input 0, last_change at the start tick, and every controlled task suspended, as main does before the scheduler starts (main.c:480-483) |
| StateMachine.Iteration | FreeRTOS_Simulator/src/main.c:117-149 | after an iteration the machine is clean; a command that was received and passes the strict debounce test sets the state to ChangeState(state, command) and last_change to now, so a signal other than NEXT or PREV is accepted but leaves the state alone; otherwise state and last_change are untouched; the task flags are re-applied from the new state exactly when it was dirty or a command was accepted, and are untouched otherwise; a valid state stays valid |
| StateMachine.InitialStateApplied | FreeRTOS_Simulator/src/main.c:117-148 | the first iteration does not consume the command, applies the starting state (overlay suspended, gameplay resumed) and leaves the machine clean |
| StateMachine.RejectedLeavesMachine | FreeRTOS_Simulator/src/main.c:122-127 | a command within the debounce window leaves current_state, state_changed, last_change and the task flags untouched |
| StateMachine.DebounceOneTransition | FreeRTOS_Simulator/src/main.c:122-127 | of two commands whose ticks are within the debounce window, the first is accepted and sets the state to ChangeState(state, command), and the second has no effect: at most one transition, exactly one when the first command is NEXT or PREV |
| StateMachine.AlwaysSettled | FreeRTOS_Simulator/src/main.c:117-149 | after any nonempty run from the initial machine, the state is valid and the task flags are those the state calls for, so the overlay and the gameplay tasks are never resumed together |
| StateMachine.StaysSettled | FreeRTOS_Simulator/src/main.c:129-148 | every run from a settled machine keeps it settled |
| StateMachine.StateMachineTask.constructor | FreeRTOS_Simulator/src/main.c:109-115 | the task's variables equal Initial(now) |
| StateMachine.StateMachineTask.Step | FreeRTOS_Simulator/src/main.c:117-149 | the receive is skipped exactly when the state is dirty, and the new variables are Iteration of the old ones |
| Paddle.Refresh | FreeRTOS_Simulator/src/main.c:167-171 | after a refresh the input queue is empty and the table holds the pending snapshot if there was one, else the old table |
| Paddle.RefreshIdempotent | FreeRTOS_Simulator/src/main.c:221-225 | a second refresh straight after a first changes nothing, so the left and right checks of xCheckForInput see the same table |
| Paddle.Raised | FreeRTOS_Simulator/src/main.c:173-177 | the index drops by exactly 1 unless it is 0, where it stays; the travel range is preserved |
| Paddle.Lowered | FreeRTOS_Simulator/src/main.c:179-183 | the index rises by exactly 1 below PADDLE_Y_INCREMENTS and stays there at the limit; beyond it the unsigned short wraps; the travel range is preserved |
| Paddle.RaiseLowerInverse | FreeRTOS_Simulator/src/main.c:173-183 | inside the travel, a step down undoes a step up and a step up undoes a step down |
| Paddle.CheckKeys | FreeRTOS_Simulator/src/main.c:185-201 | the check reports a key iff up or down is held; up is applied whenever it is held, down only when up is not, and nothing moves otherwise; the index stays in range and moves by at most one |
| Paddle.PaddleStaysInTravel | FreeRTOS_Simulator/src/main.c:185-201 | any series of input checks, on either side's up/down key pair, keeps a paddle that starts inside its travel inside it |
| Paddle.Player.constructor | FreeRTOS_Simulator/src/main.c:279-280 | player data starts with score 0 and the paddle index at PADDLE_Y_INCREMENTS / 2 |
| Paddle.ButtonsBuffer.GetButtonInput | FreeRTOS_Simulator/src/main.c:167-171 | the buffer after the call is Refresh of the buffer before |
| Paddle.IncrementPaddleY | FreeRTOS_Simulator/src/main.c:173-177 | through a non-null pointer the index becomes Raised of the old index; a null pointer changes nothing |
| Paddle.DecrementPaddleY | FreeRTOS_Simulator/src/main.c:179-183 | through a non-null pointer the index becomes Lowered of the old index; a null pointer changes nothing |
| Paddle.CheckPongRightInput | FreeRTOS_Simulator/src/main.c:185-201 | refreshes the table, returns 1 iff UP or DOWN is held, and moves a non-null paddle as CheckKeys(UP, DOWN) says |
| Paddle.CheckPongLeftInput | FreeRTOS_Simulator/src/main.c:203-219 | refreshes the table, returns 1 iff W or S is held, and moves a non-null paddle as CheckKeys(W, S) says |
| Paddle.CheckForInput | FreeRTOS_Simulator/src/main.c:221-225 | returns 1 iff any of W, S, UP or DOWN is held after the refresh, and moves no paddle |
| Pong.Served | FreeRTOS_Simulator/src/main.c:397-405 | a served ball starts at the centre with vertical speed 250 and horizontal speed -250 for START_LEFT, +250 for any other direction value |
| Pong.WallCallback | FreeRTOS_Simulator/src/main.c:268-276 | the owner's score rises by one (unsigned int); its score queue, if created, then holds exactly that score; the other side's queue is untouched; BallInactive is given; the serve slot holds that wall's direction |
| Pong.HitsAccumulate | FreeRTOS_Simulator/src/main.c:268-276 | after n hits on one wall, the score has risen by n and the score queue holds only that latest value |
| Pong.Start | FreeRTOS_Simulator/src/main.c:342-354 | the control task starts with an inactive ball at the centre with speed (250, 250), direction 0 and both scores 0 |
| Pong.ResetIfHeld | FreeRTOS_Simulator/src/main.c:372-378 | with R held the ball is inactive and at rest at the centre, left score 0 and right score 1; without R nothing changes |
| Pong.ServeStep | FreeRTOS_Simulator/src/main.c:382-407 | BallInactive is always taken; the ball stays active iff it was active and not flagged, or a paddle key is held; an untouched active ball keeps everything; an inactive ball with no key rests at the centre; with a key the direction comes from the slot (unchanged when it is empty), the ball is served accordingly and the slot is emptied |
| Pong.ReceiveIfCreated | FreeRTOS_Simulator/src/main.c:418-421 | a receive guarded by a queue handle: with a handle, the slot is left empty and the destination takes the queued value if there is one; without one, neither the slot nor the destination changes |
| Pong.PollScores | FreeRTOS_Simulator/src/main.c:418-421 | each score becomes the queued value if its queue exists and holds one, and stays as it was otherwise; existing queues are left empty |
| Pong.ControlTick | FreeRTOS_Simulator/src/main.c:363-421 | the tick refreshes the buttons, sends NEXT iff P is held, always consumes BallInactive, keeps the ball flying only if it was active, unflagged and R is not held, otherwise rests or serves it as the keys and the serve slot say; each score is the queued value if there is one, else 0/1 after R, else unchanged |
| Pong.ResetAsWritten | FreeRTOS_Simulator/src/main.c:372-378 | after R, with no queued score, the left score is 0 and the right score is 1; the ball is active only if a paddle key is also held |
| Pong.WallHitStopsBall | FreeRTOS_Simulator/src/main.c:382-388 | on the tick after a wall hit with no paddle key, the ball is inactive at the centre, the serve slot still holds the wall's direction, and the owner's score is shown |
| Pong.ServeAfterWallHit | FreeRTOS_Simulator/src/main.c:394-405 | after a wall hit, a tick without a key and a tick with one, the ball is served with (-250, 250) after the left wall and (250, 250) after the right wall, and the slot is drained |
| Pong.FirstServeGoesRight | FreeRTOS_Simulator/src/main.c:394-404 | from the initial control state with an empty serve slot, the first key serves the ball to the right with direction still 0 |
| Pong.ConsumerSeesLatestScore | FreeRTOS_Simulator/src/main.c:418-421 | after n hits on one wall, one poll by the control task shows exactly the owner's score plus n |
| Pong.PauseKeyPauses | FreeRTOS_Simulator/src/main.c:367-370 | P during a running tick sends NEXT; the state machine accepts it past the debounce window and suspends the control and paddle tasks while resuming the overlay |
| Pong.Shared.constructor | FreeRTOS_Simulator/src/main.c:56-62 | before any task runs, both score queue handles are NULL and every slot is empty |
| Pong.RightWallCallback | FreeRTOS_Simulator/src/main.c:268-276 | the player's score and the shared channels become what WallCallback(RightWall) gives; the paddle index is untouched |
| Pong.LeftWallCallback | FreeRTOS_Simulator/src/main.c:303-310 | the player's score and the shared channels become what WallCallback(LeftWall) gives; the paddle index is untouched |
| Pong.StartRightPaddleTask | FreeRTOS_Simulator/src/main.c:278-290 | a fresh player with score 0 and the paddle centred; RightScoreQueue is empty, and its handle is non-NULL exactly when the creation succeeded |
| Pong.StartLeftPaddleTask | FreeRTOS_Simulator/src/main.c:312-323 | a fresh player with score 0 and the paddle centred; LeftScoreQueue is empty, and its handle is non-NULL exactly when the creation succeeded |
| Pong.PongControlTask.constructor | FreeRTOS_Simulator/src/main.c:336-354 | the task's locals equal Start(), and BallInactive and StartDirectionQueue are created empty |
| Pong.PongControlTask.Tick | FreeRTOS_Simulator/src/main.c:363-421 | the task's locals, the shared channels, the button buffer and the sent command are exactly what ControlTick gives |
| Pong.PongControlTask.HandleResetKey | FreeRTOS_Simulator/src/main.c:372-378 | the locals become ResetIfHeld of the old ones |
| Pong.PongControlTask.HandleBall | FreeRTOS_Simulator/src/main.c:382-407 | locals and channels become ServeStep of the old ones; the button buffer is unchanged |
| Pong.PongControlTask.PollScoreQueues | FreeRTOS_Simulator/src/main.c:418-421 | locals and channels become PollScores of the old ones |

## Left out

- Ball physics and collision detection (`createBall`, `setBallSpeed`, `setBallLocation`, `checkBallCollisions`, `updateBallPosition`). They belong to the graphics library, work in floating point, and lie outside the game-control layer. The ball is an integer position/velocity pair, and a collision is modelled by calling a wall callback.
- All drawing: `checkDraw` (which exits the process on failure), `vDrawWall`, `vDrawPaddle`, `vDrawScores` and the `tumDraw*` calls.
- `vResetPaddle` and `setWallProperty`, which move the paddle wall through the graphics library. They do not change `paddle_position`, which the model keeps.
- Audio (`playBallSound`).
- A failed creation of `BallInactive` or `StartDirectionQueue` (main.c:351-352). The code uses both handles without a NULL test, so `PongControlTask.constructor` assumes both creations succeed. A failed creation of a score queue is modelled: `StartRightPaddleTask` and `StartLeftPaddleTask` take the outcome as `created`, and the `if (RightScoreQueue)`/`if (LeftScoreQueue)` guards then skip that queue (`Pong.ReceiveIfCreated`, `Pong.WallCallback`).
- `vSwapBuffers`, the `DrawReady`/`DisplayReady` handshake and the `vTaskDelayUntil` pacing. A control tick starts once `DrawReady` has been taken.
- The task notifications that release the paddle tasks each tick. A paddle task's loop body is a call of `CheckPongLeftInput` or `CheckPongRightInput` on its player.
- The button mutex, and the extra `xSemaphoreGive` of it that the P branch makes. The model is sequential: no backend write lands between the refreshes of one call.
- The blocking `xQueueSend` to the state queue. `Tick` returns the command, and the state machine task, which has the higher priority, takes it with `Step`. No pre-emption inside a tick is modelled, so the model does not capture the control task being suspended right after it sends NEXT.
- The blocking receive in the state machine. `Step` takes the command the receive would deliver. Its tick `now` is read once, where the C code reads the tick count twice.
- `vPausedStateTask`, which sends NEXT on P exactly as the control tick does, and the task creation and scheduler start in `main`.
- The configuration headers that fix `TickType_t` are not part of this model. 32-bit ticks are assumed.
- `lib/AsyncIO/udp.c`, `lib/AsyncIO/include/udp.h` and `lib/AsyncIO.old/AsyncIOSerial.c`: socket, signal and serial-port I/O.
