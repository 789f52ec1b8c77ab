/** The Pong control layer: the side-wall callbacks that score and stop the
    ball, and one tick of the control task, which reacts to the P and R keys,
    to the "ball inactive" flag and to the serve-direction and score
    mailboxes. The ball is an opaque position and velocity pair; its motion
    and collision detection are not part of this model. */
module Pong {
  import opened CTypes
  import opened Mailbox
  import opened Paddle
  import StateMachine

  const SCREEN_WIDTH: int := 640
  const START_LEFT: uint8 := 1
  const START_RIGHT: uint8 := 2
  const SERVE_SPEED: int := 250

  datatype Ball = Ball(x: int, y: int, dx: int, dy: int)

  /** setBallLocation to the screen centre and setBallSpeed(0, 0). */
  const AT_CENTRE := Ball(SCREEN_WIDTH / 2, SCREEN_HEIGHT / 2, 0, 0)

  /** The ball the serve leaves behind: at the centre, moving down, to the
      left for START_LEFT and to the right for anything else. */
  function Served(direction: uint8): (b: Ball)
    ensures b.x == SCREEN_WIDTH / 2 && b.y == SCREEN_HEIGHT / 2 && b.dy == SERVE_SPEED
    ensures b.dx == if direction == START_LEFT then -SERVE_SPEED else SERVE_SPEED
  {
    if direction == START_LEFT then AT_CENTRE.(dx := -SERVE_SPEED, dy := SERVE_SPEED)
    else AT_CENTRE.(dx := SERVE_SPEED, dy := SERVE_SPEED)
  }

  /** The queues and the semaphore shared between the paddle tasks, their wall
      callbacks and the control task. A score queue handle is NULL until its
      paddle task has created it. */
  datatype Channels = Channels(
    leftScoreCreated: bool, leftScoreQueue: Option<uint32>,
    rightScoreCreated: bool, rightScoreQueue: Option<uint32>,
    startDirectionQueue: Option<uint8>,
    ballInactive: bool)

  datatype Side = LeftWall | RightWall

  /** The serve direction each wall's callback writes. */
  function StartDirection(side: Side): uint8
  {
    if side == LeftWall then START_LEFT else START_RIGHT
  }

  function ScoreCreated(side: Side, ch: Channels): bool
  {
    if side == LeftWall then ch.leftScoreCreated else ch.rightScoreCreated
  }

  function ScoreQueue(side: Side, ch: Channels): Option<uint32>
  {
    if side == LeftWall then ch.leftScoreQueue else ch.rightScoreQueue
  }

  /** The wall owner's new score and the shared channels after a wall callback. */
  datatype Scored = Scored(score: uint32, channels: Channels)

  /** v{Left,Right}WallCallback: the owning player's score goes up by one
      (unsigned int), its score queue, if created, is overwritten with it, the
      "ball inactive" semaphore is given and the serve slot is overwritten. */
  function WallCallback(side: Side, score: uint32, ch: Channels): (r: Scored)
    ensures r.score == (score + 1) % UINT32_MODULUS
    ensures r.channels.ballInactive
    ensures r.channels.startDirectionQueue == Some(StartDirection(side))
    ensures ScoreCreated(side, ch) ==> ScoreQueue(side, r.channels) == Some(r.score)
    ensures !ScoreCreated(side, ch) ==> ScoreQueue(side, r.channels) == ScoreQueue(side, ch)
    ensures side == LeftWall ==> r.channels.rightScoreQueue == ch.rightScoreQueue
    ensures side == RightWall ==> r.channels.leftScoreQueue == ch.leftScoreQueue
    ensures r.channels.leftScoreCreated == ch.leftScoreCreated
    ensures r.channels.rightScoreCreated == ch.rightScoreCreated
  {
    var s := (score + 1) % UINT32_MODULUS;
    var published :=
      if side == LeftWall then
        (if ch.leftScoreCreated then ch.(leftScoreQueue := Overwrite(ch.leftScoreQueue, s)) else ch)
      else
        (if ch.rightScoreCreated then ch.(rightScoreQueue := Overwrite(ch.rightScoreQueue, s)) else ch);
    Scored(s, published.(ballInactive := true,
                         startDirectionQueue := Overwrite(published.startDirectionQueue, StartDirection(side))))
  }

  /** n hits on the same wall with no control tick in between. */
  function Hits(side: Side, score: uint32, ch: Channels, n: nat): Scored
  {
    if n == 0 then Scored(score, ch)
    else
      var before := Hits(side, score, ch, n - 1);
      WallCallback(side, before.score, before.channels)
  }

  /** After n hits the score has gone up by n and the score slot holds only that latest value. */
  lemma {:induction false} HitsAccumulate(side: Side, score: uint32, ch: Channels, n: nat)
    requires n > 0
    ensures var r := Hits(side, score, ch, n);
      r.score == (score + n) % UINT32_MODULUS &&
      r.channels.ballInactive && r.channels.startDirectionQueue == Some(StartDirection(side)) &&
      ScoreCreated(side, r.channels) == ScoreCreated(side, ch) &&
      (ScoreCreated(side, ch) ==> ScoreQueue(side, r.channels) == Some(r.score))
  {
    if n > 1 {
      HitsAccumulate(side, score, ch, n - 1);
    }
  }

  /** The control task's local variables. */
  datatype Control = Control(ballActive: bool, ballDirection: uint8, leftScore: uint32, rightScore: uint32, ball: Ball)

  /** The control task before its loop: an inactive ball at the centre with speed (250, 250). */
  function Start(): (c: Control)
    ensures !c.ballActive && c.ballDirection == 0 && c.leftScore == 0 && c.rightScore == 0
    ensures c.ball == AT_CENTRE.(dx := SERVE_SPEED, dy := SERVE_SPEED)
  {
    Control(false, 0, 0, 0, Ball(SCREEN_WIDTH / 2, SCREEN_HEIGHT / 2, 250, 250))
  }

  /** The ball keeps flying this tick: it was active, no wall stopped it and R is not held. */
  predicate KeepsBall(c: Control, ch: Channels, keys: Buttons)
  {
    c.ballActive && !ch.ballInactive && !keys.r
  }

  /** `if (queue) xQueueReceive(queue, &dest, 0);` */
  function ReceiveIfCreated(created: bool, cell: Option<uint32>, dest: uint32): (p: Polled<uint32>)
    ensures p.cell == if created then None else cell
    ensures p.dest == if created && cell.Some? then cell.value else dest
  {
    if created then Receive(cell, dest) else Polled(cell, dest)
  }

  /** The control task's locals and the shared channels partway through a tick. */
  datatype Stage = Stage(control: Control, channels: Channels)

  /** The R key: stop the ball at the centre and set the scores to 0 and 1. */
  function ResetIfHeld(c: Control, keys: Buttons): (r: Control)
    ensures keys.r ==> r == Control(false, c.ballDirection, 0, 1, AT_CENTRE)
    ensures !keys.r ==> r == c
  {
    if keys.r then c.(ballActive := false, ball := AT_CENTRE, leftScore := 0, rightScore := 1) else c
  }

  /** Taking BallInactive without blocking, then, for an inactive ball, holding
      it at the centre until a paddle key is seen and serving it from the
      serve slot. The scores and the score queues are not touched. */
  function ServeStep(c: Control, ch: Channels, keys: Buttons): (s: Stage)
    ensures !s.channels.ballInactive
    ensures s.control.ballActive <==> (c.ballActive && !ch.ballInactive) || AnyKey(keys)
    ensures c.ballActive && !ch.ballInactive ==> s == Stage(c, ch)
    ensures !(c.ballActive && !ch.ballInactive) && !AnyKey(keys) ==>
      s == Stage(c.(ballActive := false, ball := AT_CENTRE), ch.(ballInactive := false))
    ensures !(c.ballActive && !ch.ballInactive) && AnyKey(keys) ==>
      s.control.ballDirection == (if ch.startDirectionQueue.Some? then ch.startDirectionQueue.value else c.ballDirection) &&
      s.control.ball == Served(s.control.ballDirection) &&
      s.control.leftScore == c.leftScore && s.control.rightScore == c.rightScore &&
      s.channels == ch.(ballInactive := false, startDirectionQueue := None)
  {
    var active := c.ballActive && !ch.ballInactive;
    var ch1 := ch.(ballInactive := false);
    var c1 := c.(ballActive := active);
    if active then Stage(c1, ch1)
    else if !AnyKey(keys) then Stage(c1.(ball := AT_CENTRE), ch1)
    else
      var dir := Receive(ch1.startDirectionQueue, c1.ballDirection);
      Stage(c1.(ballActive := true, ballDirection := dir.dest, ball := Served(dir.dest)),
            ch1.(startDirectionQueue := dir.cell))
  }

  /** Polling both score queues, if created, into the displayed scores. */
  function PollScores(s: Stage): (r: Stage)
    ensures r.control == s.control.(
      leftScore := ReceiveIfCreated(s.channels.leftScoreCreated, s.channels.leftScoreQueue, s.control.leftScore).dest,
      rightScore := ReceiveIfCreated(s.channels.rightScoreCreated, s.channels.rightScoreQueue, s.control.rightScore).dest)
    ensures r.channels == s.channels.(
      leftScoreQueue := if s.channels.leftScoreCreated then None else s.channels.leftScoreQueue,
      rightScoreQueue := if s.channels.rightScoreCreated then None else s.channels.rightScoreQueue)
  {
    var left := ReceiveIfCreated(s.channels.leftScoreCreated, s.channels.leftScoreQueue, s.control.leftScore);
    var right := ReceiveIfCreated(s.channels.rightScoreCreated, s.channels.rightScoreQueue, s.control.rightScore);
    Stage(s.control.(leftScore := left.dest, rightScore := right.dest),
          s.channels.(leftScoreQueue := left.cell, rightScoreQueue := right.cell))
  }

  /** Everything one tick of the control task changes, and the command it sends. */
  datatype TickOutcome = TickOutcome(control: Control, channels: Channels, buttons: ButtonState, sent: Option<uint8>)

  /** One tick of vPongControlTask after DrawReady was taken, up to the poll of the score queues. */
  function ControlTick(c: Control, ch: Channels, io: ButtonState): (r: TickOutcome)
    ensures r.buttons == Refresh(io)
    ensures r.sent == if Refresh(io).table.p then Some(StateMachine.NEXT_TASK) else None
    ensures !r.channels.ballInactive
    ensures var keys := Refresh(io).table;
      r.control.ballActive <==> KeepsBall(c, ch, keys) || AnyKey(keys)
    ensures var keys := Refresh(io).table;
      KeepsBall(c, ch, keys) ==>
        r.control.ball == c.ball && r.control.ballDirection == c.ballDirection &&
        r.channels.startDirectionQueue == ch.startDirectionQueue
    ensures var keys := Refresh(io).table;
      !KeepsBall(c, ch, keys) && !AnyKey(keys) ==>
        r.control.ball == AT_CENTRE && r.control.ballDirection == c.ballDirection &&
        r.channels.startDirectionQueue == ch.startDirectionQueue
    ensures var keys := Refresh(io).table;
      !KeepsBall(c, ch, keys) && AnyKey(keys) ==>
        r.control.ballDirection == (if ch.startDirectionQueue.Some? then ch.startDirectionQueue.value else c.ballDirection) &&
        r.control.ball == Served(r.control.ballDirection) &&
        r.channels.startDirectionQueue == None
    ensures var keys := Refresh(io).table;
      r.control.leftScore ==
        if ch.leftScoreCreated && ch.leftScoreQueue.Some? then ch.leftScoreQueue.value
        else if keys.r then 0 else c.leftScore
    ensures var keys := Refresh(io).table;
      r.control.rightScore ==
        if ch.rightScoreCreated && ch.rightScoreQueue.Some? then ch.rightScoreQueue.value
        else if keys.r then 1 else c.rightScore
    ensures r.channels.leftScoreQueue == if ch.leftScoreCreated then None else ch.leftScoreQueue
    ensures r.channels.rightScoreQueue == if ch.rightScoreCreated then None else ch.rightScoreQueue
    ensures r.channels.leftScoreCreated == ch.leftScoreCreated
    ensures r.channels.rightScoreCreated == ch.rightScoreCreated
  {
    var io1 := Refresh(io);
    var keys := io1.table;
    var sent := if keys.p then Some(StateMachine.NEXT_TASK) else None;
    var polled := PollScores(ServeStep(ResetIfHeld(c, keys), ch, keys));
    TickOutcome(polled.control, polled.channels, io1, sent)
  }

  /** R is applied as written: the left score becomes 0 but the right score
      becomes 1; a score already waiting in a queue still wins the poll. */
  lemma ResetAsWritten(c: Control, ch: Channels, io: ButtonState)
    requires Refresh(io).table.r
    ensures var r := ControlTick(c, ch, io);
      (!(ch.leftScoreCreated && ch.leftScoreQueue.Some?) ==> r.control.leftScore == 0) &&
      (!(ch.rightScoreCreated && ch.rightScoreQueue.Some?) ==> r.control.rightScore == 1) &&
      (r.control.ballActive <==> AnyKey(Refresh(io).table)) &&
      (!AnyKey(Refresh(io).table) ==> r.control.ball == AT_CENTRE)
  {
  }

  /** On the tick after a wall hit the flag stops the ball: with no paddle key
      held it rests at the centre, the serve slot keeps the wall's direction
      and the owning side's score shows the new value. */
  lemma WallHitStopsBall(side: Side, score: uint32, c: Control, ch: Channels, io: ButtonState)
    requires !AnyKey(Refresh(io).table)
    ensures var hit := WallCallback(side, score, ch);
      var r := ControlTick(c, hit.channels, io);
      !r.control.ballActive && r.control.ball == AT_CENTRE &&
      r.channels.startDirectionQueue == Some(StartDirection(side)) &&
      (ScoreCreated(side, ch) && side == LeftWall ==> r.control.leftScore == hit.score) &&
      (ScoreCreated(side, ch) && side == RightWall ==> r.control.rightScore == hit.score)
  {
  }

  /** After a wall hit, a tick with no key and then any tick with a paddle key
      serve the ball from the centre towards that wall's side: (-250, 250)
      after the left wall, (250, 250) after the right wall. */
  lemma ServeAfterWallHit(side: Side, score: uint32, c: Control, ch: Channels, io1: ButtonState, io2: ButtonState)
    requires !AnyKey(Refresh(io1).table)
    requires AnyKey(Refresh(io2).table)
    ensures var hit := WallCallback(side, score, ch);
      var t1 := ControlTick(c, hit.channels, io1);
      var t2 := ControlTick(t1.control, t1.channels, io2);
      t2.control.ballActive && t2.control.ballDirection == StartDirection(side) &&
      t2.control.ball == Ball(SCREEN_WIDTH / 2, SCREEN_HEIGHT / 2,
                              if side == LeftWall then -SERVE_SPEED else SERVE_SPEED, SERVE_SPEED) &&
      t2.channels.startDirectionQueue == None
  {
    var hit := WallCallback(side, score, ch);
    var t1 := ControlTick(c, hit.channels, io1);
    assert !KeepsBall(t1.control, t1.channels, Refresh(io2).table);
  }

  /** With nothing in the serve slot the direction variable keeps its value, so
      the first serve of the game (direction 0) goes to the right. */
  lemma FirstServeGoesRight(ch: Channels, io: ButtonState)
    requires ch.startDirectionQueue == None && !ch.ballInactive
    requires AnyKey(Refresh(io).table)
    ensures var r := ControlTick(Start(), ch, io);
      r.control.ballActive && r.control.ballDirection == 0 &&
      r.control.ball == Ball(SCREEN_WIDTH / 2, SCREEN_HEIGHT / 2, SERVE_SPEED, SERVE_SPEED)
  {
  }

  /** After n hits on one wall, one poll by the control task sees only the
      latest score, the owner's score plus n. */
  lemma ConsumerSeesLatestScore(side: Side, score: uint32, ch: Channels, n: nat, c: Control, io: ButtonState)
    requires n > 0 && ScoreCreated(side, ch)
    ensures var h := Hits(side, score, ch, n);
      var r := ControlTick(c, h.channels, io);
      (side == LeftWall ==> r.control.leftScore == (score + n) % UINT32_MODULUS) &&
      (side == RightWall ==> r.control.rightScore == (score + n) % UINT32_MODULUS)
  {
    HitsAccumulate(side, score, ch, n);
  }

  /** P held during a running tick sends NEXT; once the state machine takes it
      outside the debounce window the game is paused: the control and paddle
      tasks are suspended and the paused-overlay task resumed. */
  lemma PauseKeyPauses(m: StateMachine.Machine, now: uint32, c: Control, ch: Channels, io: ButtonState)
    requires StateMachine.Settled(m) && m.current == StateMachine.STATE_ONE
    requires StateMachine.Elapsed(m.lastChange, now) > StateMachine.STATE_DEBOUNCE_DELAY
    requires Refresh(io).table.p
    ensures var sent := ControlTick(c, ch, io).sent;
      sent.Some? &&
      var m1 := StateMachine.Iteration(m, now, sent.value);
      m1.current == StateMachine.STATE_TWO &&
      m1.tasks == StateMachine.TaskFlags(true, false, false, false)
  {
  }

  /** The shared queue handles and the BallInactive semaphore (file-scope statics of main.c). */
  class Shared {
    var leftScoreCreated: bool
    var leftScoreQueue: Option<uint32>
    var rightScoreCreated: bool
    var rightScoreQueue: Option<uint32>
    var startDirectionQueue: Option<uint8>
    var ballInactive: bool

    function Model(): Channels
      reads this
    {
      Channels(leftScoreCreated, leftScoreQueue, rightScoreCreated, rightScoreQueue, startDirectionQueue, ballInactive)
    }

    /** Before any task runs: both score queue handles are NULL. */
    constructor ()
      ensures Model() == Channels(false, None, false, None, None, false)
    {
      leftScoreCreated, leftScoreQueue := false, None;
      rightScoreCreated, rightScoreQueue := false, None;
      startDirectionQueue, ballInactive := None, false;
    }
  }

  /** vRightWallCallback with the right player's data as its context. */
  method RightWallCallback(playerData: Player, sh: Shared)
    modifies playerData`score, sh
    ensures var r := WallCallback(RightWall, old(playerData.score), old(sh.Model()));
      playerData.score == r.score && sh.Model() == r.channels
  {
    playerData.score := (playerData.score + 1) % UINT32_MODULUS;
    if sh.rightScoreCreated {
      sh.rightScoreQueue := Overwrite(sh.rightScoreQueue, playerData.score);
    }
    sh.ballInactive := true;
    sh.startDirectionQueue := Overwrite(sh.startDirectionQueue, START_RIGHT);
  }

  /** vLeftWallCallback with the left player's data as its context. */
  method LeftWallCallback(playerData: Player, sh: Shared)
    modifies playerData`score, sh
    ensures var r := WallCallback(LeftWall, old(playerData.score), old(sh.Model()));
      playerData.score == r.score && sh.Model() == r.channels
  {
    playerData.score := (playerData.score + 1) % UINT32_MODULUS;
    if sh.leftScoreCreated {
      sh.leftScoreQueue := Overwrite(sh.leftScoreQueue, playerData.score);
    }
    sh.ballInactive := true;
    sh.startDirectionQueue := Overwrite(sh.startDirectionQueue, START_LEFT);
  }

  /** The set-up of vRightPaddleTask: its player data and its score queue.
      `created` is whether xQueueCreate returned a handle (false for NULL). */
  method StartRightPaddleTask(sh: Shared, created: bool) returns (rightPlayer: Player)
    modifies sh
    ensures fresh(rightPlayer)
    ensures rightPlayer.paddlePosition == PADDLE_Y_INCREMENTS / 2 && rightPlayer.score == 0
    ensures sh.Model() == old(sh.Model()).(rightScoreCreated := created, rightScoreQueue := None)
  {
    rightPlayer := new Player();
    sh.rightScoreCreated, sh.rightScoreQueue := created, None;
  }

  /** The set-up of vLeftPaddleTask: its player data and its score queue.
      `created` is whether xQueueCreate returned a handle (false for NULL). */
  method StartLeftPaddleTask(sh: Shared, created: bool) returns (leftPlayer: Player)
    modifies sh
    ensures fresh(leftPlayer)
    ensures leftPlayer.paddlePosition == PADDLE_Y_INCREMENTS / 2 && leftPlayer.score == 0
    ensures sh.Model() == old(sh.Model()).(leftScoreCreated := created, leftScoreQueue := None)
  {
    leftPlayer := new Player();
    sh.leftScoreCreated, sh.leftScoreQueue := created, None;
  }

  /** vPongControlTask's local state. */
  class PongControlTask {
    var ballActive: bool
    var ballDirection: uint8
    var leftScore: uint32
    var rightScore: uint32
    var ball: Ball

    function Model(): Control
      reads this
    {
      Control(ballActive, ballDirection, leftScore, rightScore, ball)
    }

    /** The task's set-up: the ball, its locals, BallInactive and StartDirectionQueue. */
    constructor (sh: Shared)
      modifies sh
      ensures Model() == Start()
      ensures sh.Model() == old(sh.Model()).(startDirectionQueue := None, ballInactive := false)
    {
      var newBall := Ball(SCREEN_WIDTH / 2, SCREEN_HEIGHT / 2, 0, 0);
      ballActive := false;
      ballDirection := 0;
      leftScore := 0;
      rightScore := 0;
      sh.ballInactive := false;
      sh.startDirectionQueue := None;
      ball := newBall.(dx := SERVE_SPEED, dy := SERVE_SPEED);
    }

    /** One tick of the control loop. The NEXT command a held P sends to the
        state queue is returned for the state machine task to receive. */
    method Tick(io: ButtonsBuffer, sh: Shared) returns (sent: Option<uint8>)
      modifies this, io, sh
      ensures var r := ControlTick(old(Model()), old(sh.Model()), old(io.Model()));
        Model() == r.control && sh.Model() == r.channels && io.Model() == r.buttons && sent == r.sent
    {
      io.GetButtonInput();
      sent := None;
      if io.buttons.p {
        sent := Some(StateMachine.NEXT_TASK);
      }
      HandleResetKey(io.buttons);
      HandleBall(io, sh);
      PollScoreQueues(sh);
    }

    /** The R key of the tick. */
    method HandleResetKey(keys: Buttons)
      modifies this
      ensures Model() == ResetIfHeld(old(Model()), keys)
    {
      if keys.r {
        ballActive := false;
        ball := ball.(x := SCREEN_WIDTH / 2, y := SCREEN_HEIGHT / 2);
        ball := ball.(dx := 0, dy := 0);
        leftScore := 0;
        rightScore := 1;
      }
    }

    /** The non-blocking take of BallInactive and the serve of an inactive ball. */
    method HandleBall(io: ButtonsBuffer, sh: Shared)
      requires io.inputQueue == None
      modifies this, io, sh
      ensures io.Model() == old(io.Model())
      ensures Stage(Model(), sh.Model()) == ServeStep(old(Model()), old(sh.Model()), io.buttons)
    {
      if sh.ballInactive {
        sh.ballInactive := false;
        ballActive := false;
      }
      if !ballActive {
        ball := ball.(x := SCREEN_WIDTH / 2, y := SCREEN_HEIGHT / 2);
        ball := ball.(dx := 0, dy := 0);
        var input := CheckForInput(io);
        if input != 0 {
          var dir := Receive(sh.startDirectionQueue, ballDirection);
          sh.startDirectionQueue, ballDirection := dir.cell, dir.dest;
          ballActive := true;
          if ballDirection == START_LEFT {
            ball := ball.(dx := -SERVE_SPEED, dy := SERVE_SPEED);
          } else {
            ball := ball.(dx := SERVE_SPEED, dy := SERVE_SPEED);
          }
        }
      }
    }

    /** The non-blocking polls of the two score queues, each only if created. */
    method PollScoreQueues(sh: Shared)
      modifies this, sh
      ensures Stage(Model(), sh.Model()) == PollScores(Stage(old(Model()), old(sh.Model())))
    {
      if sh.leftScoreCreated {
        var left := Receive(sh.leftScoreQueue, leftScore);
        sh.leftScoreQueue, leftScore := left.cell, left.dest;
      }
      if sh.rightScoreCreated {
        var right := Receive(sh.rightScoreQueue, rightScore);
        sh.rightScoreQueue, rightScore := right.cell, right.dest;
      }
    }
  }
}
