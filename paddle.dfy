/** Paddle input: the shared button table, the bounded paddle index and the
    functions that read the table with "up before down" priority. */
module Paddle {
  import opened CTypes
  import opened Mailbox

  const SCREEN_HEIGHT: int := 480
  const PADDLE_Y_INCREMENT: int := 5
  const PADDLE_LENGTH: int := SCREEN_HEIGHT / 5
  /** Usable paddle travel in increments: (480 - 96) / 5 == 76. */
  const PADDLE_Y_INCREMENTS: uint16 := (SCREEN_HEIGHT - PADDLE_LENGTH) / PADDLE_Y_INCREMENT

  /** The entries of the button table that the core reads (non-zero means held). */
  datatype Buttons = Buttons(up: bool, down: bool, w: bool, s: bool, p: bool, r: bool)

  /** The button table and the input backend's capacity-one snapshot queue. */
  datatype ButtonState = ButtonState(table: Buttons, queue: Option<Buttons>)

  /** xGetButtonInput: copy a pending snapshot into the table, if there is one. */
  function Refresh(io: ButtonState): (r: ButtonState)
    ensures r.queue == None
    ensures r.table == if io.queue.Some? then io.queue.value else io.table
  {
    var p := Receive(io.queue, io.table);
    ButtonState(p.dest, p.cell)
  }

  /** Refreshing twice in a row is refreshing once: the second call finds the queue empty. */
  lemma RefreshIdempotent(io: ButtonState)
    ensures Refresh(Refresh(io)) == Refresh(io)
  {
  }

  /** The index after vIncrementPaddleY: one step towards the top, stopping at 0. */
  function Raised(y: uint16): (r: uint16)
    ensures r <= y && y - r <= 1
    ensures r == y <==> y == 0
    ensures y <= PADDLE_Y_INCREMENTS ==> r <= PADDLE_Y_INCREMENTS
  {
    if y != 0 then y - 1 else y
  }

  /** The index after vDecrementPaddleY: one step towards the bottom, stopping
      at PADDLE_Y_INCREMENTS; beyond it the unsigned short increment wraps. */
  function Lowered(y: uint16): (r: uint16)
    ensures y < PADDLE_Y_INCREMENTS ==> r == y + 1
    ensures r == y <==> y == PADDLE_Y_INCREMENTS
    ensures y > PADDLE_Y_INCREMENTS ==> r == (y + 1) % 0x1_0000
    ensures y <= PADDLE_Y_INCREMENTS ==> r <= PADDLE_Y_INCREMENTS
  {
    if y != PADDLE_Y_INCREMENTS then (y + 1) % 0x1_0000 else y
  }

  /** Inside the travel, a step down undoes a step up and vice versa. */
  lemma RaiseLowerInverse(y: uint16)
    requires y <= PADDLE_Y_INCREMENTS
    ensures 0 < y ==> Lowered(Raised(y)) == y
    ensures y < PADDLE_Y_INCREMENTS ==> Raised(Lowered(y)) == y
  {
  }

  /** What a side's input check does given whether its up and down keys are
      held: whether it reports a key, and the resulting paddle index. */
  datatype Move = Move(pressed: bool, position: uint16)

  function CheckKeys(upHeld: bool, downHeld: bool, y: uint16): (m: Move)
    ensures m.pressed <==> upHeld || downHeld
    ensures upHeld ==> m.position == Raised(y)
    ensures !upHeld && downHeld ==> m.position == Lowered(y)
    ensures !upHeld && !downHeld ==> m.position == y
    ensures y <= PADDLE_Y_INCREMENTS ==> m.position <= PADDLE_Y_INCREMENTS
    ensures y <= PADDLE_Y_INCREMENTS ==> -1 <= m.position - y <= 1
  {
    if upHeld then Move(true, Raised(y))
    else if downHeld then Move(true, Lowered(y))
    else Move(false, y)
  }

  /** Any key either paddle responds to (W, S, UP, DOWN). */
  predicate AnyKey(b: Buttons)
  {
    b.w || b.s || b.up || b.down
  }

  /** A paddle's index after one input check per (up held, down held) pair, in
      order: (UP, DOWN) for the right paddle, (W, S) for the left one. */
  function Travel(y: uint16, presses: seq<(bool, bool)>): uint16
    decreases |presses|
  {
    if presses == [] then y
    else Travel(CheckKeys(presses[0].0, presses[0].1, y).position, presses[1..])
  }

  /** Holding any number of keys, a paddle that starts inside its travel stays inside it. */
  lemma {:induction false} PaddleStaysInTravel(y: uint16, presses: seq<(bool, bool)>)
    requires y <= PADDLE_Y_INCREMENTS
    ensures Travel(y, presses) <= PADDLE_Y_INCREMENTS
    decreases |presses|
  {
    if presses != [] {
      PaddleStaysInTravel(CheckKeys(presses[0].0, presses[0].1, y).position, presses[1..]);
    }
  }

  /** player_data_t without its paddle wall: the paddle index and the score. */
  class Player {
    var paddlePosition: uint16
    var score: uint32

    /** Zero-initialised, then the index is set to the middle of the travel. */
    constructor ()
      ensures paddlePosition == PADDLE_Y_INCREMENTS / 2 && score == 0
    {
      paddlePosition := PADDLE_Y_INCREMENTS / 2;
      score := 0;
    }
  }

  /** The global `buttons` buffer together with the input backend's queue. */
  class ButtonsBuffer {
    var buttons: Buttons
    var inputQueue: Option<Buttons>

    function Model(): ButtonState
      reads this
    {
      ButtonState(buttons, inputQueue)
    }

    /** xGetButtonInput: a non-blocking receive from the input queue into the table. */
    method GetButtonInput()
      modifies this
      ensures Model() == Refresh(old(Model()))
    {
      var p := Receive(inputQueue, buttons);
      buttons := p.dest;
      inputQueue := p.cell;
    }
  }

  /** vIncrementPaddleY: move up one step through a possibly null pointer. */
  method IncrementPaddleY(paddle: Player?)
    modifies paddle
    ensures paddle != null ==> paddle.paddlePosition == Raised(old(paddle.paddlePosition))
    ensures paddle != null ==> paddle.score == old(paddle.score)
  {
    if paddle != null {
      if paddle.paddlePosition != 0 {
        paddle.paddlePosition := paddle.paddlePosition - 1;
      }
    }
  }

  /** vDecrementPaddleY: move down one step through a possibly null pointer. */
  method DecrementPaddleY(paddle: Player?)
    modifies paddle
    ensures paddle != null ==> paddle.paddlePosition == Lowered(old(paddle.paddlePosition))
    ensures paddle != null ==> paddle.score == old(paddle.score)
  {
    if paddle != null {
      if paddle.paddlePosition != PADDLE_Y_INCREMENTS {
        paddle.paddlePosition := (paddle.paddlePosition + 1) % 0x1_0000;
      }
    }
  }

  /** xCheckPongRightInput: refresh the table, then UP moves the paddle up; only
      when UP is not held does DOWN move it down. Returns 1 iff one was held. */
  method CheckPongRightInput(io: ButtonsBuffer, rightPlayer: Player?) returns (r: uint8)
    modifies io, rightPlayer
    ensures io.Model() == Refresh(old(io.Model()))
    ensures r == if io.buttons.up || io.buttons.down then 1 else 0
    ensures rightPlayer != null ==> rightPlayer.score == old(rightPlayer.score)
    ensures rightPlayer != null ==>
      rightPlayer.paddlePosition == CheckKeys(io.buttons.up, io.buttons.down, old(rightPlayer.paddlePosition)).position
  {
    io.GetButtonInput();
    if io.buttons.up {
      IncrementPaddleY(rightPlayer);
      return 1;
    }
    if io.buttons.down {
      DecrementPaddleY(rightPlayer);
      return 1;
    }
    return 0;
  }

  /** xCheckPongLeftInput: as the right side, with W for up and S for down. */
  method CheckPongLeftInput(io: ButtonsBuffer, leftPlayer: Player?) returns (r: uint8)
    modifies io, leftPlayer
    ensures io.Model() == Refresh(old(io.Model()))
    ensures r == if io.buttons.w || io.buttons.s then 1 else 0
    ensures leftPlayer != null ==> leftPlayer.score == old(leftPlayer.score)
    ensures leftPlayer != null ==>
      leftPlayer.paddlePosition == CheckKeys(io.buttons.w, io.buttons.s, old(leftPlayer.paddlePosition)).position
  {
    io.GetButtonInput();
    if io.buttons.w {
      IncrementPaddleY(leftPlayer);
      return 1;
    }
    if io.buttons.s {
      DecrementPaddleY(leftPlayer);
      return 1;
    }
    return 0;
  }

  /** xCheckForInput: the left keys, then (only if none) the right keys, moving no paddle. */
  method CheckForInput(io: ButtonsBuffer) returns (r: uint8)
    modifies io
    ensures io.Model() == Refresh(old(io.Model()))
    ensures r == if AnyKey(io.buttons) then 1 else 0
  {
    var left := CheckPongLeftInput(io, null);
    if left != 0 {
      return 1;
    }
    var right := CheckPongRightInput(io, null);
    if right != 0 {
      return 1;
    }
    return 0;
  }
}
