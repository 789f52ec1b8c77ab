/** The game's state machine task (basicSequentialStateMachine in main.c):
    a cyclic set of two states, Running and Paused, whose transitions arrive
    as NEXT/PREV commands on the state queue and are accepted only outside a
    debounce window. Entering a state suspends or resumes the other tasks;
    suspension is modelled by one "active" flag per task. */
module StateMachine {
  import opened CTypes

  const STATE_COUNT: uint8 := 2
  const STATE_ONE: uint8 := 0  // running
  const STATE_TWO: uint8 := 1  // paused
  const NEXT_TASK: uint8 := 0
  const PREV_TASK: uint8 := 1
  const STARTING_STATE: uint8 := STATE_ONE
  const STATE_DEBOUNCE_DELAY: int := 100

  /** changeState: step the state index forwards or backwards with wrap-around;
      any other signal leaves it alone. The pointer the C code writes through
      becomes the result. */
  function ChangeState(state: uint8, forwards: uint8): (r: uint8)
    ensures forwards == NEXT_TASK && state < STATE_COUNT ==> r == (state + 1) % STATE_COUNT
    ensures forwards == PREV_TASK && state < STATE_COUNT ==> r == (state - 1) % STATE_COUNT
    ensures forwards == NEXT_TASK && state >= STATE_COUNT ==> r == (state + 1) % 0x100
    ensures forwards == PREV_TASK && state >= STATE_COUNT ==> r == state - 1
    ensures forwards != NEXT_TASK && forwards != PREV_TASK ==> r == state
    ensures state < STATE_COUNT ==> r < STATE_COUNT
  {
    if forwards == NEXT_TASK then
      if state == STATE_COUNT - 1 then 0 else (state + 1) % 0x100
    else if forwards == PREV_TASK then
      if state == 0 then STATE_COUNT - 1 else state - 1
    else
      state
  }

  /** NEXT undoes PREV and PREV undoes NEXT on every valid state. */
  lemma NextPrevInverse(state: uint8)
    requires state < STATE_COUNT
    ensures ChangeState(ChangeState(state, NEXT_TASK), PREV_TASK) == state
    ensures ChangeState(ChangeState(state, PREV_TASK), NEXT_TASK) == state
  {
  }

  /** In the two-state machine: NEXT twice from state 0 is state 0, and PREV from 0 is 1. */
  lemma TwoStateWrap()
    ensures ChangeState(ChangeState(0, NEXT_TASK), NEXT_TASK) == 0
    ensures ChangeState(0, PREV_TASK) == 1
  {
  }

  /** The state after n accepted commands, all equal to forwards. */
  function Repeat(state: uint8, forwards: uint8, n: nat): uint8
  {
    if n == 0 then state else ChangeState(Repeat(state, forwards, n - 1), forwards)
  }

  /** n NEXT commands advance the state by n modulo STATE_COUNT. */
  lemma {:induction false} NextCycles(state: uint8, n: nat)
    requires state < STATE_COUNT
    ensures Repeat(state, NEXT_TASK, n) == (state + n) % STATE_COUNT
  {
    if n > 0 {
      NextCycles(state, n - 1);
    }
  }

  /** n PREV commands move the state back by n modulo STATE_COUNT. */
  lemma {:induction false} PrevCycles(state: uint8, n: nat)
    requires state < STATE_COUNT
    ensures Repeat(state, PREV_TASK, n) == (state - n) % STATE_COUNT
  {
    if n > 0 {
      PrevCycles(state, n - 1);
    }
  }

  /** `xTaskGetTickCount() - last_change` computed in the unsigned 32-bit tick type. */
  function Elapsed(last: uint32, now: uint32): (d: uint32)
    ensures last <= now ==> d == now - last
    ensures now < last ==> d == UINT32_MODULUS - last + now
  {
    (now - last) % UINT32_MODULUS
  }

  /** Whether each task the state machine controls is resumed (true) or suspended (false). */
  datatype TaskFlags = TaskFlags(paused: bool, control: bool, leftPaddle: bool, rightPaddle: bool)

  /** main suspends all four tasks before the scheduler starts. */
  const ALL_SUSPENDED := TaskFlags(false, false, false, false)

  /** The dirty handler's switch: STATE_ONE suspends the paused-overlay task and
      resumes control and both paddles, STATE_TWO does the reverse, any other
      state changes nothing. */
  function ApplyState(state: uint8, tasks: TaskFlags): (r: TaskFlags)
    ensures state < STATE_COUNT ==> (r.paused <==> state == STATE_TWO)
    ensures state < STATE_COUNT ==> r.control == r.leftPaddle == r.rightPaddle == !r.paused
    ensures state >= STATE_COUNT ==> r == tasks
  {
    if state == STATE_ONE then
      tasks.(paused := false, control := true, leftPaddle := true, rightPaddle := true)
    else if state == STATE_TWO then
      tasks.(control := false, leftPaddle := false, rightPaddle := false, paused := true)
    else
      tasks
  }

  /** The local variables of basicSequentialStateMachine, with the flags of the tasks it controls. */
  datatype Machine = Machine(current: uint8, changed: bool, lastChange: uint32, input: uint8, tasks: TaskFlags)

  /** The machine before its first iteration: the starting state is marked dirty. */
  function Initial(now: uint32): (m: Machine)
    ensures m.current == STARTING_STATE && m.changed && m.lastChange == now && m.input == 0
    ensures m.tasks == ALL_SUSPENDED
  {
    Machine(STARTING_STATE, true, now, 0, ALL_SUSPENDED)
  }

  /** An iteration receives a command (does not skip the receive) and the command passes the debounce test. */
  predicate Accepts(m: Machine, now: uint32)
  {
    !m.changed && Elapsed(m.lastChange, now) > STATE_DEBOUNCE_DELAY
  }

  /** One iteration of the `while (1)` loop at tick `now`; `received` is the
      command the blocking receive delivers when the iteration does not skip it. */
  function Iteration(m: Machine, now: uint32, received: uint8): (r: Machine)
    ensures !r.changed
    ensures Accepts(m, now) ==> r.current == ChangeState(m.current, received) && r.lastChange == now
    ensures !Accepts(m, now) ==> r.current == m.current && r.lastChange == m.lastChange
    ensures r.input == if m.changed then m.input else received
    ensures r.tasks == if m.changed || Accepts(m, now) then ApplyState(r.current, m.tasks) else m.tasks
    ensures m.current < STATE_COUNT ==> r.current < STATE_COUNT
  {
    var m1 :=
      if m.changed then m
      else if Elapsed(m.lastChange, now) > STATE_DEBOUNCE_DELAY then
        m.(current := ChangeState(m.current, received), changed := true, lastChange := now, input := received)
      else m.(input := received);
    if m1.changed then m1.(tasks := ApplyState(m1.current, m1.tasks), changed := false) else m1
  }

  /** The initial state is applied with no input: the first iteration skips the
      receive, resumes the gameplay tasks and leaves the machine clean. */
  lemma InitialStateApplied(start: uint32, now: uint32, received: uint8)
    ensures var r := Iteration(Initial(start), now, received);
      r.current == STARTING_STATE && !r.changed && r.lastChange == start && r.input == 0 &&
      r.tasks == TaskFlags(false, true, true, true)
  {
  }

  /** A command inside the debounce window is dropped without a trace. */
  lemma RejectedLeavesMachine(m: Machine, now: uint32, received: uint8)
    requires !m.changed
    requires Elapsed(m.lastChange, now) <= STATE_DEBOUNCE_DELAY
    ensures Iteration(m, now, received) == m.(input := received)
  {
  }

  /** Two commands whose ticks lie within the debounce window of each other
      give at most one transition: the first is accepted (it moves the state
      only if it is NEXT or PREV) and the second has no effect. */
  lemma DebounceOneTransition(m: Machine, t1: uint32, c1: uint8, t2: uint32, c2: uint8)
    requires Accepts(m, t1)
    requires Elapsed(t1, t2) <= STATE_DEBOUNCE_DELAY
    ensures var m1 := Iteration(m, t1, c1);
      var m2 := Iteration(m1, t2, c2);
      m1.current == ChangeState(m.current, c1) && m1.lastChange == t1 &&
      m2.current == m1.current && m2.lastChange == t1 && m2.tasks == m1.tasks
    ensures m.current < STATE_COUNT && (c1 == NEXT_TASK || c1 == PREV_TASK) ==>
      Iteration(m, t1, c1).current != m.current
  {
  }

  /** The machine is clean, in range, and the task flags are those its state calls for. */
  ghost predicate Settled(m: Machine)
  {
    !m.changed && m.current < STATE_COUNT && m.tasks == ApplyState(m.current, m.tasks)
  }

  /** A tick and the command that arrives with it. */
  datatype Event = Event(now: uint32, received: uint8)

  /** The machine after one iteration per event, in order. */
  function Run(m: Machine, events: seq<Event>): Machine
    decreases |events|
  {
    if events == [] then m else Run(Iteration(m, events[0].now, events[0].received), events[1..])
  }

  /** After any nonempty run from the initial machine, the paused overlay and
      the gameplay tasks are never resumed together, and the state is in range. */
  lemma {:induction false} AlwaysSettled(start: uint32, events: seq<Event>)
    requires events != []
    ensures Settled(Run(Initial(start), events))
  {
    var first := Iteration(Initial(start), events[0].now, events[0].received);
    assert Settled(first);
    StaysSettled(first, events[1..]);
  }

  /** Every iteration from a settled machine gives a settled machine. */
  lemma {:induction false} StaysSettled(m: Machine, events: seq<Event>)
    requires Settled(m)
    decreases |events|
    ensures Settled(Run(m, events))
  {
    if events != [] {
      var next := Iteration(m, events[0].now, events[0].received);
      assert Settled(next);
      StaysSettled(next, events[1..]);
    }
  }

  /** The state machine task: its loop's local variables and the suspend state
      of the four tasks it controls. */
  class StateMachineTask {
    var currentState: uint8
    var stateChanged: bool
    var lastChange: uint32
    var input: uint8
    var tasks: TaskFlags

    function Model(): Machine
      reads this
    {
      Machine(currentState, stateChanged, lastChange, input, tasks)
    }

    /** The task's entry at tick `now`, with every controlled task suspended by main. */
    constructor (now: uint32)
      ensures Model() == Initial(now)
    {
      currentState := STARTING_STATE;
      stateChanged := true;
      input := 0;
      lastChange := now;
      tasks := ALL_SUSPENDED;
    }

    /** One pass of the loop. `consumed` says whether the pass took `received`
        from the state queue; a dirty state skips the receive. */
    method Step(now: uint32, received: uint8) returns (consumed: bool)
      modifies this
      ensures consumed == !old(stateChanged)
      ensures Model() == Iteration(old(Model()), now, received)
    {
      consumed := false;
      if !stateChanged {
        consumed := true;
        input := received;
        if Elapsed(lastChange, now) > STATE_DEBOUNCE_DELAY {
          currentState := ChangeState(currentState, input);
          stateChanged := true;
          lastChange := now;
        }
      }
      if stateChanged {
        if currentState == STATE_ONE {
          tasks := tasks.(paused := false);
          tasks := tasks.(control := true, leftPaddle := true, rightPaddle := true);
        } else if currentState == STATE_TWO {
          tasks := tasks.(control := false, leftPaddle := false, rightPaddle := false);
          tasks := tasks.(paused := true);
        }
        stateChanged := false;
      }
    }
  }
}
