/** Deferred sampler creation (src/gr/gl/Sampler.cpp): `Sampler::create`
    installs a fresh implementation object and records one
    `CreateSamplerCommand` into a new command buffer, which it flushes to
    the queue of the thread that owns the GL context; that thread later
    runs the command, which builds the GL sampler and marks the object
    created. Threads are not modelled: flushing appends to the queue and
    running a command is a call. */
module Samplers {
  import opened Common

  /** `GlObject::State`: the lifecycle of a GL object, in order. */
  datatype ObjectState = New | ToBeCreated | Created | ToBeDestroyed | Destroyed

  /** Position of a state in the lifecycle. */
  function Rank(s: ObjectState): (n: nat)
    ensures n < 5
  {
    match s
    case New => 0
    case ToBeCreated => 1
    case Created => 2
    case ToBeDestroyed => 3
    case Destroyed => 4
  }

  /** A move to the very next state of the lifecycle. */
  predicate IsForwardStep(from: ObjectState, to: ObjectState)
  {
    Rank(to) == Rank(from) + 1
  }

  /** A sequence of observed states that only ever steps forward. */
  predicate ForwardOnly(states: seq<ObjectState>)
  {
    forall i :: 0 < i < |states| ==> IsForwardStep(states[i - 1], states[i])
  }

  /** Every history that steps forward one state at a time follows the
      lifecycle from its first state: no state is skipped or revisited. */
  lemma {:induction false} ForwardOnlyFollowsLifecycle(states: seq<ObjectState>)
    requires ForwardOnly(states) && |states| > 0
    ensures |states| <= 5 - Rank(states[0])
    ensures forall i :: 0 <= i < |states| ==> Rank(states[i]) == Rank(states[0]) + i
  {
    if |states| > 1 {
      var n := |states|;
      var prefix := states[..n - 1];
      assert ForwardOnly(prefix) by {
        forall i | 0 < i < |prefix| ensures IsForwardStep(prefix[i - 1], prefix[i]) {
          assert IsForwardStep(states[i - 1], states[i]);
        }
      }
      ForwardOnlyFollowsLifecycle(prefix);
      assert Rank(states[n - 2]) == Rank(states[0]) + n - 2 by { assert prefix[n - 2] == states[n - 2]; }
      assert IsForwardStep(states[n - 2], states[n - 1]);
    }
  }

  datatype SamplingFilter = Nearest | Linear

  /** `SamplerInitializer`, a value the command captures by copy. */
  datatype SamplerInitializer = SamplerInitializer(
    minMagFilter: SamplingFilter,
    mipmapFilter: SamplingFilter,
    anisotropyLevel: nat,
    repeat: bool)

  /** What happens to an implementation object, in order. */
  datatype ImplEvent = PayloadCreated(init: SamplerInitializer) | StateSwapped(from: ObjectState, to: ObjectState)

  /** The states an implementation object that started in `start` has been
      in: `start`, then the new state of every swap in `events`. */
  function StateHistory(start: ObjectState, events: seq<ImplEvent>): (h: seq<ObjectState>)
    ensures |h| >= 1 && h[0] == start
  {
    if events == [] then [start]
    else
      var h := StateHistory(start, events[..|events| - 1]);
      match events[|events| - 1]
      case StateSwapped(_, to) => h + [to]
      case PayloadCreated(_) => h
  }

  /** Running a creation command on an object whose history stepped forward
      and now stands at `TO_BE_CREATED` keeps the history stepping forward,
      and ends it at `CREATED`. */
  lemma {:induction false} CreationStepsForward(start: ObjectState, events: seq<ImplEvent>, init: SamplerInitializer)
    requires ForwardOnly(StateHistory(start, events))
    requires StateHistory(start, events)[|StateHistory(start, events)| - 1] == ToBeCreated
    ensures var h := StateHistory(start, events + [PayloadCreated(init), StateSwapped(ToBeCreated, Created)]);
      ForwardOnly(h) && h == StateHistory(start, events) + [Created]
  {
    var h := StateHistory(start, events);
    var mid := events + [PayloadCreated(init)];
    var all := mid + [StateSwapped(ToBeCreated, Created)];
    assert all == events + [PayloadCreated(init), StateSwapped(ToBeCreated, Created)];
    assert mid[..|mid| - 1] == events;
    assert StateHistory(start, mid) == h;
    assert all[..|all| - 1] == mid;
    assert StateHistory(start, all) == h + [Created];
    var h' := h + [Created];
    forall i | 0 < i < |h'| ensures IsForwardStep(h'[i - 1], h'[i]) {
      if i < |h| {
        assert IsForwardStep(h[i - 1], h[i]);
      }
    }
  }

  /** `SamplerImpl`: the lifecycle state and the GL sampler, identified by
      the initializer it was built from. */
  class SamplerImpl {
    var state: ObjectState
    var payload: Option<SamplerInitializer>
    ghost var events: seq<ImplEvent>

    /** A new implementation object waits for its creation command. */
    constructor ()
      ensures state == ToBeCreated && payload == None && events == []
    {
      state := ToBeCreated;
      payload := None;
      events := [];
    }

    /** `SamplerImpl::create`: builds the GL sampler from `init`. */
    method CreatePayload(init: SamplerInitializer)
      modifies this
      ensures payload == Some(init) && state == old(state)
      ensures events == old(events) + [PayloadCreated(init)]
    {
      payload := Some(init);
      events := events + [PayloadCreated(init)];
    }

    /** `setStateAtomically`: stores `s` and returns the state it replaced. */
    method SetStateAtomically(s: ObjectState) returns (prev: ObjectState)
      modifies this
      ensures prev == old(state) && state == s && payload == old(payload)
      ensures events == old(events) + [StateSwapped(prev, s)]
    {
      prev := state;
      state := s;
      events := events + [StateSwapped(prev, s)];
    }
  }

  /** `Sampler`: the user-facing object; `impl` is `m_impl`. */
  class Sampler {
    var impl: SamplerImpl?

    constructor ()
      ensures impl == null
    {
      impl := null;
    }

    /** `Sampler::create`: a fresh implementation object, and one recorded
        command on a new buffer that is flushed straight away. */
    method Create(init: SamplerInitializer, queue: CommandQueue)
      modifies this, queue
      ensures impl != null && fresh(impl)
      ensures impl.state == ToBeCreated && impl.payload == None && impl.events == []
      ensures |queue.submitted| == |old(queue.submitted)| + 1
      ensures queue.submitted[..|old(queue.submitted)|] == old(queue.submitted)
      ensures queue.submitted[|queue.submitted| - 1] == [CreateSamplerCommand(this, init)]
    {
      impl := new SamplerImpl();
      var cmdb := new CommandBuffer();
      cmdb.PushBack(CreateSamplerCommand(this, init));
      cmdb.Flush(queue);
    }
  }

  /** The commands of this component. `CreateSamplerCommand` holds the
      sampler and a copy of the initializer, taken when it is recorded. */
  datatype Command = CreateSamplerCommand(sampler: Sampler, init: SamplerInitializer)

  /** The buffers flushed so far, in flush order, as their commands. */
  class CommandQueue {
    var submitted: seq<seq<Command>>

    constructor ()
      ensures submitted == []
    {
      submitted := [];
    }
  }

  /** A command buffer: recording until flushed, then immutable. */
  class CommandBuffer {
    var commands: seq<Command>
    var flushed: bool

    constructor ()
      ensures commands == [] && !flushed
    {
      commands := [];
      flushed := false;
    }

    /** `pushBackNewCommand`: appends one command. */
    method PushBack(c: Command)
      requires !flushed
      modifies this
      ensures commands == old(commands) + [c] && !flushed
    {
      commands := commands + [c];
    }

    /** `flush`: hands the recorded commands, in order, to the queue. */
    method Flush(queue: CommandQueue)
      requires !flushed
      modifies this, queue
      ensures flushed && commands == old(commands)
      ensures queue.submitted == old(queue.submitted) + [commands]
    {
      flushed := true;
      queue.submitted := queue.submitted + [commands];
    }
  }

  /** `CreateSamplerCommand::operator()`: builds the GL sampler from the
      captured initializer, then moves the object from `TO_BE_CREATED`
      (asserted) to `CREATED`. It always succeeds. */
  method Execute(cmd: Command) returns (err: Error)
    requires cmd.sampler.impl != null
    requires cmd.sampler.impl.state == ToBeCreated
    modifies cmd.sampler.impl
    ensures err == NoError
    ensures cmd.sampler.impl.state == Created && cmd.sampler.impl.payload == Some(cmd.init)
    ensures IsForwardStep(old(cmd.sampler.impl.state), cmd.sampler.impl.state)
    ensures cmd.sampler.impl.events ==
      old(cmd.sampler.impl.events) + [PayloadCreated(cmd.init), StateSwapped(ToBeCreated, Created)]
  {
    var impl := cmd.sampler.impl;
    impl.CreatePayload(cmd.init);
    var oldState := impl.SetStateAtomically(Created);
    assert oldState == ToBeCreated;
    err := NoError;
  }

  /** Creating a sampler and then running what was flushed leaves it
      created from the initializer given at creation, having stepped
      forward from `TO_BE_CREATED` to `CREATED`. The command holds its own
      copy of the initializer because `SamplerInitializer` is a value
      type, as the copy the command's constructor takes is. */
  method CreateThenRun(sampler: Sampler, init: SamplerInitializer, queue: CommandQueue)
    returns (err: Error)
    modifies sampler, queue
    ensures sampler.impl != null && fresh(sampler.impl)
    ensures err == NoError
    ensures sampler.impl.state == Created && sampler.impl.payload == Some(init)
    ensures sampler.impl.events == [PayloadCreated(init), StateSwapped(ToBeCreated, Created)]
    ensures StateHistory(ToBeCreated, sampler.impl.events) == [ToBeCreated, Created]
    ensures ForwardOnly(StateHistory(ToBeCreated, sampler.impl.events))
  {
    sampler.Create(init, queue);
    var buffer := queue.submitted[|queue.submitted| - 1];
    err := Execute(buffer[0]);
    CreationStepsForward(ToBeCreated, [], init);
  }
}
