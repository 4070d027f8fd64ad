/**
  The event factories of the begin stage for network services. A factory keeps the state of one
  registration (its connection state, the cached registration and response, and on the client the
  call options) and offers two triggers, Register and Unregister, that re-issue the cached payload
  to the rest of the chain. Each trigger queues a task on the factory's executor and returns a
  channel of capacity one on which the task reports its error before closing it.

  The executor is the FIFO queue `pending`; `RunNext` runs its head task to completion, with the
  rest of the chain's replies as parameters. What one task does is the function `Step`, and a
  run of several tasks is `Run`; the classes are proved against them.
 */
module NsEventFactory {
  import opened Wrappers
  import opened Api
  import opened BeginState

  /** mergeNS(registration, resp). */
  type NsMerge = (NetworkService, NetworkService) -> NetworkService

  datatype TriggerKind = RegisterTrigger | UnregisterTrigger

  /** A queued trigger task: which trigger queued it, its channel and its cancel context. */
  datatype Trigger = Trigger(kind: TriggerKind, ch: ErrorChannel, cancel: CancelContext)

  /** A call a task makes on the rest of the chain; a nil payload is `None`. */
  datatype NsCall =
    | RegisterCall(ns: Option<NetworkService>, opts: seq<CallOption>)
    | UnregisterCall(ns: Option<NetworkService>, opts: seq<CallOption>)

  /** The fields of a factory that its tasks read and write. */
  datatype FactoryFields = FactoryFields(
    state: ConnectionState,
    registration: Option<NetworkService>,
    response: Option<NetworkService>)

  /**
    What tells the two factories apart: the client passes its cached options, merges a refresh
    reply into the registration, unregisters the cached response and calls its afterClose
    callback only when it was given one; the server passes no options, replaces the registration
    by the reply, unregisters the cached registration and always calls afterClose.
   */
  datatype Side =
    | ClientSide(opts: seq<CallOption>, mergeNs: NsMerge, hasAfterClose: bool)
    | ServerSide
  {
    function Opts(): seq<CallOption> {
      if ClientSide? then opts else []
    }

    function Refreshed(registration: NetworkService, resp: NetworkService): NetworkService {
      if ClientSide? then mergeNs(registration, resp) else resp
    }

    function UnregisterPayload(s: FactoryFields): Option<NetworkService> {
      if ClientSide? then s.response else s.registration
    }

    predicate CallsAfterClose() {
      ClientSide? ==> hasAfterClose
    }
  }

  /** One task as it runs: its trigger, whether its cancel context is done, and next's replies. */
  datatype Task = Task(kind: TriggerKind, cancelled: bool,
                       registerReply: Result<NetworkService, Error>, unregisterErr: Option<Error>)

  /**
    What one task did: the fields afterwards, the call it made, the value it put on its channel
    (`None` when it closed the channel without one) and whether it ran afterCloseFunc.
   */
  datatype Outcome = Outcome(after: FactoryFields, call: Option<NsCall>, sent: Option<Option<Error>>, closed: bool)

  /** A task that returns at once: nothing changes, nothing is called or sent. */
  function Idle(s: FactoryFields): (o: Outcome)
    ensures o.after == s && o.call.None? && o.sent.None? && !o.closed
  {
    Outcome(s, None, None, false)
  }

  /** Whether the task returns at once: a refresh of an entity that is not established, a close
      of one that was never registered, or a task whose cancel context is done. */
  predicate Skips(s: FactoryFields, t: Task) {
    match t.kind
    case RegisterTrigger => s.state != Established || t.cancelled
    case UnregisterTrigger => s.registration.None? || t.cancelled
  }

  /** One trigger task run on a factory in state `s`. */
  function Step(side: Side, s: FactoryFields, t: Task): (o: Outcome)
    ensures Skips(s, t) ==> o == Idle(s)
    ensures o.sent.Some? <==> o.call.Some?
    ensures o.after.response == s.response
    ensures t.kind.RegisterTrigger? ==> o.after.state == s.state && !o.closed
    ensures t.kind.RegisterTrigger? && !Skips(s, t) ==>
      && o.call == Some(RegisterCall(s.registration, side.Opts()))
      && o.sent == Some(t.registerReply.ErrorOrNil())
      && (t.registerReply.Err? || s.registration.None? ==> o.after == s)
      && (t.registerReply.Ok? && s.registration.Some? ==>
            o.after.registration == Some(side.Refreshed(s.registration.value, t.registerReply.value)))
    ensures t.kind.UnregisterTrigger? && !Skips(s, t) ==>
      && o.call == Some(UnregisterCall(side.UnregisterPayload(s), side.Opts()))
      && o.sent == Some(t.unregisterErr)
      && o.closed && o.after == s.(state := Closed)
  {
    match t.kind
    case RegisterTrigger =>
      if s.state != Established || t.cancelled then Idle(s)
      else
        var registration :=
          if t.registerReply.Ok? && s.registration.Some?
          then Some(side.Refreshed(s.registration.value, t.registerReply.value))
          else s.registration;
        Outcome(s.(registration := registration), Some(RegisterCall(s.registration, side.Opts())),
                Some(t.registerReply.ErrorOrNil()), false)
    case UnregisterTrigger =>
      if s.registration.None? || t.cancelled then Idle(s)
      else
        Outcome(s.(state := Closed), Some(UnregisterCall(side.UnregisterPayload(s), side.Opts())),
                Some(t.unregisterErr), true)
  }

  /** The fields after the executor has run `tasks` in order. */
  function Run(side: Side, s: FactoryFields, tasks: seq<Task>): FactoryFields
    decreases |tasks|
  {
    if tasks == [] then s else Run(side, Step(side, s, tasks[0]).after, tasks[1..])
  }

  /** Tasks only ever close a factory: the state stays what it was or becomes Closed, so a closed
      factory stays closed and no task establishes one. The cached response is never touched. */
  lemma {:induction false} RunOnlyCloses(side: Side, s: FactoryFields, tasks: seq<Task>)
    ensures Run(side, s, tasks).state == s.state || Run(side, s, tasks).state == Closed
    ensures Run(side, s, tasks).response == s.response
    decreases |tasks|
  {
    if tasks != [] {
      RunOnlyCloses(side, Step(side, s, tasks[0]).after, tasks[1..]);
    }
  }

  /** Refresh tasks alone never change the connection state. */
  lemma {:induction false} RefreshesKeepState(side: Side, s: FactoryFields, tasks: seq<Task>)
    requires forall i :: 0 <= i < |tasks| ==> tasks[i].kind.RegisterTrigger?
    ensures Run(side, s, tasks).state == s.state
    decreases |tasks|
  {
    if tasks != [] {
      RefreshesKeepState(side, Step(side, s, tasks[0]).after, tasks[1..]);
    }
  }

  /** A cached registration is never dropped, by any task. */
  lemma {:induction false} RunKeepsRegistration(side: Side, s: FactoryFields, tasks: seq<Task>)
    requires s.registration.Some?
    ensures Run(side, s, tasks).registration.Some?
    decreases |tasks|
  {
    if tasks != [] {
      RunKeepsRegistration(side, Step(side, s, tasks[0]).after, tasks[1..]);
    }
  }

  /**
    Once a registration is cached, every Unregister trigger that is not cancelled calls the rest
    of the chain and runs afterCloseFunc, whatever ran before it, even after the factory closed:
    the trigger tests only for a cached registration, which closing does not clear.
   */
  lemma UnregisterAfterAnyHistory(side: Side, s: FactoryFields, tasks: seq<Task>, t: Task)
    requires s.registration.Some? && t.kind.UnregisterTrigger? && !t.cancelled
    ensures Step(side, Run(side, s, tasks), t).call.Some?
    ensures Step(side, Run(side, s, tasks), t).closed
  {
    RunKeepsRegistration(side, s, tasks);
  }

  /** What a factory's methods keep true of its queue: every queued channel is as `make` left it,
      and no two queued tasks share a channel. */
  ghost predicate QueueValid(pending: seq<Trigger>)
    reads set i | 0 <= i < |pending| :: pending[i].ch
  {
    && (forall i :: 0 <= i < |pending| ==> pending[i].ch.Fresh())
    && (forall i, j :: 0 <= i < j < |pending| ==> pending[i].ch != pending[j].ch)
  }

  /** eventNSFactoryClient. `calls` logs the calls its tasks made on the rest of the chain and
      `afterCloseCalls` counts the afterClose callbacks. */
  class NsEventFactoryClient {
    var state: ConnectionState
    var registration: Option<NetworkService>
    var response: Option<NetworkService>
    var opts: seq<CallOption>
    const mergeNs: NsMerge
    const hasAfterClose: bool
    var pending: seq<Trigger>
    var calls: seq<NsCall>
    var afterCloseCalls: nat

    /** newEventNSFactoryClient; `hasAfterClose` says whether a non-nil afterClose was given. */
    constructor (mergeNs: NsMerge, hasAfterClose: bool, opts: seq<CallOption>)
      ensures Valid()
      ensures Snapshot() == FactoryFields(Initial, None, None) && this.opts == opts
      ensures this.mergeNs == mergeNs && this.hasAfterClose == hasAfterClose
      ensures pending == [] && calls == [] && afterCloseCalls == 0
    {
      state := Initial;
      registration := None;
      response := None;
      this.opts := opts;
      this.mergeNs := mergeNs;
      this.hasAfterClose := hasAfterClose;
      pending := [];
      calls := [];
      afterCloseCalls := 0;
    }

    function Snapshot(): FactoryFields
      reads this
    {
      FactoryFields(state, registration, response)
    }

    function Side(): Side
      reads this
    {
      ClientSide(opts, mergeNs, hasAfterClose)
    }

    ghost predicate Valid()
      reads this, set i | 0 <= i < |pending| :: pending[i].ch
    {
      QueueValid(pending)
    }

    /** Register: queues a refresh task and returns its channel. */
    method Register(cancel: CancelContext) returns (ch: ErrorChannel)
      requires Valid()
      modifies this
      ensures Valid()
      ensures fresh(ch) && ch.Fresh()
      ensures pending == old(pending) + [Trigger(RegisterTrigger, ch, cancel)]
      ensures Snapshot() == old(Snapshot()) && opts == old(opts)
      ensures calls == old(calls) && afterCloseCalls == old(afterCloseCalls)
    {
      ch := new ErrorChannel();
      pending := pending + [Trigger(RegisterTrigger, ch, cancel)];
    }

    /** Unregister: queues a close task and returns its channel. */
    method Unregister(cancel: CancelContext) returns (ch: ErrorChannel)
      requires Valid()
      modifies this
      ensures Valid()
      ensures fresh(ch) && ch.Fresh()
      ensures pending == old(pending) + [Trigger(UnregisterTrigger, ch, cancel)]
      ensures Snapshot() == old(Snapshot()) && opts == old(opts)
      ensures calls == old(calls) && afterCloseCalls == old(afterCloseCalls)
    {
      ch := new ErrorChannel();
      pending := pending + [Trigger(UnregisterTrigger, ch, cancel)];
    }

    /**
      The executor runs the oldest queued task. `registerReply` and `unregisterErr` are what the
      rest of the chain answers to the call the task makes, if it makes one. The task's channel
      ends up closed, holding the one error the task sent or nothing.
     */
    method RunNext(registerReply: Result<NetworkService, Error>, unregisterErr: Option<Error>)
      requires Valid() && pending != []
      modifies this, pending[0].ch
      ensures Valid()
      ensures pending == old(pending[1..]) && opts == old(opts)
      ensures var o := Step(old(Side()), old(Snapshot()),
                            Task(old(pending[0].kind), old(IsDone(pending[0].cancel)), registerReply, unregisterErr));
        && Snapshot() == o.after
        && calls == old(calls) + (if o.call.Some? then [o.call.value] else [])
        && afterCloseCalls == old(afterCloseCalls) + (if o.closed && hasAfterClose then 1 else 0)
        && old(pending[0].ch).closed
        && old(pending[0].ch).buffer == (if o.sent.Some? then [o.sent.value] else [])
    {
      var t := pending[0];
      pending := pending[1..];
      match t.kind {
        case RegisterTrigger =>
          if state != Established || IsDone(t.cancel) {
            t.ch.Close();
            return;
          }
          calls := calls + [RegisterCall(registration, opts)];
          if registerReply.Ok? && registration.Some? {
            registration := Some(mergeNs(registration.value, registerReply.value));
          }
          t.ch.Send(registerReply.ErrorOrNil());
          t.ch.Close();
        case UnregisterTrigger =>
          if registration.None? || IsDone(t.cancel) {
            t.ch.Close();
            return;
          }
          calls := calls + [UnregisterCall(response, opts)];
          AfterCloseFunc();
          t.ch.Send(unregisterErr);
          t.ch.Close();
      }
    }

    /** afterCloseFunc: the state becomes closed, then the afterClose callback runs if given. */
    method AfterCloseFunc()
      modifies this
      ensures state == Closed && registration == old(registration) && response == old(response)
      ensures afterCloseCalls == old(afterCloseCalls) + (if hasAfterClose then 1 else 0)
      ensures pending == old(pending) && calls == old(calls) && opts == old(opts)
    {
      state := Closed;
      if hasAfterClose {
        afterCloseCalls := afterCloseCalls + 1;
      }
    }
  }

  /** eventNSFactoryServer. */
  class NsEventFactoryServer {
    var state: ConnectionState
    var registration: Option<NetworkService>
    var response: Option<NetworkService>
    var pending: seq<Trigger>
    var calls: seq<NsCall>
    var afterCloseCalls: nat

    /** newNSEventFactoryServer. */
    constructor ()
      ensures Valid()
      ensures Snapshot() == FactoryFields(Initial, None, None)
      ensures pending == [] && calls == [] && afterCloseCalls == 0
    {
      state := Initial;
      registration := None;
      response := None;
      pending := [];
      calls := [];
      afterCloseCalls := 0;
    }

    function Snapshot(): FactoryFields
      reads this
    {
      FactoryFields(state, registration, response)
    }

    ghost predicate Valid()
      reads this, set i | 0 <= i < |pending| :: pending[i].ch
    {
      QueueValid(pending)
    }

    /** Register: queues a refresh task and returns its channel. */
    method Register(cancel: CancelContext) returns (ch: ErrorChannel)
      requires Valid()
      modifies this
      ensures Valid()
      ensures fresh(ch) && ch.Fresh()
      ensures pending == old(pending) + [Trigger(RegisterTrigger, ch, cancel)]
      ensures Snapshot() == old(Snapshot())
      ensures calls == old(calls) && afterCloseCalls == old(afterCloseCalls)
    {
      ch := new ErrorChannel();
      pending := pending + [Trigger(RegisterTrigger, ch, cancel)];
    }

    /** Unregister: queues a close task and returns its channel. */
    method Unregister(cancel: CancelContext) returns (ch: ErrorChannel)
      requires Valid()
      modifies this
      ensures Valid()
      ensures fresh(ch) && ch.Fresh()
      ensures pending == old(pending) + [Trigger(UnregisterTrigger, ch, cancel)]
      ensures Snapshot() == old(Snapshot())
      ensures calls == old(calls) && afterCloseCalls == old(afterCloseCalls)
    {
      ch := new ErrorChannel();
      pending := pending + [Trigger(UnregisterTrigger, ch, cancel)];
    }

    /** The executor runs the oldest queued task, as on the client, with the server's payloads. */
    method RunNext(registerReply: Result<NetworkService, Error>, unregisterErr: Option<Error>)
      requires Valid() && pending != []
      modifies this, pending[0].ch
      ensures Valid()
      ensures pending == old(pending[1..])
      ensures var o := Step(ServerSide, old(Snapshot()),
                            Task(old(pending[0].kind), old(IsDone(pending[0].cancel)), registerReply, unregisterErr));
        && Snapshot() == o.after
        && calls == old(calls) + (if o.call.Some? then [o.call.value] else [])
        && afterCloseCalls == old(afterCloseCalls) + (if o.closed then 1 else 0)
        && old(pending[0].ch).closed
        && old(pending[0].ch).buffer == (if o.sent.Some? then [o.sent.value] else [])
    {
      var t := pending[0];
      pending := pending[1..];
      match t.kind {
        case RegisterTrigger =>
          if state != Established || IsDone(t.cancel) {
            t.ch.Close();
            return;
          }
          calls := calls + [RegisterCall(registration, [])];
          if registerReply.Ok? && registration.Some? {
            registration := Some(registerReply.value);
          }
          t.ch.Send(registerReply.ErrorOrNil());
          t.ch.Close();
        case UnregisterTrigger =>
          if registration.None? || IsDone(t.cancel) {
            t.ch.Close();
            return;
          }
          calls := calls + [UnregisterCall(registration, [])];
          AfterCloseFunc();
          t.ch.Send(unregisterErr);
          t.ch.Close();
      }
    }

    /** afterCloseFunc: the state becomes closed, then the afterClose callback runs. */
    method AfterCloseFunc()
      modifies this
      ensures state == Closed && registration == old(registration) && response == old(response)
      ensures afterCloseCalls == old(afterCloseCalls) + 1
      ensures pending == old(pending) && calls == old(calls)
    {
      state := Closed;
      afterCloseCalls := afterCloseCalls + 1;
    }
  }

  /**
    An established client factory is closed by an Unregister trigger and then refreshed: the
    close unregisters the cached response and reports next's error, and the refresh queued after
    it finds the factory closed and closes its channel without a value or a call.
   */
  method CloseThenRefresh(mergeNs: NsMerge, reg: NetworkService, resp: NetworkService, err: Option<Error>)
    returns (closeCh: ErrorChannel, refreshCh: ErrorChannel, calls: seq<NsCall>, state: ConnectionState)
    ensures closeCh.closed && closeCh.buffer == [err]
    ensures refreshCh.closed && refreshCh.buffer == []
    ensures calls == [UnregisterCall(Some(resp), [])]
    ensures state == Closed
  {
    var f := new NsEventFactoryClient(mergeNs, true, []);
    f.state, f.registration, f.response := Established, Some(reg), Some(resp);
    closeCh := f.Unregister(Background);
    refreshCh := f.Register(Background);
    f.RunNext(Ok(resp), err);
    f.RunNext(Ok(resp), None);
    calls := f.calls;
    state := f.state;
  }
}
