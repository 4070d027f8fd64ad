/**
  The begin stages for network service endpoint registrations, server and client. Each keeps a
  map from registration name to an event factory; Register and Unregister create the factory on
  first use and run their work as a task on that factory's executor. A task whose factory is no
  longer the map's entry for the name starts the call over; a successful Register caches the
  registration, the first failure evicts, and Unregister always evicts.

  Tasks run one at a time, in order: a call's own task runs when the call is made, and a task
  queued earlier on a factory that has since been replaced is `RegisterTask`/`UnregisterTask`
  given that factory. `inExecutor` says that the context already carries an event factory. The
  rest of the chain is the `next` oracle: its reply is a parameter and the call made to it is
  the `forwarded` result.
 */
module BeginNse {
  import opened Wrappers
  import opened Api
  import opened BeginState

  /** mergeNSE(in, resp). */
  type NseMerge = (NetworkServiceEndpoint, NetworkServiceEndpoint) -> NetworkServiceEndpoint

  const ServerEmptyName := "NetworkServiceEndpoint.Name can not be zero valued"
  const ClientEmptyName := "registry.NetworkServiceEndpoint.Name must not be zero valued"

  /** eventNSEFactoryServer / eventNSEFactoryClient, the fields the begin stages use. */
  class NseEventFactory {
    var state: ConnectionState
    var registration: Option<NetworkServiceEndpoint>
    var response: Option<NetworkServiceEndpoint>
    var opts: seq<CallOption>

    /** A new factory: not yet established, nothing cached. */
    constructor (opts: seq<CallOption>)
      ensures state == Initial && registration == None && response == None && this.opts == opts
    {
      state := Initial;
      registration := None;
      response := None;
      this.opts := opts;
    }

    /** Nothing is cached before the first success; both values are cached after it. */
    predicate Consistent()
      reads this
    {
      && (state == Initial ==> registration.None? && response.None?)
      && (state == Established ==> registration.Some? && response.Some?)
    }
  }

  /** The call the client stage hands on: an endpoint and the call options. */
  datatype NseCall = NseCall(nse: NetworkServiceEndpoint, opts: seq<CallOption>)

  /** beginNSEServer. */
  class BeginNseServer {
    var factories: map<string, NseEventFactory>
    const mergeNse: NseMerge

    constructor (mergeNse: NseMerge)
      ensures Valid() && factories == map[] && this.mergeNse == mergeNse
    {
      factories := map[];
      this.mergeNse := mergeNse;
    }

    /** Every entry is live and consistent, and no factory sits under two names. */
    ghost predicate Valid()
      reads this, factories.Values
    {
      && (forall id :: id in factories ==> factories[id].state != Closed && factories[id].Consistent())
      && (forall a, b :: a in factories && b in factories && a != b ==> factories[a] != factories[b])
    }

    /** No entry changed and no factory in the map changed. */
    twostate predicate NothingChanged()
      reads *
    {
      factories == old(factories) && forall k :: k in factories ==> unchanged(factories[k])
    }

    /** Every entry other than `id` is still there, holding the same, unchanged factory. */
    twostate predicate OthersUnchanged(id: string)
      reads *
    {
      forall k :: k in old(factories) && k != id ==>
        k in factories && factories[k] == old(factories[k]) && unchanged(factories[k])
    }

    /** The map's entries other than `id` are the old ones, and `id` is mapped as `entry` says. */
    twostate predicate EntryIs(id: string, new entry: Option<NseEventFactory>)
      reads this
    {
      && (entry.None? ==> factories == old(factories) - {id})
      && (entry.Some? ==> factories == old(factories)[id := entry.value])
    }

    /** What a Register does, from the state it starts in to the state it leaves. */
    twostate predicate RegisterEffect(input: NetworkServiceEndpoint, inExecutor: bool, next: Result<NetworkServiceEndpoint, Error>,
                                      new r: Result<NetworkServiceEndpoint, Error>, new forwarded: Option<NetworkServiceEndpoint>)
      reads *
    {
      var id := input.name;
      if id == "" then
        r == Err(Failure(ServerEmptyName)) && forwarded == None && NothingChanged()
      else if inExecutor then
        r == next && forwarded == Some(input) && NothingChanged()
      else
        && r == next && forwarded == Some(input)
        && OthersUnchanged(id)
        && (if id in old(factories) then
              var f := old(factories[id]);
              if next.Ok? then
                && EntryIs(id, Some(f))
                && f.state == Established
                && f.registration == Some(mergeNse(input, next.value))
                && f.response == Some(next.value)
              else if old(f.state) == Established then
                EntryIs(id, Some(f)) && unchanged(f)
              else
                && EntryIs(id, None)
                && f.state == Closed && f.registration == old(f.registration) && f.response == old(f.response)
            else if next.Ok? then
              && id in factories && fresh(factories[id])
              && EntryIs(id, Some(factories[id]))
              && factories[id].state == Established
              && factories[id].registration == Some(mergeNse(input, next.value))
              && factories[id].response == Some(next.value)
            else
              EntryIs(id, None))
    }

    /** What an Unregister does, from the state it starts in to the state it leaves. */
    twostate predicate UnregisterEffect(input: NetworkServiceEndpoint, inExecutor: bool, next: EmptyReply,
                                        new reply: EmptyReply, new forwarded: Option<NetworkServiceEndpoint>)
      reads *
    {
      var id := input.name;
      if inExecutor then
        reply == next && forwarded == Some(input) && NothingChanged()
      else
        && reply == EmptyReply(true, next.err)
        && EntryIs(id, None)
        && OthersUnchanged(id)
        && (if id in old(factories) then
              var f := old(factories[id]);
              && forwarded == Some(if old(f.registration).Some? then old(f.registration).value else input)
              && f.state == Closed && f.registration == old(f.registration) && f.response == old(f.response)
            else
              forwarded == Some(input))
    }

    /** LoadOrStore: the factory already under `id`, or a new one stored there. */
    method LoadOrStore(id: string) returns (f: NseEventFactory)
      requires Valid()
      modifies this
      ensures Valid()
      ensures id in old(factories) ==> f == old(factories[id]) && factories == old(factories)
      ensures id !in old(factories) ==>
        && fresh(f) && f.state == Initial && f.registration == None && f.response == None
        && factories == old(factories)[id := f]
      ensures id in factories && factories[id] == f
    {
      if id in factories {
        return factories[id];
      }
      f := new NseEventFactory([]);
      factories := factories[id := f];
    }

    /** Register. */
    method Register(input: NetworkServiceEndpoint, inExecutor: bool, next: Result<NetworkServiceEndpoint, Error>)
      returns (r: Result<NetworkServiceEndpoint, Error>, forwarded: Option<NetworkServiceEndpoint>)
      requires Valid()
      modifies this, factories.Values
      ensures Valid()
      ensures RegisterEffect(input, inExecutor, next, r, forwarded)
      decreases 1
    {
      var id := input.name;
      if id == "" {
        return Err(Failure(ServerEmptyName)), None;
      }
      if inExecutor {
        return next, Some(input);
      }
      var f := LoadOrStore(id);
      r, forwarded := RegisterTask(f, input, next);
    }

    /**
      The Register task on factory `f`. When `f` is no longer the entry for the name, the task
      leaves `f` alone and does what a new Register call does.
     */
    method RegisterTask(f: NseEventFactory, input: NetworkServiceEndpoint, next: Result<NetworkServiceEndpoint, Error>)
      returns (r: Result<NetworkServiceEndpoint, Error>, forwarded: Option<NetworkServiceEndpoint>)
      requires Valid() && input.name != ""
      modifies this, f, factories.Values
      ensures Valid()
      ensures old(!(input.name in factories && factories[input.name] == f)) ==> unchanged(f)
      ensures RegisterEffect(input, false, next, r, forwarded)
      decreases if input.name in factories && factories[input.name] == f then 0 else 2
    {
      var id := input.name;
      if !(id in factories && factories[id] == f) {
        r, forwarded := Register(input, false, next);
        return;
      }
      forwarded := Some(input);
      if next.Err? {
        if f.state != Established {
          f.state := Closed;
          factories := factories - {id};
        }
        return next, forwarded;
      }
      f.registration := Some(mergeNse(input, next.value));
      f.state := Established;
      f.response := Some(next.value);
      return next, forwarded;
    }

    /** Unregister. */
    method Unregister(input: NetworkServiceEndpoint, inExecutor: bool, next: EmptyReply)
      returns (reply: EmptyReply, forwarded: Option<NetworkServiceEndpoint>)
      requires Valid()
      modifies this, factories.Values
      ensures Valid()
      ensures UnregisterEffect(input, inExecutor, next, reply, forwarded)
      decreases 1
    {
      var id := input.name;
      if inExecutor {
        return next, Some(input);
      }
      var f := LoadOrStore(id);
      reply, forwarded := UnregisterTask(f, input, next);
    }

    /**
      The Unregister task on factory `f`: it forwards the cached registration, or the caller's
      entry when nothing is cached, and then runs afterCloseFunc whatever the reply.
     */
    method UnregisterTask(f: NseEventFactory, input: NetworkServiceEndpoint, next: EmptyReply)
      returns (reply: EmptyReply, forwarded: Option<NetworkServiceEndpoint>)
      requires Valid()
      modifies this, f, factories.Values
      ensures Valid()
      ensures old(!(input.name in factories && factories[input.name] == f)) ==> unchanged(f)
      ensures UnregisterEffect(input, false, next, reply, forwarded)
      decreases if input.name in factories && factories[input.name] == f then 0 else 2
    {
      var id := input.name;
      if !(id in factories && factories[id] == f) {
        reply, forwarded := Unregister(input, false, next);
        return;
      }
      var registration := if f.registration.Some? then f.registration.value else input;
      forwarded := Some(registration);
      AfterClose(f, id);
      return EmptyReply(true, next.err), forwarded;
    }

    /** afterCloseFunc: the factory is closed and its name is deleted from the map. */
    method AfterClose(f: NseEventFactory, id: string)
      requires Valid() && id in factories && factories[id] == f
      modifies this, f
      ensures Valid()
      ensures f.state == Closed && f.registration == old(f.registration) && f.response == old(f.response)
      ensures factories == old(factories) - {id}
    {
      f.state := Closed;
      factories := factories - {id};
    }
  }

  /** beginNSEClient. */
  class BeginNseClient {
    var factories: map<string, NseEventFactory>
    const mergeNse: NseMerge

    constructor (mergeNse: NseMerge)
      ensures Valid() && factories == map[] && this.mergeNse == mergeNse
    {
      factories := map[];
      this.mergeNse := mergeNse;
    }

    /** Every entry is live and consistent, and no factory sits under two names. */
    ghost predicate Valid()
      reads this, factories.Values
    {
      && (forall id :: id in factories ==> factories[id].state != Closed && factories[id].Consistent())
      && (forall a, b :: a in factories && b in factories && a != b ==> factories[a] != factories[b])
    }

    /** No entry changed and no factory in the map changed. */
    twostate predicate NothingChanged()
      reads *
    {
      factories == old(factories) && forall k :: k in factories ==> unchanged(factories[k])
    }

    /** Every entry other than `id` is still there, holding the same, unchanged factory. */
    twostate predicate OthersUnchanged(id: string)
      reads *
    {
      forall k :: k in old(factories) && k != id ==>
        k in factories && factories[k] == old(factories[k]) && unchanged(factories[k])
    }

    /** The map's entries other than `id` are the old ones, and `id` is mapped as `entry` says. */
    twostate predicate EntryIs(id: string, new entry: Option<NseEventFactory>)
      reads this
    {
      && (entry.None? ==> factories == old(factories) - {id})
      && (entry.Some? ==> factories == old(factories)[id := entry.value])
    }

    /** What a Register does; the client also caches the call options of the last success. */
    twostate predicate RegisterEffect(input: NetworkServiceEndpoint, opts: seq<CallOption>, inExecutor: bool,
                                      next: Result<NetworkServiceEndpoint, Error>,
                                      new r: Result<NetworkServiceEndpoint, Error>, new forwarded: Option<NseCall>)
      reads *
    {
      var id := input.name;
      if id == "" then
        r == Err(Failure(ClientEmptyName)) && forwarded == None && NothingChanged()
      else if inExecutor then
        r == next && forwarded == Some(NseCall(input, opts)) && NothingChanged()
      else
        && r == next && forwarded == Some(NseCall(input, opts))
        && OthersUnchanged(id)
        && (if id in old(factories) then
              var f := old(factories[id]);
              if next.Ok? then
                && EntryIs(id, Some(f))
                && f.state == Established && f.opts == opts
                && f.registration == Some(mergeNse(input, next.value))
                && f.response == Some(next.value)
              else if old(f.state) == Established then
                EntryIs(id, Some(f)) && unchanged(f)
              else
                && EntryIs(id, None)
                && f.state == Closed && f.registration == old(f.registration) && f.response == old(f.response)
            else if next.Ok? then
              && id in factories && fresh(factories[id])
              && EntryIs(id, Some(factories[id]))
              && factories[id].state == Established && factories[id].opts == opts
              && factories[id].registration == Some(mergeNse(input, next.value))
              && factories[id].response == Some(next.value)
            else
              EntryIs(id, None))
    }

    /** What an Unregister does: the caller's options go with the call, whatever is cached. */
    twostate predicate UnregisterEffect(input: NetworkServiceEndpoint, opts: seq<CallOption>, inExecutor: bool, next: EmptyReply,
                                        new reply: EmptyReply, new forwarded: Option<NseCall>)
      reads *
    {
      var id := input.name;
      if inExecutor then
        reply == next && forwarded == Some(NseCall(input, opts)) && NothingChanged()
      else
        && reply == EmptyReply(true, next.err)
        && EntryIs(id, None)
        && OthersUnchanged(id)
        && (if id in old(factories) then
              var f := old(factories[id]);
              && forwarded == Some(NseCall(if old(f.registration).Some? then old(f.registration).value else input, opts))
              && f.state == Closed && f.registration == old(f.registration) && f.response == old(f.response)
            else
              forwarded == Some(NseCall(input, opts)))
    }

    /** LoadOrStore: the factory already under `id`, or a new one, holding `opts`, stored there. */
    method LoadOrStore(id: string, opts: seq<CallOption>) returns (f: NseEventFactory)
      requires Valid()
      modifies this
      ensures Valid()
      ensures id in old(factories) ==> f == old(factories[id]) && factories == old(factories)
      ensures id !in old(factories) ==>
        && fresh(f) && f.state == Initial && f.registration == None && f.response == None && f.opts == opts
        && factories == old(factories)[id := f]
      ensures id in factories && factories[id] == f
    {
      if id in factories {
        return factories[id];
      }
      f := new NseEventFactory(opts);
      factories := factories[id := f];
    }

    /** Register. */
    method Register(input: NetworkServiceEndpoint, opts: seq<CallOption>, inExecutor: bool, next: Result<NetworkServiceEndpoint, Error>)
      returns (r: Result<NetworkServiceEndpoint, Error>, forwarded: Option<NseCall>)
      requires Valid()
      modifies this, factories.Values
      ensures Valid()
      ensures RegisterEffect(input, opts, inExecutor, next, r, forwarded)
      decreases 1
    {
      var id := input.name;
      if id == "" {
        return Err(Failure(ClientEmptyName)), None;
      }
      if inExecutor {
        return next, Some(NseCall(input, opts));
      }
      var f := LoadOrStore(id, opts);
      r, forwarded := RegisterTask(f, input, opts, next);
    }

    /**
      The Register task on factory `f`. When `f` is no longer the entry for the name, the task
      leaves `f` alone and does what a new Register call does.
     */
    method RegisterTask(f: NseEventFactory, input: NetworkServiceEndpoint, opts: seq<CallOption>,
                        next: Result<NetworkServiceEndpoint, Error>)
      returns (r: Result<NetworkServiceEndpoint, Error>, forwarded: Option<NseCall>)
      requires Valid() && input.name != ""
      modifies this, f, factories.Values
      ensures Valid()
      ensures old(!(input.name in factories && factories[input.name] == f)) ==> unchanged(f)
      ensures RegisterEffect(input, opts, false, next, r, forwarded)
      decreases if input.name in factories && factories[input.name] == f then 0 else 2
    {
      var id := input.name;
      if !(id in factories && factories[id] == f) {
        r, forwarded := Register(input, opts, false, next);
        return;
      }
      forwarded := Some(NseCall(input, opts));
      if next.Err? {
        if f.state != Established {
          f.state := Closed;
          factories := factories - {id};
        }
        return next, forwarded;
      }
      f.opts := opts;
      f.state := Established;
      f.registration := Some(mergeNse(input, next.value));
      f.response := Some(next.value);
      return next, forwarded;
    }

    /** Unregister. */
    method Unregister(input: NetworkServiceEndpoint, opts: seq<CallOption>, inExecutor: bool, next: EmptyReply)
      returns (reply: EmptyReply, forwarded: Option<NseCall>)
      requires Valid()
      modifies this, factories.Values
      ensures Valid()
      ensures UnregisterEffect(input, opts, inExecutor, next, reply, forwarded)
      decreases 1
    {
      var id := input.name;
      if inExecutor {
        return next, Some(NseCall(input, opts));
      }
      var f := LoadOrStore(id, []);
      reply, forwarded := UnregisterTask(f, input, opts, next);
    }

    /**
      The Unregister task on factory `f`: it forwards the cached registration, or the caller's
      entry when nothing is cached, with the caller's options, then runs afterCloseFunc.
     */
    method UnregisterTask(f: NseEventFactory, input: NetworkServiceEndpoint, opts: seq<CallOption>, next: EmptyReply)
      returns (reply: EmptyReply, forwarded: Option<NseCall>)
      requires Valid()
      modifies this, f, factories.Values
      ensures Valid()
      ensures old(!(input.name in factories && factories[input.name] == f)) ==> unchanged(f)
      ensures UnregisterEffect(input, opts, false, next, reply, forwarded)
      decreases if input.name in factories && factories[input.name] == f then 0 else 2
    {
      var id := input.name;
      if !(id in factories && factories[id] == f) {
        reply, forwarded := Unregister(input, opts, false, next);
        return;
      }
      var registration := if f.registration.Some? then f.registration.value else input;
      forwarded := Some(NseCall(registration, opts));
      AfterClose(f, id);
      return EmptyReply(true, next.err), forwarded;
    }

    /** afterCloseFunc: the factory is closed and its name is deleted from the map. */
    method AfterClose(f: NseEventFactory, id: string)
      requires Valid() && id in factories && factories[id] == f
      modifies this, f
      ensures Valid()
      ensures f.state == Closed && f.registration == old(f.registration) && f.response == old(f.response)
      ensures f.opts == old(f.opts)
      ensures factories == old(factories) - {id}
    {
      f.state := Closed;
      factories := factories - {id};
    }
  }

  /**
    A successful Register followed by Unregister of its reply, outside any executor: the
    Unregister succeeds whatever the rest of the chain reports, hands on the merged registration
    cached by the Register, and leaves the map as it was before, less the endpoint's name.
   */
  method RegisterThenUnregister(server: BeginNseServer, e: NetworkServiceEndpoint,
                                resp: NetworkServiceEndpoint, unregisterNext: EmptyReply)
    returns (registered: Result<NetworkServiceEndpoint, Error>, reply: EmptyReply,
             unregistered: Option<NetworkServiceEndpoint>)
    requires server.Valid() && e.name != "" && resp.name == e.name
    modifies server, server.factories.Values
    ensures server.Valid()
    ensures registered == Ok(resp)
    ensures reply == EmptyReply(true, unregisterNext.err)
    ensures unregistered == Some(server.mergeNse(e, resp))
    ensures server.factories == old(server.factories) - {e.name}
  {
    var forwarded;
    registered, forwarded := server.Register(e, false, Ok(resp));
    reply, unregistered := server.Unregister(registered.value, false, unregisterNext);
  }

  /**
    A Register task queued on a factory that an Unregister has since closed: the task leaves the
    closed factory as it was and registers through a new factory instead.
   */
  method StaleTaskStartsOver(mergeNse: NseMerge)
    returns (staleState: ConnectionState, currentState: ConnectionState, replaced: bool)
    ensures staleState == Closed && currentState == Established && replaced
  {
    var server := new BeginNseServer(mergeNse);
    var e := EndpointNamed("nse-1", ["service"], "");
    var r, forwarded := server.Register(e, false, Ok(e));
    var stale := server.factories["nse-1"];
    var reply, unregistered := server.Unregister(e, false, EmptyReply(true, None));
    r, forwarded := server.RegisterTask(stale, e, Ok(e));
    staleState := stale.state;
    currentState := server.factories["nse-1"].state;
    replaced := server.factories["nse-1"] != stale;
  }
}
