/**
  The authorize registry clients for endpoints and for services. With policies configured they
  keep, per resource name, the path IDs of the last registration the policies admitted: Register
  calls the rest of the chain first, checks the policies on the reply, stores the path IDs when
  they pass and otherwise undoes a first registration with a compensating Unregister; Unregister
  calls the rest of the chain first and forgets the name only when the policies pass.

  The policy evaluation is the `check` oracle; the SPIFFE ID taken from the path and the captured
  peer is the `spiffeId` parameter; `path` is the path in the context when the check runs.
 */
module Authorize {
  import opened Wrappers
  import opened Api

  /** The shared resource-name to path-IDs map. */
  type PathIdsMap = map<string, seq<string>>

  /** RegistryOpaInput, the value the policies judge. */
  datatype RegistryOpaInput = RegistryOpaInput(
    resourceId: string,
    resourceName: string,
    resourcePathIdsMap: PathIdsMap,
    pathSegments: seq<PathSegment>,
    index: nat)

  /** policiesList.check: None when every policy passes, else the first failure. */
  type PolicyCheck = RegistryOpaInput -> Option<Error>

  /** A call this stage hands to the rest of the chain. */
  datatype Call<T> = RegisterCall(entry: T, opts: seq<CallOption>) | UnregisterCall(entry: T, opts: seq<CallOption>)

  /** What a Register or Unregister returns, the calls it made in order, and the map it leaves. */
  datatype Step<T, R> = Step(result: R, calls: seq<Call<T>>, pathIds: PathIdsMap)

  /** How the stage reads a name and path IDs off the resource it guards. */
  datatype Fields<!T> = Fields(name: T -> string, pathIds: T -> seq<string>)

  /** The options forwarded when policies are configured: the caller's plus the peer capture. */
  function WithPeer(opts: seq<CallOption>): seq<CallOption> {
    opts + [PeerCapture]
  }

  /** The policy input for a resource of name `name`. */
  function InputFor(spiffeId: string, name: string, pathIds: PathIdsMap, path: Path): RegistryOpaInput {
    RegistryOpaInput(spiffeId, name, pathIds, path.pathSegments, path.index)
  }

  /** The error a failed policy check returns once the compensating Unregister has run. */
  function CompensatedError(err: Error, unregisterErr: Option<Error>): Error {
    if unregisterErr.Some? then WrappedWithError(err, "nse unregistered with error: ", unregisterErr.value) else err
  }

  /**
    Register. `next` is the rest of the chain's reply, `nextUnregister` the reply to the
    compensating Unregister should one be made.
   */
  function RegisterStep<T>(f: Fields<T>, hasPolicies: bool, check: PolicyCheck, pathIds: PathIdsMap,
                           entry: T, opts: seq<CallOption>, path: Path, spiffeId: string,
                           next: Result<T, Error>, nextUnregister: Option<Error>): (s: Step<T, Result<T, Error>>)
    // next is always called first, with the caller's entry, and at most one more call follows
    ensures 1 <= |s.calls| <= 2 && s.calls[0].RegisterCall? && s.calls[0].entry == entry
    ensures s.calls[0].opts == if hasPolicies then WithPeer(opts) else opts
    // without policies the stage is transparent
    ensures !hasPolicies ==> s.result == next && s.pathIds == pathIds
    // a refusal by the rest of the chain is returned before any check, with the map untouched
    ensures next.Err? ==> s.result == next && s.pathIds == pathIds && |s.calls| == 1
    // with policies, success means the reply passed the check and its path IDs are now stored
    ensures hasPolicies ==>
      (s.result.Ok? <==> next.Ok? && check(InputFor(spiffeId, f.name(next.value), pathIds, path)).None?)
    ensures hasPolicies && s.result.Ok? ==>
      s.result == next && s.pathIds == pathIds[f.name(next.value) := f.pathIds(next.value)]
    ensures s.result.Err? ==> s.pathIds == pathIds
    // the compensating Unregister: made exactly when the check fails on a name not yet known
    ensures |s.calls| == 2 <==>
      && hasPolicies && next.Ok?
      && check(InputFor(spiffeId, f.name(next.value), pathIds, path)).Some?
      && f.name(next.value) !in pathIds
    ensures |s.calls| == 2 ==>
      && s.calls[1] == UnregisterCall(next.value, WithPeer(opts))
      && s.result == Err(CompensatedError(check(InputFor(spiffeId, f.name(next.value), pathIds, path)).value, nextUnregister))
    ensures hasPolicies && next.Ok? && s.result.Err? && |s.calls| == 1 ==>
      s.result == Err(check(InputFor(spiffeId, f.name(next.value), pathIds, path)).value)
  {
    if !hasPolicies then Step(next, [RegisterCall(entry, opts)], pathIds)
    else
      var forwarded := [RegisterCall(entry, WithPeer(opts))];
      match next
      case Err(e) => Step(Err(e), forwarded, pathIds)
      case Ok(resp) =>
        var name := f.name(resp);
        match check(InputFor(spiffeId, name, pathIds, path))
        case None => Step(Ok(resp), forwarded, pathIds[name := f.pathIds(resp)])
        case Some(err) =>
          if name in pathIds then Step(Err(err), forwarded, pathIds)
          else Step(Err(CompensatedError(err, nextUnregister)), forwarded + [UnregisterCall(resp, WithPeer(opts))], pathIds)
  }

  /** Unregister. `next` is the rest of the chain's reply. */
  function UnregisterStep<T>(f: Fields<T>, hasPolicies: bool, check: PolicyCheck, pathIds: PathIdsMap,
                             entry: T, opts: seq<CallOption>, path: Path, spiffeId: string,
                             next: EmptyReply): (s: Step<T, EmptyReply>)
    // the rest of the chain is always called, once, before any check
    ensures s.calls == [UnregisterCall(entry, if hasPolicies then WithPeer(opts) else opts)]
    ensures !hasPolicies ==> s.result == next && s.pathIds == pathIds
    // with policies the entry is forgotten exactly when the rest of the chain and the check both pass
    ensures hasPolicies ==>
      s.pathIds == if next.err.None? && check(InputFor(spiffeId, f.name(entry), pathIds, path)).None?
                   then pathIds - {f.name(entry)} else pathIds
    ensures hasPolicies && next.err.Some? ==> s.result == EmptyReply(false, next.err)
    ensures hasPolicies && next.err.None? ==>
      s.result == if check(InputFor(spiffeId, f.name(entry), pathIds, path)).None? then next
                  else EmptyReply(false, check(InputFor(spiffeId, f.name(entry), pathIds, path)))
  {
    if !hasPolicies then Step(next, [UnregisterCall(entry, opts)], pathIds)
    else
      var forwarded := [UnregisterCall(entry, WithPeer(opts))];
      if next.err.Some? then Step(EmptyReply(false, next.err), forwarded, pathIds)
      else
        var name := f.name(entry);
        match check(InputFor(spiffeId, name, pathIds, path))
        case Some(err) => Step(EmptyReply(false, Some(err)), forwarded, pathIds)
        case None => Step(next, forwarded, pathIds - {name})
  }

  /**
    With a policy that admits both calls, Register followed by Unregister of the reply leaves
    the name unknown and every other entry as it was.
   */
  lemma RegisterThenUnregisterForgets<T>(f: Fields<T>, check: PolicyCheck, pathIds: PathIdsMap,
                                         entry: T, opts: seq<CallOption>, path: Path, spiffeId: string,
                                         next: Result<T, Error>, nextUnregister: Option<Error>, unregisterReply: EmptyReply)
    requires next.Ok? && unregisterReply.err.None?
    ensures var r := RegisterStep(f, true, check, pathIds, entry, opts, path, spiffeId, next, nextUnregister);
      var u := UnregisterStep(f, true, check, r.pathIds, next.value, opts, path, spiffeId, unregisterReply);
      r.result.Ok? && check(InputFor(spiffeId, f.name(next.value), r.pathIds, path)).None? ==>
        u.pathIds == pathIds - {f.name(next.value)} && u.result == unregisterReply
  {
  }

  /** The endpoint fields the NSE client reads. */
  const NseFields := Fields((e: NetworkServiceEndpoint) => e.name, (e: NetworkServiceEndpoint) => e.pathIds)

  /** The service fields the NS client reads. */
  const NsFields := Fields((s: NetworkService) => s.name, (s: NetworkService) => s.pathIds)

  /** authorizeNSEClient. */
  class AuthorizeNseClient {
    const hasPolicies: bool
    const check: PolicyCheck
    var nsePathIdsMap: PathIdsMap

    constructor (hasPolicies: bool, check: PolicyCheck)
      ensures this.hasPolicies == hasPolicies && this.check == check && nsePathIdsMap == map[]
    {
      this.hasPolicies := hasPolicies;
      this.check := check;
      nsePathIdsMap := map[];
    }

    method Register(nse: NetworkServiceEndpoint, opts: seq<CallOption>, path: Path, spiffeId: string,
                    next: Result<NetworkServiceEndpoint, Error>, nextUnregister: Option<Error>)
      returns (r: Result<NetworkServiceEndpoint, Error>, calls: seq<Call<NetworkServiceEndpoint>>)
      modifies this
      ensures Step(r, calls, nsePathIdsMap)
           == RegisterStep(NseFields, hasPolicies, check, old(nsePathIdsMap), nse, opts, path, spiffeId, next, nextUnregister)
    {
      if !hasPolicies {
        return next, [RegisterCall(nse, opts)];
      }
      var forwardedOpts := opts + [PeerCapture];
      calls := [RegisterCall(nse, forwardedOpts)];
      if next.Err? {
        return Err(next.error), calls;
      }
      var resp := next.value;
      var input := RegistryOpaInput(spiffeId, resp.name, nsePathIdsMap, path.pathSegments, path.index);
      var err := check(input);
      if err.Some? {
        var e := err.value;
        if resp.name !in nsePathIdsMap {
          calls := calls + [UnregisterCall(resp, forwardedOpts)];
          if nextUnregister.Some? {
            e := WrappedWithError(e, "nse unregistered with error: ", nextUnregister.value);
          }
        }
        return Err(e), calls;
      }
      nsePathIdsMap := nsePathIdsMap[resp.name := resp.pathIds];
      return Ok(resp), calls;
    }

    method Unregister(nse: NetworkServiceEndpoint, opts: seq<CallOption>, path: Path, spiffeId: string, next: EmptyReply)
      returns (reply: EmptyReply, calls: seq<Call<NetworkServiceEndpoint>>)
      modifies this
      ensures Step(reply, calls, nsePathIdsMap)
           == UnregisterStep(NseFields, hasPolicies, check, old(nsePathIdsMap), nse, opts, path, spiffeId, next)
    {
      if !hasPolicies {
        return next, [UnregisterCall(nse, opts)];
      }
      calls := [UnregisterCall(nse, opts + [PeerCapture])];
      if next.err.Some? {
        return EmptyReply(false, next.err), calls;
      }
      var input := RegistryOpaInput(spiffeId, nse.name, nsePathIdsMap, path.pathSegments, path.index);
      var err := check(input);
      if err.Some? {
        return EmptyReply(false, err), calls;
      }
      nsePathIdsMap := nsePathIdsMap - {nse.name};
      return next, calls;
    }
  }

  /** authorizeNSClient. */
  class AuthorizeNsClient {
    const hasPolicies: bool
    const check: PolicyCheck
    var nsPathIdsMap: PathIdsMap

    constructor (hasPolicies: bool, check: PolicyCheck)
      ensures this.hasPolicies == hasPolicies && this.check == check && nsPathIdsMap == map[]
    {
      this.hasPolicies := hasPolicies;
      this.check := check;
      nsPathIdsMap := map[];
    }

    method Register(ns: NetworkService, opts: seq<CallOption>, path: Path, spiffeId: string,
                    next: Result<NetworkService, Error>, nextUnregister: Option<Error>)
      returns (r: Result<NetworkService, Error>, calls: seq<Call<NetworkService>>)
      modifies this
      ensures Step(r, calls, nsPathIdsMap)
           == RegisterStep(NsFields, hasPolicies, check, old(nsPathIdsMap), ns, opts, path, spiffeId, next, nextUnregister)
    {
      if !hasPolicies {
        return next, [RegisterCall(ns, opts)];
      }
      var forwardedOpts := opts + [PeerCapture];
      calls := [RegisterCall(ns, forwardedOpts)];
      if next.Err? {
        return Err(next.error), calls;
      }
      var resp := next.value;
      var input := RegistryOpaInput(spiffeId, resp.name, nsPathIdsMap, path.pathSegments, path.index);
      var err := check(input);
      if err.Some? {
        var e := err.value;
        if resp.name !in nsPathIdsMap {
          calls := calls + [UnregisterCall(resp, forwardedOpts)];
          if nextUnregister.Some? {
            e := WrappedWithError(e, "nse unregistered with error: ", nextUnregister.value);
          }
        }
        return Err(e), calls;
      }
      nsPathIdsMap := nsPathIdsMap[resp.name := resp.pathIds];
      return Ok(resp), calls;
    }

    method Unregister(ns: NetworkService, opts: seq<CallOption>, path: Path, spiffeId: string, next: EmptyReply)
      returns (reply: EmptyReply, calls: seq<Call<NetworkService>>)
      modifies this
      ensures Step(reply, calls, nsPathIdsMap)
           == UnregisterStep(NsFields, hasPolicies, check, old(nsPathIdsMap), ns, opts, path, spiffeId, next)
    {
      if !hasPolicies {
        return next, [UnregisterCall(ns, opts)];
      }
      calls := [UnregisterCall(ns, opts + [PeerCapture])];
      if next.err.Some? {
        return EmptyReply(false, next.err), calls;
      }
      var input := RegistryOpaInput(spiffeId, ns.name, nsPathIdsMap, path.pathSegments, path.index);
      var err := check(input);
      if err.Some? {
        return EmptyReply(false, err), calls;
      }
      nsPathIdsMap := nsPathIdsMap - {ns.name};
      return next, calls;
    }
  }
}
