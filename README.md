# Registry and forwarder-selection stages of the network service mesh SDK, in Dafny

This project models the parts of the SDK's registry and network service chains that keep
per-entity bookkeeping or make selection decisions, and proves what each promises:

- **begin** (`BeginNse`, `BeginState`, `NsEventFactory`). The begin stages serialise all work on
  a registration through a per-name event factory.
  - The factories live in a map keyed by name and are created lazily.
  - A queued task that finds a different factory under its name starts over from the top.
  - The first failed Register evicts the entry; a failed refresh keeps it; Unregister always
    evicts it.
  - The network service event factories' Register and Unregister triggers re-issue the cached
    payload, and each reports on a one-slot error channel.
- **discoverforwarder** (`DiscoverForwarder`). Request discovers the network service, finds the
  forwarders, keeps those matching the service's matches, and may move the sticky forwarder to the
  front. It then tries the candidates in order and accumulates their errors. Close always calls
  the rest of the chain once.
- **memory** (`MemoryNs`). The in-memory network service store behind Register, Unregister and a
  non-watching Find.
- **authorize** (`Authorize`). The endpoint and service clients keep a name → path-IDs map. The
  map is updated only under the policy check, and a compensating Unregister follows a refused
  first registration.
- **dnsresolve** (`DnsResolve`). Interdomain name translation: the endpoint is rewritten in
  place, names lose their domain on the way out, and the domain is joined back onto what returns.

The model is sequential:

- A factory's executor is a FIFO queue.
- The rest of the chain (`next`) is a parameter: the reply of the one call that happens.
- What a stage hands to the rest of the chain is an out-parameter or a log field, so "next is not
  called" is observable.
- Foreign helpers are function-valued parameters or constants: mergeNSE/mergeNS,
  matchutils.IsSubset, matchutils.MatchNetworkServices, url.Parse, interdomain.*, resolveDomain and
  the policy evaluation.
- Objects the source updates in place are classes with `modifies` clauses: event factories,
  stage maps, the endpoint record rewritten by translateNSE, and the candidate slice swapped by the
  sticky rule.
- The methods are specified in three ways:
  - Equal to a function on values. `FilterForwarders` equals `Filter`, `MatchForwarders` equals
    `Matched`, `PromoteSticky` equals `Promoted`, `TryCandidates` equals `TryFrom`, `Request`
    equals `Candidates` followed by `TryFrom`, and `TranslateNse` equals `Translated`, which is
    built on `Rekey`. The authorize stages equal `RegisterStep` and `UnregisterStep`, and each
    network service factory's `RunNext` equals `Step`.
  - By twostate predicates. The begin NSE stages are specified by `RegisterEffect` and
    `UnregisterEffect`, which relate the map and its factories before and after a call.
  - Directly. The memory store's methods state the new map and event log in their own `ensures`.
- `Run`, the fold of `Step` over a task queue, is used only by lemmas.
- The lemmas below state the source's promises about those functions.

Files:

- `wrappers.dfy`: Option and Result.
- `api.dfy`: the registry message values, errors and call options.
- `lists.dfy`: first-match search and the subsequence relation.
- One file per stage: `begin_state.dfy`, `begin_nse.dfy`, `ns_event_factory.dfy`,
  `discoverforwarder.dfy`, `memory_ns.dfy`, `authorize.dfy` and `dnsresolve.dfy`.

## Model

| member | source | states |
|---|---|---|
| `BeginNse.BeginNseServer.Register` | pkg/registry/common/begin/nse_server.go:36-72 | An empty name returns the "can not be zero valued" error, with the map and every factory unchanged and no call made. Inside an executor the call passes straight to next and nothing changes. Otherwise the caller's entry is forwarded. On success the entry holds an established factory with registration mergeNSE(in, resp) and response resp. On failure of an established factory nothing changes; on failure of a new or initial one the factory is closed and the name deleted. Every other entry is unchanged. |
| `BeginNse.BeginNseServer.RegisterTask` | pkg/registry/common/begin/nse_server.go:50-70 | The queued Register task. When its factory is no longer the map's entry for the name, that factory is left unchanged and the outcome is that of a new Register call. Otherwise it has the Register effect above. |
| `BeginNse.BeginNseServer.Unregister` | pkg/registry/common/begin/nse_server.go:78-103 | Inside an executor the call passes through unchanged. Otherwise it forwards the cached registration, or the caller's entry when none is cached. The factory ends Closed with its cached fields kept, the name is no longer mapped, every other entry is unchanged, and the reply is a non-nil Empty with next's error, whatever next returned. |
| `BeginNse.BeginNseServer.UnregisterTask` | pkg/registry/common/begin/nse_server.go:87-101 | The queued Unregister task. A stale factory is left unchanged and the outcome is that of a new Unregister; otherwise it has the Unregister effect above. |
| `BeginNse.BeginNseServer.LoadOrStore` | pkg/registry/common/begin/nse_server.go:45 | Returns the factory already under the name with the map unchanged, or stores and returns a fresh initial factory with nothing cached. |
| `BeginNse.BeginNseServer.AfterClose` | pkg/registry/common/begin/nse_server.go:100 | The afterClose callback: the factory becomes Closed with its cached fields kept, and exactly that name leaves the map. |
| `BeginNse.BeginNseClient.Register` | pkg/registry/common/begin/nse_client.go:38-78 | As on the server, with the client's "must not be zero valued" error. The caller's options go with the forwarded call. A success also caches those options in the factory. |
| `BeginNse.BeginNseClient.RegisterTask` | pkg/registry/common/begin/nse_client.go:52-76 | The queued client Register task. A stale factory is left unchanged and the outcome is a new Register call; otherwise it has the client's Register effect. |
| `BeginNse.BeginNseClient.Unregister` | pkg/registry/common/begin/nse_client.go:84-109 | Forwards the cached registration, or the caller's entry when none is cached (including an unknown name, whose factory is created for this call), with the caller's options. Afterwards the factory is Closed and the name is not mapped. The reply is a non-nil Empty with next's error. |
| `BeginNse.BeginNseClient.UnregisterTask` | pkg/registry/common/begin/nse_client.go:91-107 | The queued client Unregister task. A stale factory is left unchanged and the outcome is a new Unregister; otherwise it has the client's Unregister effect. |
| `BeginNse.BeginNseClient.LoadOrStore` | pkg/registry/common/begin/nse_client.go:47-48 | Returns the factory under the name, or a fresh initial one holding the given options, stored under the name. |
| `BeginNse.BeginNseClient.AfterClose` | pkg/registry/common/begin/nse_client.go:105-106 | The factory becomes Closed with its cached fields and options kept, and exactly that name leaves the map. |
| `BeginNse.RegisterThenUnregister` | pkg/registry/common/begin/nse_server.go:36-103 | On any valid server stage, outside an executor, a successful Register of a named endpoint followed by Unregister of the reply: Register returns the reply, and Unregister succeeds with next's error. Unregister hands on mergeNSE(in, resp), and the map is the one before Register with that name removed. |
| `BeginNse.StaleTaskStartsOver` | pkg/registry/common/begin/nse_server.go:51-55 | A Register task queued on a factory that an Unregister has since closed leaves that factory Closed. It registers through a different factory, which ends Established under the name. |
| `NsEventFactory.Step` | pkg/registry/common/begin/ns_event_factory.go:76-119 | One trigger task. A refresh of a factory that is not established, a close of one with no registration, or a task whose cancel context is done does nothing, calls nothing and sends nothing. A value is sent exactly when next is called. A refresh sends the cached registration with the factory's options, reports next's error and keeps the state. On success with a registration, the client merges the reply into the registration and the server replaces the registration by the reply; otherwise the fields are unchanged. A close sends the response (client) or the registration (server), runs afterCloseFunc, reports next's error whatever it is, and leaves the factory Closed with its cache kept. The response is never changed. |
| `NsEventFactory.RunOnlyCloses` | pkg/registry/common/begin/ns_event_factory.go:51-56 | After any sequence of tasks the state is what it was or Closed: a closed factory stays closed, no task establishes one, and the response is unchanged. |
| `NsEventFactory.RefreshesKeepState` | pkg/registry/common/begin/ns_event_factory.go:76-93 | A sequence of refresh tasks never changes the connection state. |
| `NsEventFactory.RunKeepsRegistration` | pkg/registry/common/begin/ns_event_factory.go:84-90 | Once a registration is cached, no sequence of tasks drops it. |
| `NsEventFactory.UnregisterAfterAnyHistory` | pkg/registry/common/begin/ns_event_factory.go:105-119 | After any history of a factory with a cached registration, an uncancelled Unregister trigger calls next and runs afterCloseFunc, even when the factory is already closed. |
| `NsEventFactory.NsEventFactoryClient.constructor` | pkg/registry/common/begin/ns_event_factory.go:43-58 | A new client factory is initial, caches nothing, holds the given options and has an empty queue. |
| `NsEventFactory.NsEventFactoryClient.Register` | pkg/registry/common/begin/ns_event_factory.go:68-95 | Queues a refresh task with its cancel context (Background by default) and returns a new, open, empty channel. Nothing else changes. |
| `NsEventFactory.NsEventFactoryClient.Unregister` | pkg/registry/common/begin/ns_event_factory.go:97-121 | Queues a close task with its cancel context and returns a new, open, empty channel. Nothing else changes. |
| `NsEventFactory.NsEventFactoryClient.RunNext` | pkg/registry/common/begin/ns_event_factory.go:76-119 | The executor runs the oldest task. The fields become `Step`'s result for the client side, with the cancel context read when the task runs. The call is logged and the afterClose callback counted when one was given. The task's channel ends closed, holding at most one value, which is the error sent. |
| `NsEventFactory.NsEventFactoryClient.AfterCloseFunc` | pkg/registry/common/begin/ns_event_factory.go:51-56 | The state becomes Closed, then the afterClose callback runs only if one was given. |
| `NsEventFactory.NsEventFactoryServer.constructor` | pkg/registry/common/begin/ns_event_factory.go:136-148 | A new server factory is initial, caches nothing and has an empty queue. |
| `NsEventFactory.NsEventFactoryServer.Register` | pkg/registry/common/begin/ns_event_factory.go:158-184 | Queues a refresh task and returns a new, open, empty channel. |
| `NsEventFactory.NsEventFactoryServer.Unregister` | pkg/registry/common/begin/ns_event_factory.go:186-210 | Queues a close task and returns a new, open, empty channel. |
| `NsEventFactory.NsEventFactoryServer.RunNext` | pkg/registry/common/begin/ns_event_factory.go:166-208 | The executor runs the oldest task. The fields become `Step`'s result for the server side, the call is logged, a close counts one afterClose call, and the channel ends closed with at most the one error sent. |
| `NsEventFactory.NsEventFactoryServer.AfterCloseFunc` | pkg/registry/common/begin/ns_event_factory.go:143-146 | The state becomes Closed, then afterClose always runs. |
| `NsEventFactory.CloseThenRefresh` | pkg/registry/common/begin/ns_event_factory.go:76-117 | On an established client factory, a close followed by a refresh: the close unregisters the cached response and reports next's error. The refresh finds the factory closed and closes its channel empty without calling next. |
| `DiscoverForwarder.FilterForwarders` | pkg/networkservice/common/discoverforwarder/server.go:204-212 | The inner loop returns `Filter`: the endpoints, in order, that carry labels for the forwarder service satisfying the match labels. |
| `DiscoverForwarder.FilterKeepsExactlyOffering` | pkg/networkservice/common/discoverforwarder/server.go:204-212 | An endpoint is in the filtered list if and only if it is one of the endpoints and it carries labels under the forwarder service name that satisfy the match labels. |
| `DiscoverForwarder.FilterIsSubsequence` | pkg/networkservice/common/discoverforwarder/server.go:204-212 | The filtered list is an order-preserving subsequence of the endpoints. |
| `DiscoverForwarder.MatchForwarders` | pkg/networkservice/common/discoverforwarder/server.go:186-222 | The nested loops compute `Matched`. With no matches the result is exactly the input endpoints. |
| `DiscoverForwarder.SelectionComesFromOneMatch` | pkg/networkservice/common/discoverforwarder/server.go:193-219 | A non-empty selection is the filter of a single match. That match is the first whose source selector fits and that either found forwarders or does not fall through. Every fitting match before it has fallthrough set and found nothing. |
| `DiscoverForwarder.MatchedIsSubsequence` | pkg/networkservice/common/discoverforwarder/server.go:186-222 | matchForwarders' result is an order-preserving subsequence of the endpoints. |
| `DiscoverForwarder.MatchedOfferLabels` | pkg/networkservice/common/discoverforwarder/server.go:193-212 | With matches, each returned forwarder is a registered endpoint with labels under the forwarder service. It satisfies the labels of some fitting match, which default to p2p=true. |
| `DiscoverForwarder.PromoteSticky` | pkg/networkservice/common/discoverforwarder/server.go:106-111 | The swap loop leaves the candidate array equal to `Promoted` of its old contents. |
| `DiscoverForwarder.PromotedIsPermutation` | pkg/networkservice/common/discoverforwarder/server.go:103-113 | The sticky swap keeps the length and the multiset of candidates. |
| `DiscoverForwarder.PromotedSwapsFirstNamed` | pkg/networkservice/common/discoverforwarder/server.go:106-111 | The first candidate with the next hop's name moves to position 0 and the old front takes its place. Every other position is unchanged. |
| `DiscoverForwarder.PromotedWithoutNameIsIdentity` | pkg/networkservice/common/discoverforwarder/server.go:106-111 | Without a candidate of that name the list is unchanged. |
| `DiscoverForwarder.TryFromSelectsFirstAccepting` | pkg/networkservice/common/discoverforwarder/server.go:119-132 | A selected candidate is the first, in list order, whose URL parses and that next accepts, and its connection is next's reply. Every earlier candidate was unparsable or refused. |
| `DiscoverForwarder.TryFromFailsIffAllRejected` | pkg/networkservice/common/discoverforwarder/server.go:119-137 | The candidate loop fails if and only if every candidate is unparsable or refused. |
| `DiscoverForwarder.AllFailedWrapsEveryTriedCandidate` | pkg/networkservice/common/discoverforwarder/server.go:115-137 | When all fail, the returned error wraps the initial error once per candidate whose URL parsed. |
| `DiscoverForwarder.DiscoverNetworkService` | pkg/networkservice/common/discoverforwarder/server.go:224-245 | A failed Find returns the "failed to find" wrap of its error. Otherwise the result is the first listed service with exactly the requested name, and the "is not found" error is returned if and only if no listed service has that name. |
| `DiscoverForwarder.Candidates` | pkg/networkservice/common/discoverforwarder/server.go:95-113 | The candidate list Request tries is never empty. |
| `DiscoverForwarder.TryCandidates` | pkg/networkservice/common/discoverforwarder/server.go:115-137 | The candidate loop returns `TryFrom` from the "all forwarders have failed" error. The accepting candidate's name is stored only when no forwarder name was pinned. |
| `DiscoverForwarder.Request` | pkg/networkservice/common/discoverforwarder/server.go:68-138 | Discovery and lookup errors are returned before any candidate is tried, with nothing stored. An empty match fails with "forwarder X is not available" when a name is pinned, else with "no candidates found". Otherwise the first accepting candidate's connection is returned, and its name is stored exactly when none was pinned. If all fail, the accumulated error is returned. |
| `DiscoverForwarder.ReselectDisablesPinningAndSticky` | pkg/networkservice/common/discoverforwarder/server.go:72-103 | Under RESELECT_REQUESTED no name is pinned and the candidates are the matched list, without the sticky swap. |
| `DiscoverForwarder.CandidatesStartWithStickyHop` | pkg/networkservice/common/discoverforwarder/server.go:103-113 | With no forwarder pinned, no reselection and a path with a next hop, a matched forwarder named after that hop is tried first. When no matched forwarder has that name, the matched list is tried in its own order. |
| `DiscoverForwarder.StickyIsPermutation` | pkg/networkservice/common/discoverforwarder/server.go:103-113 | The sticky rule, applied when the path has a next hop, keeps the multiset of candidates. |
| `DiscoverForwarder.CandidatesArePermutationOfMatched` | pkg/networkservice/common/discoverforwarder/server.go:95-113 | The candidates tried are a reordering of matchForwarders' result. |
| `DiscoverForwarder.Close` | pkg/networkservice/common/discoverforwarder/server.go:140-184 | The connection is passed on exactly once on every path. A client URL is added if and only if a forwarder name is known (stored, else the path's next hop), the lookup succeeds and finds an endpoint, and that endpoint's URL parses. The URL added is that parse. |
| `MemoryNs.MemoryNsServer.Register` | pkg/registry/common/memory/ns_server.go:60-71 | Returns next's reply. On error the store and the event log are unchanged. On success the reply is stored under its own name, overwriting any earlier entry, and one non-deleted event is logged. |
| `MemoryNs.MemoryNsServer.Unregister` | pkg/registry/common/memory/ns_server.go:164-170 | Exactly the entry of that name is removed. A deleted event carrying the removed entry is logged if and only if the name was present. The call is always passed on and next's reply returned. |
| `MemoryNs.MemoryNsServer.AllMatches` | pkg/registry/common/memory/ns_server.go:116-124 | The result lists exactly the stored services that match the query, each stored name once, in the order of the walk. Each result carries the name it is stored under, so no two results share a name. |
| `MemoryNs.MemoryNsServer.Find` | pkg/registry/common/memory/ns_server.go:82-94 | allMatches' list is walked under distinct stored names, each entry carrying its own name. Every match is sent in that order, then the query is passed on and next's error returned. The first failed send stops the loop there and returns the wrapped send error without passing the query on. |
| `Authorize.RegisterStep` | pkg/registry/common/authorize/nse_client.go:58-105 | Next is always called first with the caller's entry, with the peer option added when policies exist. Without policies the stage is transparent. A refusal from next is returned with no check and no map change. With policies the result is a success if and only if next succeeded and the check passed; then the reply's path IDs are stored under its name. A compensating Unregister of the reply is made if and only if the check failed on a name not yet in the map, and its error is wrapped into the result. The map changes only on success. |
| `Authorize.UnregisterStep` | pkg/registry/common/authorize/nse_client.go:111-147 | Next is always called once before any check. Without policies the stage is transparent. With policies the name is deleted if and only if next and the check both passed. A next error is returned first, and otherwise a check failure is returned. |
| `Authorize.RegisterThenUnregisterForgets` | pkg/registry/common/authorize/nse_client.go:58-147 | With policies admitting both calls, Register then Unregister of the reply leaves the name unknown and every other entry as before. |
| `Authorize.AuthorizeNseClient.Register` | pkg/registry/common/authorize/nse_client.go:58-105 | The endpoint client's Register returns, calls and leaves its map as `RegisterStep` says for endpoints. |
| `Authorize.AuthorizeNseClient.Unregister` | pkg/registry/common/authorize/nse_client.go:111-147 | The endpoint client's Unregister returns, calls and leaves its map as `UnregisterStep` says. |
| `Authorize.AuthorizeNsClient.Register` | pkg/registry/common/authorize/ns_client.go:58-106 | The service client's Register returns, calls and leaves its map as `RegisterStep` says for network services. |
| `Authorize.AuthorizeNsClient.Unregister` | pkg/registry/common/authorize/ns_client.go:112-148 | The service client's Unregister returns, calls and leaves its map as `UnregisterStep` says. |
| `DnsResolve.TranslateNse` | pkg/registry/common/dnsresolve/nse_server.go:65-88 | The record is rewritten in place to `Translated` of its old contents. |
| `DnsResolve.TranslatedNames` | pkg/registry/common/dnsresolve/nse_server.go:66-72 | The name is translated, the service-name list keeps its length, each element is translated in place, and URL and path IDs are kept. |
| `DnsResolve.RekeyIdentity` | pkg/registry/common/dnsresolve/nse_server.go:78-86 | A translator that fixes every service name leaves the labels map unchanged. |
| `DnsResolve.RekeyWithoutLabels` | pkg/registry/common/dnsresolve/nse_server.go:78-86 | When no service has labels, no key is added, moved or removed. |
| `DnsResolve.RekeyNeverGrows` | pkg/registry/common/dnsresolve/nse_server.go:78-86 | The labels map never gains keys. |
| `DnsResolve.RekeyRemovesNames` | pkg/registry/common/dnsresolve/nse_server.go:78-86 | When no service name is the translation of any service name, its own included, no old service name remains a key of the labels map. |
| `DnsResolve.RekeyMovesLabels` | pkg/registry/common/dnsresolve/nse_server.go:78-86 | With distinct names, distinct translations, and no name translated to another service's name, each labelled service's labels sit under its translated name. |
| `DnsResolve.RekeyKeepsOtherKeys` | pkg/registry/common/dnsresolve/nse_server.go:78-86 | For any translation, a key that is neither a service name nor a translation is present afterwards if and only if it was before, with the same labels. |
| `DnsResolve.ResolveNseFindsFirstInterdomain` | pkg/registry/common/dnsresolve/nse_server.go:91-102 | resolveNSE returns "" when no name is interdomain. Otherwise it returns the domain of the first interdomain name among the endpoint's name followed by its service names. |
| `DnsResolve.ResolveNseNameFirst` | pkg/registry/common/dnsresolve/nse_server.go:91-102 | An interdomain endpoint name decides the domain. |
| `DnsResolve.DnsFindNseServer.Send` | pkg/registry/common/dnsresolve/nse_server.go:135-145 | Each response is translated with Join and passed on, and its URL is overridden only when the nsmgr-proxy URL is known. The wrapped stream's error is returned. |
| `DnsResolve.DnsNseResolveServer.Register` | pkg/registry/common/dnsresolve/nse_server.go:104-127 | A resolution error is returned with the input untranslated and next not called. Otherwise the input is translated with Target and forwarded to the resolved URL. A next error is returned; a reply comes back as a fresh record translated with Join of the domain. |
| `DnsResolve.DnsNseResolveServer.Find` | pkg/registry/common/dnsresolve/nse_server.go:147-168 | A registry resolution error is returned untranslated and unforwarded. Otherwise the query is translated and forwarded, next's error is returned, and responses go through a new Send wrapper for the domain. A failed nsmgr-proxy resolution only leaves that wrapper without a URL. |
| `DnsResolve.DnsNseResolveServer.Unregister` | pkg/registry/common/dnsresolve/nse_server.go:170-183 | A resolution error is returned without translating or forwarding. Otherwise the translated endpoint is forwarded and next's reply returned. |
| `DnsResolve.DnsNseResolveFindClient.Recv` | pkg/registry/common/dnsresolve/nse_client.go:88-99 | A receive error is returned with the response untouched. Otherwise the response is translated with Join of the domain. |
| `DnsResolve.DnsNseResolveClient.Register` | pkg/registry/common/dnsresolve/nse_client.go:58-81 | As the server's Register, with the caller's options forwarded. |
| `DnsResolve.DnsNseResolveClient.Find` | pkg/registry/common/dnsresolve/nse_client.go:101-121 | A resolution error or next's error is returned as the error. Otherwise the query is translated with Target and forwarded with the options, and the stream is wrapped for the domain. |
| `DnsResolve.DnsNseResolveClient.UnregisterAsWritten` | pkg/registry/common/dnsresolve/nse_client.go:123-136 | The code as written: a resolution error is returned unforwarded. Otherwise the translated endpoint goes to the server-side next without the caller's options. |
| `DnsResolve.DnsNseResolveClient.Unregister` | pkg/registry/common/dnsresolve/nse_client.go:123-136 | The corrected Unregister: a resolution error is returned unforwarded. Otherwise the translated endpoint goes to the client-side next with the caller's options. |
| `DnsResolve.UnregisterDropsOptions` | pkg/registry/common/dnsresolve/nse_client.go:135 | On one endpoint and option list, the version as written forwards to the server chain with no options, and the corrected one to the client chain with the options. |

## Left out

- Concurrency: the atomicity of `serialize.Executor` and `genericsync.Map`. The executor is a FIFO
  queue, and a begin task queued earlier on a factory that is no longer current is the public
  `RegisterTask`/`UnregisterTask` method called with that factory.
- Contexts: `updateContext`, `postpone`, `initialCtxFunc`/`ctxFunc`, the event-factory context
  value (it is the `inExecutor` flag), deadlines, tracing and logging.
- The Find pass-throughs of the begin and authorize stages. They only call the rest of the chain.
- The memory store's watch path: event channels, `sendEvent`, `closeEventChannel` and
  `receiveEvent`. `events` records what Register and Unregister hand to the event executor.
- The NSE event factory source file is not part of this model. Its `afterCloseFunc` is taken to be
  "state = closed, then the afterClose callback", as in the network service factories. The NSE
  factories' own Register/Unregister triggers are therefore not modelled.
- Cancellation of a trigger's context is read when the task runs, which is what the code does.
- `NsEventFactory`: the begin NS stages that establish a network service factory are not part of
  this model. A caller sets `state`, `registration` and `response` directly, as
  `CloseThenRefresh` does.
- `NsEventFactory`: the server's call carries no options, so its calls are logged with an empty
  option list.
- `NsEventFactoryServer.AfterCloseFunc` always counts the callback. The code would panic on a nil
  afterClose, which its callers never pass.
- begin: the forwarded entry and the cached registration are values. The pointer sharing between
  `in`, `resp` and the cached copies (`Clone`) is not modelled.
- authorize: the path and peer are parameters. The policy input uses the path in the context when
  the check runs; the SPIFFE ID taken from the path and the peer is a parameter; `grpc.Peer` is
  the `PeerCapture` call option.
- authorize: the path-IDs map is owned by each client object. In the code it may be shared with
  other stages, and that sharing is not modelled.
- The default registry and nsmgr-proxy service names of dnsresolve are not part of this model.
  They are constructor parameters.
- `url.Parse`, `resolveDomain`, `interdomain.*`, `matchutils.*`, mergeNSE/mergeNS and the OPA
  policies are oracles.
- discoverforwarder: a nil `NetworkServiceLabels` entry and a missing key are the same. The
  `NewServer` panics on nil clients are not modelled.
- DnsResolve.RekeyMovesLabels: proved only when the names are distinct, their translations are
  distinct, and no name translates to another service's name. A name may translate to itself.
  When a translated name equals a later service name, the code's loop overwrites that later
  service's labels and then moves the earlier service's labels a second time. The general
  statement is `RekeyNeverGrows`.
- DnsResolve.RekeyRemovesNames: proved only when no name translates to any service name, its own
  included. A labelled name that is its own translation stays a key, so the stronger condition is
  needed here.
- DnsResolve.DnsNseResolveServer.Register: next's reply is modelled as a fresh record that is
  then translated. The code translates next's own reply object in place and returns it, so any
  sharing between that object and the caller's `nse` is not modelled.
- DnsResolve.DnsNseResolveClient.Register: next's reply is a fresh record, as in the server's
  Register. Sharing with the caller's `nse` is not modelled.

## Findings

| source | as written | input that shows it | evidently intended | confidence | as-written member | corrected member |
|---|---|---|---|---|---|---|
| pkg/registry/common/dnsresolve/nse_client.go:135 | The client's Unregister forwards through `next.NetworkServiceEndpointRegistryServer(ctx)` and drops `opts`. | Any Unregister that resolves, with a non-empty option list, such as `[Tagged("deadline")]`. | Forward through the client-side next with `opts...`, as Register and Find of the same client do. | not executed | `DnsResolve.DnsNseResolveClient.UnregisterAsWritten` | `DnsResolve.DnsNseResolveClient.Unregister` |
