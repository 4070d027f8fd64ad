/**
  The in-memory network service store of the registry: Register stores what the rest of the chain
  accepted, Unregister removes the entry, and a Find that does not watch sends every stored
  service that matches the query before passing the query on.

  The event channels of watching Finds are left out; `events` records, in order, the events the
  store hands to its event executor. `matches` is matchutils.MatchNetworkServices.
 */
module MemoryNs {
  import opened Wrappers
  import opened Api
  import opened Lists

  /** registry.NetworkServiceResponse. */
  datatype NsResponse = NsResponse(networkService: NetworkService, deleted: bool)

  /** matchutils.MatchNetworkServices(query, stored). */
  type NsMatcher = (NetworkService, NetworkService) -> bool

  /** Whether `keys` lists each of its elements once. */
  predicate Distinct(keys: seq<string>) {
    forall i, j :: 0 <= i < j < |keys| ==> keys[i] != keys[j]
  }

  class MemoryNsServer {
    var networkServices: map<string, NetworkService>
    var events: seq<NsResponse>
    const matches: NsMatcher

    /** Every entry is stored under its own name. */
    ghost predicate Valid()
      reads this
    {
      forall name :: name in networkServices ==> networkServices[name].name == name
    }

    constructor (matches: NsMatcher)
      ensures Valid()
      ensures networkServices == map[] && events == [] && this.matches == matches
    {
      networkServices := map[];
      events := [];
      this.matches := matches;
    }

    /**
      Register. `next` is the rest of the chain's reply to `ns`. Only an accepted registration is
      stored, under the name of the reply, and announced as an event.
     */
    method Register(ns: NetworkService, next: Result<NetworkService, Error>) returns (r: Result<NetworkService, Error>)
      requires Valid()
      modifies this
      ensures Valid()
      ensures r == next
      ensures next.Err? ==> networkServices == old(networkServices) && events == old(events)
      ensures next.Ok? ==> (networkServices == old(networkServices)[next.value.name := next.value]
                            && events == old(events) + [NsResponse(next.value, false)])
    {
      if next.Err? {
        return next;
      }
      var resp := next.value;
      networkServices := networkServices[resp.name := resp];
      events := events + [NsResponse(resp, false)];
      return Ok(resp);
    }

    /**
      Unregister. Removes the entry of that name, announces the removed entry when there was one,
      and always passes the call on; `next` is the rest of the chain's reply, returned as it is.
     */
    method Unregister(ns: NetworkService, next: EmptyReply) returns (reply: EmptyReply)
      requires Valid()
      modifies this
      ensures Valid()
      ensures reply == next
      ensures networkServices == old(networkServices) - {ns.name}
      ensures ns.name in old(networkServices) ==>
                events == old(events) + [NsResponse(old(networkServices)[ns.name], true)]
      ensures ns.name !in old(networkServices) ==> events == old(events)
    {
      if ns.name in networkServices {
        var removed := networkServices[ns.name];
        networkServices := networkServices - {ns.name};
        events := events + [NsResponse(removed, true)];
      }
      return next;
    }

    /**
      allMatches. The map is walked in no particular order; `keys` is the order this walk took.
      The result lists every stored service that matches the query, each once, and nothing else;
      since each is stored under its own name, no two results share a name.
     */
    method AllMatches(query: NetworkService) returns (result: seq<NetworkService>, ghost keys: seq<string>)
      requires Valid()
      ensures |keys| == |result| && Distinct(keys)
      ensures forall i :: 0 <= i < |keys| ==>
                keys[i] in networkServices && result[i] == networkServices[keys[i]] && result[i].name == keys[i]
      ensures forall i, j :: 0 <= i < j < |result| ==> result[i].name != result[j].name
      ensures forall name :: name in networkServices ==>
                (name in keys <==> matches(query, networkServices[name]))
    {
      result := [];
      keys := [];
      var remaining := networkServices.Keys;
      while remaining != {}
        invariant remaining <= networkServices.Keys
        invariant |keys| == |result| && Distinct(keys)
        invariant forall i :: 0 <= i < |keys| ==>
                    keys[i] in networkServices && keys[i] !in remaining && result[i] == networkServices[keys[i]]
        invariant forall name :: name in networkServices && name !in remaining ==>
                    (name in keys <==> matches(query, networkServices[name]))
        decreases remaining
      {
        var name :| name in remaining;
        var ns := networkServices[name];
        if matches(query, ns) {
          result := result + [ns];
          keys := keys + [name];
        }
        remaining := remaining - {name};
      }
    }

    /**
      The Find branch that does not watch. Sends each match in the order allMatches gave; the
      first send that fails ends Find with that error wrapped, and otherwise the query is passed
      on and `nextFind` is what the rest of the chain returned. `sent` lists the sends attempted
      and `all` the order allMatches gave, `keys` the names it walked them under.
     */
    method Find(query: NsQuery, send: NetworkService -> Option<Error>, nextFind: Option<Error>)
      returns (err: Option<Error>, sent: seq<NetworkService>, delegated: bool, all: seq<NetworkService>,
               ghost keys: seq<string>)
      requires Valid()
      ensures |keys| == |all| && Distinct(keys)
      ensures forall i :: 0 <= i < |keys| ==>
                keys[i] in networkServices && all[i] == networkServices[keys[i]] && all[i].name == keys[i]
      ensures forall i, j :: 0 <= i < j < |all| ==> all[i].name != all[j].name
      ensures forall ns :: ns in all ==> ns in networkServices.Values && matches(query.networkService, ns)
      ensures forall name :: name in networkServices && matches(query.networkService, networkServices[name]) ==>
                networkServices[name] in all
      ensures var f := FirstIndex(all, (ns: NetworkService) => send(ns).Some?);
        && (f.None? ==> sent == all && delegated && err == nextFind)
        && (f.Some? ==> sent == all[..f.value + 1] && !delegated
                        && err == Some(SendFailed(send(all[f.value]).value, all[f.value])))
    {
      all, keys := AllMatches(query.networkService);
      sent := [];
      var i := 0;
      while i < |all|
        invariant 0 <= i <= |all|
        invariant sent == all[..i]
        invariant forall k :: 0 <= k < i ==> send(all[k]).None?
      {
        sent := sent + [all[i]];
        var e := send(all[i]);
        if e.Some? {
          assert FirstIndex(all, (ns: NetworkService) => send(ns).Some?) == Some(i) by {
            FirstIndexAt(all, (ns: NetworkService) => send(ns).Some?, i);
          }
          return Some(SendFailed(e.value, all[i])), sent, false, all, keys;
        }
        i := i + 1;
      }
      FirstIndexNone(all, (ns: NetworkService) => send(ns).Some?);
      return nextFind, sent, true, all, keys;
    }
  }
}
