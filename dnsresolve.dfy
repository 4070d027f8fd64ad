/**
  The dnsresolve registry stages, server and client. An endpoint whose name or service names
  carry an interdomain suffix ("name@domain") is sent to the registry of that domain: the stage
  finds the domain, resolves the registry's URL, strips the domain from every name before passing
  the endpoint on, and adds it back to the names of what comes back.

  The interdomain helpers and the DNS lookup are oracles. The endpoint is a mutable record,
  because translateNSE rewrites the endpoint it is given in place.
 */
module DnsResolve {
  import opened Wrappers
  import opened Api
  import opened Lists

  /** interdomain.Is, interdomain.Domain, interdomain.Target and interdomain.Join. */
  datatype Interdomain = Interdomain(
    isInterdomain: string -> bool,
    domain: string -> string,
    target: string -> string,
    join: (string, string) -> string)

  /** resolveDomain(service, domain): the resolved URL's string form, or the lookup's error. */
  type DomainResolver = (string, string) -> Result<string, Error>

  /** The translator that adds `domain` back to a name. */
  function Joiner(idom: Interdomain, domain: string): string -> string {
    (s: string) => idom.join(s, domain)
  }

  /** A registry.NetworkServiceEndpoint that the stages rewrite in place. */
  class NseRecord {
    var name: string
    const networkServiceNames: array<string>
    var networkServiceLabels: map<string, Labels>
    var url: string
    var pathIds: seq<string>

    /** The record's current contents as a value. */
    function Value(): NetworkServiceEndpoint
      reads this, networkServiceNames
    {
      NetworkServiceEndpoint(name, networkServiceNames[..], networkServiceLabels, url, pathIds)
    }

    /** A fresh record holding `e`, as unmarshalling a message yields one. */
    constructor (e: NetworkServiceEndpoint)
      ensures Value() == e
      ensures fresh(networkServiceNames)
    {
      name := e.name;
      networkServiceNames := new string[|e.networkServiceNames|](k requires 0 <= k < |e.networkServiceNames| => e.networkServiceNames[k]);
      networkServiceLabels := e.networkServiceLabels;
      url := e.url;
      pathIds := e.pathIds;
      new;
      assert networkServiceNames[..] == e.networkServiceNames;
    }
  }

  // ---------------------------------------------------------------------------------------------
  // translateNSE

  /** One loop step's label move: the labels under `from`, if any, now sit under `to`. */
  function Move(labels: map<string, Labels>, from: string, to: string): map<string, Labels> {
    if from in labels then (labels - {from})[to := labels[from]] else labels
  }

  /** The labels map after the loop has visited the services `names`, in order. */
  function Rekey(labels: map<string, Labels>, names: seq<string>, t: string -> string): map<string, Labels>
    decreases |names|
  {
    if names == [] then labels
    else
      var last := names[|names| - 1];
      Move(Rekey(labels, names[..|names| - 1], t), last, t(last))
  }

  /** The endpoint translateNSE leaves: every name translated and the labels re-keyed. */
  function Translated(e: NetworkServiceEndpoint, t: string -> string): NetworkServiceEndpoint {
    NetworkServiceEndpoint(
      t(e.name),
      seq(|e.networkServiceNames|, k requires 0 <= k < |e.networkServiceNames| => t(e.networkServiceNames[k])),
      Rekey(e.networkServiceLabels, e.networkServiceNames, t),
      e.url,
      e.pathIds)
  }

  /** translateNSE: rewrites the record in place. */
  method TranslateNse(nse: NseRecord, t: string -> string)
    modifies nse, nse.networkServiceNames
    ensures nse.Value() == Translated(old(nse.Value()), t)
  {
    ghost var original := nse.Value();
    nse.name := t(nse.name);
    var names := nse.networkServiceNames;
    var i := 0;
    while i < names.Length
      invariant 0 <= i <= names.Length
      invariant forall k :: 0 <= k < i ==> names[k] == t(original.networkServiceNames[k])
      invariant forall k :: i <= k < names.Length ==> names[k] == original.networkServiceNames[k]
      invariant nse.networkServiceLabels == Rekey(original.networkServiceLabels, original.networkServiceNames[..i], t)
      invariant nse.name == t(original.name) && nse.url == original.url && nse.pathIds == original.pathIds
    {
      var service := names[i];
      var target := t(service);
      names[i] := target;
      assert original.networkServiceNames[..i + 1][..i] == original.networkServiceNames[..i];
      if service in nse.networkServiceLabels {
        var labels := nse.networkServiceLabels[service];
        nse.networkServiceLabels := nse.networkServiceLabels - {service};
        nse.networkServiceLabels := nse.networkServiceLabels[target := labels];
      }
      i := i + 1;
    }
    assert original.networkServiceNames[..i] == original.networkServiceNames;
  }

  /** Translating keeps the number of service names and translates each one where it stands. */
  lemma TranslatedNames(e: NetworkServiceEndpoint, t: string -> string)
    ensures Translated(e, t).name == t(e.name)
    ensures |Translated(e, t).networkServiceNames| == |e.networkServiceNames|
    ensures forall k :: 0 <= k < |e.networkServiceNames| ==>
              Translated(e, t).networkServiceNames[k] == t(e.networkServiceNames[k])
    ensures Translated(e, t).url == e.url && Translated(e, t).pathIds == e.pathIds
  {
  }

  /** A translator that changes none of the service names leaves the labels as they are. */
  lemma {:induction false} RekeyIdentity(labels: map<string, Labels>, names: seq<string>, t: string -> string)
    requires forall k :: 0 <= k < |names| ==> t(names[k]) == names[k]
    ensures Rekey(labels, names, t) == labels
    decreases |names|
  {
    if names != [] {
      var front := names[..|names| - 1];
      RekeyIdentity(labels, front, t);
      var last := names[|names| - 1];
      if last in labels {
        assert (labels - {last})[last := labels[last]] == labels;
      }
    }
  }

  /** When no service carries labels, no key is added, moved or removed. */
  lemma {:induction false} RekeyWithoutLabels(labels: map<string, Labels>, names: seq<string>, t: string -> string)
    requires forall k :: 0 <= k < |names| ==> names[k] !in labels
    ensures Rekey(labels, names, t) == labels
    decreases |names|
  {
    if names != [] {
      RekeyWithoutLabels(labels, names[..|names| - 1], t);
    }
  }

  /** The labels map never grows: a move deletes one key before it adds one. */
  lemma {:induction false} RekeyNeverGrows(labels: map<string, Labels>, names: seq<string>, t: string -> string)
    ensures |Rekey(labels, names, t).Keys| <= |labels.Keys|
    decreases |names|
  {
    if names != [] {
      var front := names[..|names| - 1];
      var last := names[|names| - 1];
      RekeyNeverGrows(labels, front, t);
      var m := Rekey(labels, front, t);
      if last in m {
        var m' := (m - {last})[t(last) := m[last]];
        assert m'.Keys <= (m.Keys - {last}) + {t(last)};
        assert |(m.Keys - {last}) + {t(last)}| <= |m.Keys - {last}| + 1;
        assert |m.Keys - {last}| == |m.Keys| - 1;
      }
    }
  }

  /**
    Whether the translation of the names cannot collide: the names are distinct, so are their
    translations, and no name translates to another one. A name may translate to itself.
   */
  predicate Collisionless(names: seq<string>, t: string -> string) {
    && (forall j, k :: 0 <= j < k < |names| ==> names[j] != names[k] && t(names[j]) != t(names[k]))
    && (forall j, k :: 0 <= j < |names| && 0 <= k < |names| && j != k ==> t(names[j]) != names[k])
  }

  /** Whether no translation is a service name, its own included: every name really changes. */
  predicate RenamesAway(names: seq<string>, t: string -> string) {
    forall j, k :: 0 <= j < |names| && 0 <= k < |names| ==> t(names[j]) != names[k]
  }

  /** When every name translates away from all service names, no old service name is left as a key. */
  lemma {:induction false} RekeyRemovesNames(labels: map<string, Labels>, names: seq<string>, t: string -> string)
    requires RenamesAway(names, t)
    ensures forall k :: 0 <= k < |names| ==> names[k] !in Rekey(labels, names, t)
    decreases |names|
  {
    if names != [] {
      var n := |names| - 1;
      var front := names[..n];
      assert RenamesAway(front, t);
      RekeyRemovesNames(labels, front, t);
      forall k | 0 <= k < |names|
        ensures names[k] !in Rekey(labels, names, t)
      {
        assert t(names[n]) != names[k];
        if k < n {
          assert names[k] == front[k];
        }
      }
    }
  }

  /** A key that is neither a service name nor a translation keeps its labels, collisions or not. */
  lemma {:induction false} RekeyKeepsOtherKeys(labels: map<string, Labels>, names: seq<string>, t: string -> string, key: string)
    requires forall k :: 0 <= k < |names| ==> key != names[k] && key != t(names[k])
    ensures key in Rekey(labels, names, t) <==> key in labels
    ensures key in labels ==> Rekey(labels, names, t)[key] == labels[key]
    decreases |names|
  {
    if names != [] {
      var n := |names| - 1;
      var front := names[..n];
      assert forall k :: 0 <= k < n ==> key != front[k] && key != t(front[k]) by {
        forall k | 0 <= k < n ensures key != front[k] && key != t(front[k]) {
          assert front[k] == names[k];
        }
      }
      RekeyKeepsOtherKeys(labels, front, t, key);
      assert key != names[n] && key != t(names[n]);
    }
  }

  /** Without collisions, the labels of each labelled service sit under its translated name. */
  lemma {:induction false} RekeyMovesLabels(labels: map<string, Labels>, names: seq<string>, t: string -> string)
    requires Collisionless(names, t)
    ensures forall k :: 0 <= k < |names| && names[k] in labels ==>
              t(names[k]) in Rekey(labels, names, t) && Rekey(labels, names, t)[t(names[k])] == labels[names[k]]
    decreases |names|
  {
    if names != [] {
      var n := |names| - 1;
      var front := names[..n];
      var last := names[n];
      assert Collisionless(front, t);
      RekeyMovesLabels(labels, front, t);
      // `last` is neither an earlier name nor an earlier translation, so it kept its labels so far
      assert forall k :: 0 <= k < n ==> last != front[k] && last != t(front[k]);
      RekeyKeepsOtherKeys(labels, front, t, last);
      forall k | 0 <= k < |names| && names[k] in labels
        ensures t(names[k]) in Rekey(labels, names, t) && Rekey(labels, names, t)[t(names[k])] == labels[names[k]]
      {
        if k < n {
          assert names[k] == front[k];
          assert t(names[k]) != last && t(names[k]) != t(last);
        }
      }
    }
  }

  // ---------------------------------------------------------------------------------------------
  // resolveNSE

  /** The names resolveNSE looks at, in order: the endpoint's own name, then its services. */
  function NamesOf(e: NetworkServiceEndpoint): seq<string> {
    [e.name] + e.networkServiceNames
  }

  /** resolveNSE: the domain of the first interdomain name, or "" when there is none. */
  function ResolveNse(e: NetworkServiceEndpoint, idom: Interdomain): string {
    match FirstIndex(NamesOf(e), idom.isInterdomain)
    case Some(i) => idom.domain(NamesOf(e)[i])
    case None => ""
  }

  /** resolveNSE answers "" exactly when no name is interdomain, else the first one's domain. */
  lemma ResolveNseFindsFirstInterdomain(e: NetworkServiceEndpoint, idom: Interdomain)
    ensures var names := NamesOf(e);
      && ((forall k :: 0 <= k < |names| ==> !idom.isInterdomain(names[k])) ==> ResolveNse(e, idom) == "")
      && (forall i :: 0 <= i < |names| && idom.isInterdomain(names[i])
                      && (forall k :: 0 <= k < i ==> !idom.isInterdomain(names[k])) ==>
            ResolveNse(e, idom) == idom.domain(names[i]))
  {
    var names := NamesOf(e);
    var f := FirstIndex(names, idom.isInterdomain);
    forall i | 0 <= i < |names| && idom.isInterdomain(names[i]) && (forall k :: 0 <= k < i ==> !idom.isInterdomain(names[k]))
      ensures ResolveNse(e, idom) == idom.domain(names[i])
    {
      FirstIndexAt(names, idom.isInterdomain, i);
    }
  }

  /** An interdomain endpoint name decides the domain whatever its services say. */
  lemma ResolveNseNameFirst(e: NetworkServiceEndpoint, idom: Interdomain)
    requires idom.isInterdomain(e.name)
    ensures ResolveNse(e, idom) == idom.domain(e.name)
  {
    assert NamesOf(e)[0] == e.name;
  }

  // ---------------------------------------------------------------------------------------------
  // The server

  /** A call handed to the rest of the chain, with the client URL put into its context. */
  datatype Forward = Forward(clientUrl: string, nse: NetworkServiceEndpoint, opts: seq<CallOption>)

  /** dnsFindNSEServer: the stream wrapper that translates every endpoint a Find sends back. */
  class DnsFindNseServer {
    const domain: string
    const nseUrl: Option<string>
    const idom: Interdomain
    /** What was handed to the wrapped stream, in order. */
    var sent: seq<NetworkServiceEndpoint>

    constructor (domain: string, nseUrl: Option<string>, idom: Interdomain)
      ensures this.domain == domain && this.nseUrl == nseUrl && this.idom == idom && sent == []
    {
      this.domain := domain;
      this.nseUrl := nseUrl;
      this.idom := idom;
      sent := [];
    }

    /**
      Send. Adds the domain back to every name, overrides the URL only when the nsmgr-proxy URL
      is known, and passes the response on; `downstream` is the wrapped stream's answer.
     */
    method Send(resp: NseRecord, downstream: Option<Error>) returns (err: Option<Error>)
      modifies this, resp, resp.networkServiceNames
      ensures var translated := Translated(old(resp.Value()), Joiner(idom, domain));
        resp.Value() == (if nseUrl.Some? then translated.(url := nseUrl.value) else translated)
      ensures sent == old(sent) + [resp.Value()]
      ensures err == downstream
    {
      TranslateNse(resp, Joiner(idom, domain));
      if nseUrl.Some? {
        resp.url := nseUrl.value;
      }
      sent := sent + [resp.Value()];
      return downstream;
    }
  }

  class DnsNseResolveServer {
    const registryService: string
    const nsmgrProxyService: string
    const idom: Interdomain
    const resolveDomain: DomainResolver

    constructor (registryService: string, nsmgrProxyService: string, idom: Interdomain, resolveDomain: DomainResolver)
      ensures this.registryService == registryService && this.nsmgrProxyService == nsmgrProxyService
      ensures this.idom == idom && this.resolveDomain == resolveDomain
    {
      this.registryService := registryService;
      this.nsmgrProxyService := nsmgrProxyService;
      this.idom := idom;
      this.resolveDomain := resolveDomain;
    }

    /**
      Register. `next` is the rest of the chain's reply; `forwarded` is the call made, if any.
      The reply comes back as a fresh record with the domain joined to every name.
     */
    method Register(nse: NseRecord, next: Result<NetworkServiceEndpoint, Error>)
      returns (r: Result<NseRecord, Error>, forwarded: Option<Forward>)
      modifies nse, nse.networkServiceNames
      ensures var domain := ResolveNse(old(nse.Value()), idom);
        var u := resolveDomain(registryService, domain);
        && (u.Err? ==> r == Err(u.error) && forwarded == None && nse.Value() == old(nse.Value()))
        && (u.Ok? ==>
              && nse.Value() == Translated(old(nse.Value()), idom.target)
              && forwarded == Some(Forward(u.value, nse.Value(), []))
              && (next.Err? ==> r == Err(next.error))
              && (next.Ok? ==> r.Ok? && fresh(r.value)
                               && r.value.Value() == Translated(next.value, Joiner(idom, domain))))
    {
      var domain := ResolveNse(nse.Value(), idom);
      var u := resolveDomain(registryService, domain);
      if u.Err? {
        return Err(u.error), None;
      }
      TranslateNse(nse, idom.target);
      forwarded := Some(Forward(u.value, nse.Value(), []));
      if next.Err? {
        return Err(next.error), forwarded;
      }
      var resp := new NseRecord(next.value);
      TranslateNse(resp, Joiner(idom, domain));
      return Ok(resp), forwarded;
    }

    /**
      Find. Resolves the registry and, for the responses, the nsmgr-proxy of the query's domain;
      a failed nsmgr-proxy lookup is not an error and only leaves the URLs of the responses alone.
      `stream` is the wrapper the rest of the chain sends through and `nextErr` what it returns.
     */
    method Find(q: NseRecord, nextErr: Option<Error>)
      returns (err: Option<Error>, stream: Option<DnsFindNseServer>, forwarded: Option<Forward>)
      modifies q, q.networkServiceNames
      ensures var domain := ResolveNse(old(q.Value()), idom);
        var registry := resolveDomain(registryService, domain);
        var proxy := resolveDomain(nsmgrProxyService, domain);
        && (registry.Err? ==> err == Some(registry.error) && stream == None && forwarded == None
                              && q.Value() == old(q.Value()))
        && (registry.Ok? ==>
              && q.Value() == Translated(old(q.Value()), idom.target)
              && forwarded == Some(Forward(registry.value, q.Value(), []))
              && err == nextErr
              && stream.Some? && fresh(stream.value)
              && stream.value.domain == domain && stream.value.idom == idom && stream.value.sent == []
              && stream.value.nseUrl == (if proxy.Ok? then Some(proxy.value) else None))
    {
      var domain := ResolveNse(q.Value(), idom);
      var registry := resolveDomain(registryService, domain);
      if registry.Err? {
        return Some(registry.error), None, None;
      }
      var proxy := resolveDomain(nsmgrProxyService, domain);
      var nseUrl: Option<string> := None;
      if proxy.Ok? {
        nseUrl := Some(proxy.value);
      }
      TranslateNse(q, idom.target);
      var s := new DnsFindNseServer(domain, nseUrl, idom);
      return nextErr, Some(s), Some(Forward(registry.value, q.Value(), []));
    }

    /** Unregister. `next` is the rest of the chain's reply. */
    method Unregister(nse: NseRecord, next: EmptyReply) returns (reply: EmptyReply, forwarded: Option<Forward>)
      modifies nse, nse.networkServiceNames
      ensures var u := resolveDomain(registryService, ResolveNse(old(nse.Value()), idom));
        && (u.Err? ==> reply == EmptyReply(false, Some(u.error)) && forwarded == None
                       && nse.Value() == old(nse.Value()))
        && (u.Ok? ==> nse.Value() == Translated(old(nse.Value()), idom.target)
                      && forwarded == Some(Forward(u.value, nse.Value(), [])) && reply == next)
    {
      var domain := ResolveNse(nse.Value(), idom);
      var u := resolveDomain(registryService, domain);
      if u.Err? {
        return EmptyReply(false, Some(u.error)), None;
      }
      TranslateNse(nse, idom.target);
      return next, Some(Forward(u.value, nse.Value(), []));
    }
  }

  // ---------------------------------------------------------------------------------------------
  // The client

  /** dnsNSEResolveFindClient: the stream wrapper that translates every endpoint received. */
  class DnsNseResolveFindClient {
    const domain: string
    const idom: Interdomain

    constructor (domain: string, idom: Interdomain)
      ensures this.domain == domain && this.idom == idom
    {
      this.domain := domain;
      this.idom := idom;
    }

    /**
      Recv. `resp` and `upstream` are what the wrapped stream returned; an error is passed on
      with the response untouched, otherwise the domain is joined to every name.
     */
    method Recv(resp: NseRecord, upstream: Option<Error>) returns (r: NseRecord, err: Option<Error>)
      modifies resp, resp.networkServiceNames
      ensures r == resp && err == upstream
      ensures upstream.Some? ==> resp.Value() == old(resp.Value())
      ensures upstream.None? ==> resp.Value() == Translated(old(resp.Value()), Joiner(idom, domain))
    {
      if upstream.Some? {
        return resp, upstream;
      }
      TranslateNse(resp, Joiner(idom, domain));
      return resp, None;
    }
  }

  /** Which `next` an Unregister is handed to. */
  datatype Chain = ClientChain | ServerChain

  class DnsNseResolveClient {
    const registryService: string
    const idom: Interdomain
    const resolveDomain: DomainResolver

    constructor (registryService: string, idom: Interdomain, resolveDomain: DomainResolver)
      ensures this.registryService == registryService && this.idom == idom && this.resolveDomain == resolveDomain
    {
      this.registryService := registryService;
      this.idom := idom;
      this.resolveDomain := resolveDomain;
    }

    /** Register. `next` is the rest of the chain's reply. */
    method Register(nse: NseRecord, opts: seq<CallOption>, next: Result<NetworkServiceEndpoint, Error>)
      returns (r: Result<NseRecord, Error>, forwarded: Option<Forward>)
      modifies nse, nse.networkServiceNames
      ensures var domain := ResolveNse(old(nse.Value()), idom);
        var u := resolveDomain(registryService, domain);
        && (u.Err? ==> r == Err(u.error) && forwarded == None && nse.Value() == old(nse.Value()))
        && (u.Ok? ==>
              && nse.Value() == Translated(old(nse.Value()), idom.target)
              && forwarded == Some(Forward(u.value, nse.Value(), opts))
              && (next.Err? ==> r == Err(next.error))
              && (next.Ok? ==> r.Ok? && fresh(r.value)
                               && r.value.Value() == Translated(next.value, Joiner(idom, domain))))
    {
      var domain := ResolveNse(nse.Value(), idom);
      var u := resolveDomain(registryService, domain);
      if u.Err? {
        return Err(u.error), None;
      }
      TranslateNse(nse, idom.target);
      forwarded := Some(Forward(u.value, nse.Value(), opts));
      if next.Err? {
        return Err(next.error), forwarded;
      }
      var resp := new NseRecord(next.value);
      TranslateNse(resp, Joiner(idom, domain));
      return Ok(resp), forwarded;
    }

    /** Find. `nextErr` is the error the rest of the chain's Find returns, if any. */
    method Find(q: NseRecord, opts: seq<CallOption>, nextErr: Option<Error>)
      returns (r: Result<DnsNseResolveFindClient, Error>, forwarded: Option<Forward>)
      modifies q, q.networkServiceNames
      ensures var domain := ResolveNse(old(q.Value()), idom);
        var u := resolveDomain(registryService, domain);
        && (u.Err? ==> r == Err(u.error) && forwarded == None && q.Value() == old(q.Value()))
        && (u.Ok? ==>
              && q.Value() == Translated(old(q.Value()), idom.target)
              && forwarded == Some(Forward(u.value, q.Value(), opts))
              && (nextErr.Some? ==> r == Err(nextErr.value))
              && (nextErr.None? ==> r.Ok? && fresh(r.value) && r.value.domain == domain && r.value.idom == idom))
    {
      var domain := ResolveNse(q.Value(), idom);
      var u := resolveDomain(registryService, domain);
      if u.Err? {
        return Err(u.error), None;
      }
      TranslateNse(q, idom.target);
      forwarded := Some(Forward(u.value, q.Value(), opts));
      if nextErr.Some? {
        return Err(nextErr.value), forwarded;
      }
      var c := new DnsNseResolveFindClient(domain, idom);
      return Ok(c), forwarded;
    }

    /**
      Unregister as the code has it: the call goes to the server-side `next` of the context and
      the caller's options are dropped.
     */
    method UnregisterAsWritten(nse: NseRecord, opts: seq<CallOption>, next: EmptyReply)
      returns (reply: EmptyReply, forwarded: Option<(Chain, Forward)>)
      modifies nse, nse.networkServiceNames
      ensures var u := resolveDomain(registryService, ResolveNse(old(nse.Value()), idom));
        && (u.Err? ==> reply == EmptyReply(false, Some(u.error)) && forwarded == None
                       && nse.Value() == old(nse.Value()))
        && (u.Ok? ==> nse.Value() == Translated(old(nse.Value()), idom.target)
                      && forwarded == Some((ServerChain, Forward(u.value, nse.Value(), []))) && reply == next)
    {
      var domain := ResolveNse(nse.Value(), idom);
      var u := resolveDomain(registryService, domain);
      if u.Err? {
        return EmptyReply(false, Some(u.error)), None;
      }
      TranslateNse(nse, idom.target);
      return next, Some((ServerChain, Forward(u.value, nse.Value(), [])));
    }

    /**
      Unregister as the client's other operations go: the translated endpoint is handed to the
      client-side `next` with the caller's options.
     */
    method Unregister(nse: NseRecord, opts: seq<CallOption>, next: EmptyReply)
      returns (reply: EmptyReply, forwarded: Option<(Chain, Forward)>)
      modifies nse, nse.networkServiceNames
      ensures var u := resolveDomain(registryService, ResolveNse(old(nse.Value()), idom));
        && (u.Err? ==> reply == EmptyReply(false, Some(u.error)) && forwarded == None
                       && nse.Value() == old(nse.Value()))
        && (u.Ok? ==> nse.Value() == Translated(old(nse.Value()), idom.target)
                      && forwarded == Some((ClientChain, Forward(u.value, nse.Value(), opts))) && reply == next)
    {
      var domain := ResolveNse(nse.Value(), idom);
      var u := resolveDomain(registryService, domain);
      if u.Err? {
        return EmptyReply(false, Some(u.error)), None;
      }
      TranslateNse(nse, idom.target);
      return next, Some((ClientChain, Forward(u.value, nse.Value(), opts)));
    }
  }

  /**
    A concrete run of both Unregister versions on the same endpoint and options: the written one
    hands the endpoint to the server chain without the caller's options, the corrected one to
    the client chain with them.
   */
  method UnregisterDropsOptions() returns (asWritten: Option<(Chain, Forward)>, corrected: Option<(Chain, Forward)>)
    ensures asWritten.Some? && asWritten.value.0 == ServerChain && asWritten.value.1.opts == []
    ensures corrected.Some? && corrected.value.0 == ClientChain && corrected.value.1.opts == [Tagged("deadline")]
  {
    var idom := Interdomain((s: string) => false, (s: string) => "", (s: string) => s, (s: string, d: string) => s);
    var client := new DnsNseResolveClient("registry", idom, (service: string, domain: string) => Ok("tcp://registry"));
    var e := EndpointNamed("nse", ["service"], "");
    var first := new NseRecord(e);
    var second := new NseRecord(e);
    var reply: EmptyReply;
    reply, asWritten := client.UnregisterAsWritten(first, [Tagged("deadline")], EmptyReply(true, None));
    reply, corrected := client.Unregister(second, [Tagged("deadline")], EmptyReply(true, None));
  }
}
