/**
  The discoverforwarder stage of the network service manager: on Request it looks up the network
  service, finds the forwarders registered on this manager, keeps those whose labels fit the
  service's matches, prefers the forwarder already on the connection's path, and tries the
  candidates in order until one accepts; on Close it routes the Close to the connection's
  forwarder when it can find it and always passes the Close on.

  The registry clients (`Find`), `matchutils.IsSubset`, `url.Parse` and the rest of the chain are
  oracles handed in as function values; the forwarder name kept in the connection's metadata is
  the `loadedName` parameter and the name the stage stores is the `stored` result.
 */
module DiscoverForwarder {
  import opened Wrappers
  import opened Api
  import opened Lists

  /** networkservice.State. */
  datatype State = Up | Down | RefreshRequested | ReselectRequested

  /** The parts of networkservice.Connection this stage reads. */
  datatype Connection = Connection(
    state: State,
    networkService: string,
    payload: string,
    labels: Labels,
    path: Path)

  datatype NetworkServiceRequest = NetworkServiceRequest(connection: Connection)

  /** A parsed URL (url.URL) as produced by the `parseUrl` oracle. */
  type Url = string

  /** The stage's configuration; the registry clients are not fields here but oracles per call. */
  datatype Server = Server(forwarderServiceName: string, nsmgrUrl: string)

  /** The configuration NewServer builds before options apply. */
  const DefaultServer := Server("forwarder", "")

  /** matchutils.IsSubset(a, b, nsLabels). */
  type SubsetTest = (Labels, Labels, Labels) -> bool

  /** Registry clients' Find, each already drained into a list (ReadNetworkService[Endpoint]List). */
  type NsFinder = NsQuery -> Result<seq<NetworkService>, Error>
  type NseFinder = NseQuery -> Result<seq<NetworkServiceEndpoint>, Error>

  // ---------------------------------------------------------------------------------------------
  // matchForwarders

  /** The labels a match asks of a forwarder; a match without labels asks for `p2p=true`. */
  function MatchLabels(m: Match): Labels {
    if m.metadataLabels.None? then map["p2p" := "true"] else m.metadataLabels.value
  }

  /** Whether the match's source selector fits the connection's labels. */
  predicate SourceFits(isSubset: SubsetTest, nsLabels: Labels, m: Match) {
    isSubset(nsLabels, m.sourceSelector, nsLabels)
  }

  /** Whether endpoint `e` offers labels for service `svc` and they satisfy `matchLabels`. */
  predicate Offers(svc: string, isSubset: SubsetTest, nsLabels: Labels, matchLabels: Labels, e: NetworkServiceEndpoint) {
    svc in e.networkServiceLabels && isSubset(e.networkServiceLabels[svc], matchLabels, nsLabels)
  }

  /** The endpoints of `nses`, in order, that offer labels satisfying `matchLabels`. */
  function Filter(svc: string, isSubset: SubsetTest, nsLabels: Labels, matchLabels: Labels, nses: seq<NetworkServiceEndpoint>)
    : (r: seq<NetworkServiceEndpoint>)
    ensures |r| <= |nses|
  {
    if nses == [] then []
    else
      var last := nses[|nses| - 1];
      var front := Filter(svc, isSubset, nsLabels, matchLabels, nses[..|nses| - 1]);
      if Offers(svc, isSubset, nsLabels, matchLabels, last) then front + [last] else front
  }

  /** Filter keeps exactly the endpoints that offer the labels. */
  lemma {:induction false} FilterKeepsExactlyOffering(svc: string, isSubset: SubsetTest, nsLabels: Labels, matchLabels: Labels,
                                                      nses: seq<NetworkServiceEndpoint>, e: NetworkServiceEndpoint)
    ensures e in Filter(svc, isSubset, nsLabels, matchLabels, nses)
        <==> e in nses && Offers(svc, isSubset, nsLabels, matchLabels, e)
    decreases |nses|
  {
    if nses != [] {
      var front := nses[..|nses| - 1];
      assert nses == front + [nses[|nses| - 1]];
      FilterKeepsExactlyOffering(svc, isSubset, nsLabels, matchLabels, front, e);
    }
  }

  /** The forwarders chosen by the first match that fits and either finds some or does not fall through. */
  function SelectForwarders(svc: string, isSubset: SubsetTest, nsLabels: Labels, matches: seq<Match>, nses: seq<NetworkServiceEndpoint>)
    : seq<NetworkServiceEndpoint>
  {
    if matches == [] then []
    else if !SourceFits(isSubset, nsLabels, matches[0]) then SelectForwarders(svc, isSubset, nsLabels, matches[1..], nses)
    else
      var found := Filter(svc, isSubset, nsLabels, MatchLabels(matches[0]), nses);
      if matches[0].fallthrough && found == [] then SelectForwarders(svc, isSubset, nsLabels, matches[1..], nses)
      else found
  }

  /** What matchForwarders returns: everything when the service has no matches. */
  function Matched(svc: string, isSubset: SubsetTest, nsLabels: Labels, ns: NetworkService, nses: seq<NetworkServiceEndpoint>)
    : seq<NetworkServiceEndpoint>
  {
    if |ns.matches| == 0 then nses else SelectForwarders(svc, isSubset, nsLabels, ns.matches, nses)
  }

  /** matchForwarders: the nested loops over matches and endpoints. */
  method MatchForwarders(d: Server, isSubset: SubsetTest, nsLabels: Labels, ns: NetworkService, nses: seq<NetworkServiceEndpoint>)
    returns (result: seq<NetworkServiceEndpoint>)
    ensures result == Matched(d.forwarderServiceName, isSubset, nsLabels, ns, nses)
    ensures |ns.matches| == 0 ==> result == nses
  {
    var svc := d.forwarderServiceName;
    if |ns.matches| == 0 {
      return nses;
    }
    result := [];
    var i := 0;
    while i < |ns.matches|
      invariant 0 <= i <= |ns.matches|
      invariant result == []
      invariant SelectForwarders(svc, isSubset, nsLabels, ns.matches, nses)
             == SelectForwarders(svc, isSubset, nsLabels, ns.matches[i..], nses)
    {
      var m := ns.matches[i];
      assert ns.matches[i..][1..] == ns.matches[i + 1..];
      if !isSubset(nsLabels, m.sourceSelector, nsLabels) {
        i := i + 1;
        continue;
      }
      var matchLabels: Labels;
      if m.metadataLabels.None? {
        matchLabels := map["p2p" := "true"];
      } else {
        matchLabels := m.metadataLabels.value;
      }
      result := FilterForwarders(svc, isSubset, nsLabels, matchLabels, nses);
      if m.fallthrough && |result| == 0 {
        i := i + 1;
        continue;
      }
      break;
    }
  }

  /** The inner loop of matchForwarders: the endpoints that offer labels satisfying one match. */
  method FilterForwarders(svc: string, isSubset: SubsetTest, nsLabels: Labels, matchLabels: Labels,
                          nses: seq<NetworkServiceEndpoint>)
    returns (result: seq<NetworkServiceEndpoint>)
    ensures result == Filter(svc, isSubset, nsLabels, matchLabels, nses)
  {
    result := [];
    var j := 0;
    while j < |nses|
      invariant 0 <= j <= |nses|
      invariant result == Filter(svc, isSubset, nsLabels, matchLabels, nses[..j])
    {
      var nse := nses[j];
      assert nses[..j + 1][..j] == nses[..j];
      if svc !in nse.networkServiceLabels {
        j := j + 1;
        continue;
      }
      if isSubset(nse.networkServiceLabels[svc], matchLabels, nsLabels) {
        result := result + [nse];
      }
      j := j + 1;
    }
    assert nses[..j] == nses;
  }

  /** Filter keeps the order of the endpoints it keeps. */
  lemma {:induction false} FilterIsSubsequence(svc: string, isSubset: SubsetTest, nsLabels: Labels, matchLabels: Labels,
                                               nses: seq<NetworkServiceEndpoint>)
    ensures IsSubsequence(Filter(svc, isSubset, nsLabels, matchLabels, nses), nses)
  {
    var idx := FilterPositions(svc, isSubset, nsLabels, matchLabels, nses);
  }

  lemma {:induction false} FilterPositions(svc: string, isSubset: SubsetTest, nsLabels: Labels, matchLabels: Labels,
                                           nses: seq<NetworkServiceEndpoint>)
    returns (idx: seq<nat>)
    ensures Embeds(Filter(svc, isSubset, nsLabels, matchLabels, nses), nses, idx)
    ensures forall i :: 0 <= i < |idx| ==> idx[i] < |nses|
    decreases |nses|
  {
    if nses == [] {
      idx := [];
    } else {
      var n := |nses| - 1;
      var front := nses[..n];
      var prev := FilterPositions(svc, isSubset, nsLabels, matchLabels, front);
      var f := Filter(svc, isSubset, nsLabels, matchLabels, front);
      if Offers(svc, isSubset, nsLabels, matchLabels, nses[n]) {
        idx := prev + [n];
        assert Filter(svc, isSubset, nsLabels, matchLabels, nses) == f + [nses[n]];
      } else {
        idx := prev;
      }
    }
  }

  /**
    A non-empty selection comes from one match: the first whose source selector fits and that
    either found forwarders or does not fall through; every fitting match before it fell through
    finding nothing.
   */
  lemma {:induction false} SelectionComesFromOneMatch(svc: string, isSubset: SubsetTest, nsLabels: Labels,
                                                      matches: seq<Match>, nses: seq<NetworkServiceEndpoint>)
    ensures var r := SelectForwarders(svc, isSubset, nsLabels, matches, nses);
      r == [] ||
      exists k :: 0 <= k < |matches| && SourceFits(isSubset, nsLabels, matches[k])
        && r == Filter(svc, isSubset, nsLabels, MatchLabels(matches[k]), nses)
        && (forall j :: 0 <= j < k && SourceFits(isSubset, nsLabels, matches[j]) ==>
              matches[j].fallthrough && Filter(svc, isSubset, nsLabels, MatchLabels(matches[j]), nses) == [])
  {
    if matches != [] {
      var r := SelectForwarders(svc, isSubset, nsLabels, matches, nses);
      var found := Filter(svc, isSubset, nsLabels, MatchLabels(matches[0]), nses);
      if SourceFits(isSubset, nsLabels, matches[0]) && !(matches[0].fallthrough && found == []) {
        assert r == found;
      } else {
        SelectionComesFromOneMatch(svc, isSubset, nsLabels, matches[1..], nses);
        if r != [] {
          var k :| 0 <= k < |matches[1..]| && SourceFits(isSubset, nsLabels, matches[1..][k])
            && r == Filter(svc, isSubset, nsLabels, MatchLabels(matches[1..][k]), nses)
            && (forall j :: 0 <= j < k && SourceFits(isSubset, nsLabels, matches[1..][j]) ==>
                  matches[1..][j].fallthrough && Filter(svc, isSubset, nsLabels, MatchLabels(matches[1..][j]), nses) == []);
          assert SourceFits(isSubset, nsLabels, matches[k + 1]);
          forall j | 0 <= j < k + 1 && SourceFits(isSubset, nsLabels, matches[j])
            ensures matches[j].fallthrough && Filter(svc, isSubset, nsLabels, MatchLabels(matches[j]), nses) == []
          {
            if j > 0 {
              assert matches[j] == matches[1..][j - 1];
            }
          }
        }
      }
    }
  }

  /** matchForwarders keeps the endpoints it returns in their registry order. */
  lemma MatchedIsSubsequence(svc: string, isSubset: SubsetTest, nsLabels: Labels, ns: NetworkService,
                             nses: seq<NetworkServiceEndpoint>)
    ensures IsSubsequence(Matched(svc, isSubset, nsLabels, ns, nses), nses)
  {
    if |ns.matches| == 0 {
      SubsequenceOfSelf(nses);
    } else {
      SelectionComesFromOneMatch(svc, isSubset, nsLabels, ns.matches, nses);
      var r := SelectForwarders(svc, isSubset, nsLabels, ns.matches, nses);
      if r == [] {
        assert Embeds(r, nses, []);
      } else {
        var k :| 0 <= k < |ns.matches| && SourceFits(isSubset, nsLabels, ns.matches[k])
          && r == Filter(svc, isSubset, nsLabels, MatchLabels(ns.matches[k]), nses);
        FilterIsSubsequence(svc, isSubset, nsLabels, MatchLabels(ns.matches[k]), nses);
      }
    }
  }

  /**
    With matches, every forwarder returned is a registered one that offers labels for the
    forwarder service, and those labels satisfy the labels of a match whose selector fits.
   */
  lemma MatchedOfferLabels(svc: string, isSubset: SubsetTest, nsLabels: Labels, ns: NetworkService,
                           nses: seq<NetworkServiceEndpoint>, e: NetworkServiceEndpoint)
    requires |ns.matches| > 0
    requires e in Matched(svc, isSubset, nsLabels, ns, nses)
    ensures e in nses && svc in e.networkServiceLabels
    ensures exists k :: 0 <= k < |ns.matches| && SourceFits(isSubset, nsLabels, ns.matches[k])
                        && Offers(svc, isSubset, nsLabels, MatchLabels(ns.matches[k]), e)
  {
    SelectionComesFromOneMatch(svc, isSubset, nsLabels, ns.matches, nses);
    var k :| 0 <= k < |ns.matches| && SourceFits(isSubset, nsLabels, ns.matches[k])
      && Matched(svc, isSubset, nsLabels, ns, nses) == Filter(svc, isSubset, nsLabels, MatchLabels(ns.matches[k]), nses);
    FilterKeepsExactlyOffering(svc, isSubset, nsLabels, MatchLabels(ns.matches[k]), nses, e);
  }

  // ---------------------------------------------------------------------------------------------
  // The sticky forwarder

  /** The candidate list with the first candidate named `name` swapped into position 0. */
  function Promoted(nses: seq<NetworkServiceEndpoint>, name: string): (r: seq<NetworkServiceEndpoint>)
    ensures |r| == |nses|
  {
    match FirstIndex(nses, (e: NetworkServiceEndpoint) => e.name == name)
    case None => nses
    case Some(i) => nses[0 := nses[i]][i := nses[0]]
  }

  /** The loop that swaps the previous hop's forwarder to the front of the local candidate slice. */
  method PromoteSticky(nses: array<NetworkServiceEndpoint>, name: string)
    modifies nses
    ensures nses[..] == Promoted(old(nses[..]), name)
  {
    ghost var original := nses[..];
    var i := 0;
    while i < nses.Length
      invariant 0 <= i <= nses.Length
      invariant nses[..] == original
      invariant forall k :: 0 <= k < i ==> nses[k].name != name
    {
      if nses[i].name == name {
        assert FirstIndex(original, (e: NetworkServiceEndpoint) => e.name == name) == Some(i) by {
          FirstIndexAt(original, (e: NetworkServiceEndpoint) => e.name == name, i);
        }
        nses[0], nses[i] := nses[i], nses[0];
        return;
      }
      i := i + 1;
    }
  }

  /** The sticky swap only reorders: the candidates form the same multiset. */
  lemma PromotedIsPermutation(nses: seq<NetworkServiceEndpoint>, name: string)
    ensures |Promoted(nses, name)| == |nses|
    ensures multiset(Promoted(nses, name)) == multiset(nses)
  {
    match FirstIndex(nses, (e: NetworkServiceEndpoint) => e.name == name)
    case None =>
    case Some(i) =>
      var s1 := nses[0 := nses[i]];
      assert multiset(s1) == multiset(nses) - multiset{nses[0]} + multiset{nses[i]};
      assert multiset(s1[i := nses[0]]) == multiset(s1) - multiset{s1[i]} + multiset{nses[0]};
  }

  /**
    When some candidate carries the name, the first such candidate is now at position 0, the old
    front candidate took its place, and every other position is unchanged.
   */
  lemma PromotedSwapsFirstNamed(nses: seq<NetworkServiceEndpoint>, name: string, i: nat)
    requires i < |nses| && nses[i].name == name
    requires forall k :: 0 <= k < i ==> nses[k].name != name
    ensures Promoted(nses, name)[0] == nses[i]
    ensures Promoted(nses, name)[i] == nses[0]
    ensures forall k :: 0 <= k < |nses| && k != 0 && k != i ==> Promoted(nses, name)[k] == nses[k]
  {
    FirstIndexAt(nses, (e: NetworkServiceEndpoint) => e.name == name, i);
  }

  /** Without a candidate of that name the list is left as it is. */
  lemma PromotedWithoutNameIsIdentity(nses: seq<NetworkServiceEndpoint>, name: string)
    requires forall k :: 0 <= k < |nses| ==> nses[k].name != name
    ensures Promoted(nses, name) == nses
  {
  }

  // ---------------------------------------------------------------------------------------------
  // Trying the candidates

  /** How the candidate loop ends: a candidate accepted, or all failed with the accumulated error. */
  datatype Attempt = Selected(index: nat, connection: Connection) | AllFailed(err: Error)

  /** Whether the candidate was tried and failed, or was skipped because its URL does not parse. */
  predicate Rejected(parseUrl: string -> Option<Url>, next: Url -> Result<Connection, Error>, e: NetworkServiceEndpoint) {
    parseUrl(e.url).None? || next(parseUrl(e.url).value).Err?
  }

  /** The candidate loop from position `i`, with the error accumulated so far. */
  function TryFrom(nses: seq<NetworkServiceEndpoint>, i: nat, acc: Error,
                   parseUrl: string -> Option<Url>, next: Url -> Result<Connection, Error>): (a: Attempt)
    ensures a.Selected? ==> i <= a.index < |nses|
    decreases |nses| - i
  {
    if i >= |nses| then AllFailed(acc)
    else match parseUrl(nses[i].url)
      case None => TryFrom(nses, i + 1, acc, parseUrl, next)
      case Some(u) =>
        match next(u)
        case Ok(c) => Selected(i, c)
        case Err(e) => TryFrom(nses, i + 1, SelectFailed(acc, i, nses[i].name, e), parseUrl, next)
  }

  /**
    The loop returns the first candidate, in list order from `i`, whose URL parses and that next
    accepts; every candidate before it was rejected.
   */
  lemma {:induction false} TryFromSelectsFirstAccepting(nses: seq<NetworkServiceEndpoint>, i: nat, acc: Error,
                                                        parseUrl: string -> Option<Url>, next: Url -> Result<Connection, Error>)
    ensures var a := TryFrom(nses, i, acc, parseUrl, next);
      a.Selected? ==>
        && i <= a.index < |nses|
        && parseUrl(nses[a.index].url).Some?
        && next(parseUrl(nses[a.index].url).value) == Ok(a.connection)
        && forall k :: i <= k < a.index ==> Rejected(parseUrl, next, nses[k])
    decreases |nses| - i
  {
    if i < |nses| {
      TryFromSelectsFirstAccepting(nses, i + 1, acc, parseUrl, next);
      match parseUrl(nses[i].url)
      case None =>
      case Some(u) =>
        match next(u)
        case Ok(c) =>
        case Err(e) => TryFromSelectsFirstAccepting(nses, i + 1, SelectFailed(acc, i, nses[i].name, e), parseUrl, next);
    }
  }

  /** The loop fails exactly when every candidate from `i` on is rejected. */
  lemma {:induction false} TryFromFailsIffAllRejected(nses: seq<NetworkServiceEndpoint>, i: nat, acc: Error,
                                                      parseUrl: string -> Option<Url>, next: Url -> Result<Connection, Error>)
    ensures TryFrom(nses, i, acc, parseUrl, next).AllFailed?
        <==> forall k :: i <= k < |nses| ==> Rejected(parseUrl, next, nses[k])
    decreases |nses| - i
  {
    if i < |nses| {
      match parseUrl(nses[i].url)
      case None => TryFromFailsIffAllRejected(nses, i + 1, acc, parseUrl, next);
      case Some(u) =>
        match next(u)
        case Ok(c) =>
        case Err(e) => TryFromFailsIffAllRejected(nses, i + 1, SelectFailed(acc, i, nses[i].name, e), parseUrl, next);
    }
  }

  /** Each rejected candidate whose URL parsed adds one layer to the accumulated error. */
  function Failures(nses: seq<NetworkServiceEndpoint>, i: nat, parseUrl: string -> Option<Url>): nat
    decreases |nses| - i
  {
    if i >= |nses| then 0
    else (if parseUrl(nses[i].url).Some? then 1 else 0) + Failures(nses, i + 1, parseUrl)
  }

  /** The number of SelectFailed layers wrapped around the initial error. */
  function Layers(e: Error): nat {
    if e.SelectFailed? then 1 + Layers(e.cause) else 0
  }

  /** When all candidates fail, the error holds one layer per candidate that was actually tried. */
  lemma {:induction false} AllFailedWrapsEveryTriedCandidate(nses: seq<NetworkServiceEndpoint>, i: nat, acc: Error,
                                                             parseUrl: string -> Option<Url>, next: Url -> Result<Connection, Error>)
    ensures var a := TryFrom(nses, i, acc, parseUrl, next);
      a.AllFailed? ==> Layers(a.err) == Layers(acc) + Failures(nses, i, parseUrl)
    decreases |nses| - i
  {
    if i < |nses| {
      match parseUrl(nses[i].url)
      case None => AllFailedWrapsEveryTriedCandidate(nses, i + 1, acc, parseUrl, next);
      case Some(u) =>
        match next(u)
        case Ok(c) =>
        case Err(e) => AllFailedWrapsEveryTriedCandidate(nses, i + 1, SelectFailed(acc, i, nses[i].name, e), parseUrl, next);
    }
  }

  // ---------------------------------------------------------------------------------------------
  // discoverNetworkService and Request

  /** The query discoverNetworkService sends. */
  function NsQueryFor(name: string, payload: string): NsQuery {
    NsQuery(NetworkService(name, payload, [], []))
  }

  /** discoverNetworkService: the first listed service with exactly the requested name. */
  function DiscoverNetworkService(findNs: NsFinder, name: string, payload: string): (r: Result<NetworkService, Error>)
    ensures findNs(NsQueryFor(name, payload)).Err? ==>
              r == Err(FindFailed(findNs(NsQueryFor(name, payload)).error, NsQueryFor(name, payload)))
    ensures findNs(NsQueryFor(name, payload)).Ok? ==>
              var list := findNs(NsQueryFor(name, payload)).value;
              (r.Ok? ==> exists i :: 0 <= i < |list| && list[i] == r.value && r.value.name == name
                                     && forall j :: 0 <= j < i ==> list[j].name != name)
              && (r.Err? <==> forall i :: 0 <= i < |list| ==> list[i].name != name)
              && (r.Err? ==> r.error == Failure("network service " + name + " is not found"))
  {
    var query := NsQueryFor(name, payload);
    match findNs(query)
    case Err(e) => Err(FindFailed(e, query))
    case Ok(list) =>
      match FirstIndex(list, (ns: NetworkService) => ns.name == name)
      case Some(i) => Ok(list[i])
      case None => Err(Failure("network service " + name + " is not found"))
  }

  /** The forwarder name the Request honours: none when the connection asks for reselection. */
  function PinnedName(loadedName: string, conn: Connection): string {
    if conn.state == ReselectRequested then "" else loadedName
  }

  /** The Find query for forwarders on this manager. */
  function ForwarderQuery(d: Server, name: string): NseQuery {
    NseQuery(EndpointNamed(name, [d.forwarderServiceName], d.nsmgrUrl))
  }

  /** The candidates with the path's next hop promoted, when the path has one. */
  function Sticky(nses: seq<NetworkServiceEndpoint>, path: Path): (r: seq<NetworkServiceEndpoint>)
    ensures |r| == |nses|
  {
    if |path.pathSegments| > path.index + 1 then Promoted(nses, path.pathSegments[path.index + 1].name) else nses
  }

  /** The ordered candidate list Request tries, or the error it returns before trying any. */
  function Candidates(d: Server, request: NetworkServiceRequest, loadedName: string,
                      findNs: NsFinder, findNse: NseFinder, isSubset: SubsetTest): (c: Result<seq<NetworkServiceEndpoint>, Error>)
    ensures c.Ok? ==> |c.value| > 0
  {
    var conn := request.connection;
    var name := PinnedName(loadedName, conn);
    match DiscoverNetworkService(findNs, conn.networkService, conn.payload)
    case Err(e) => Err(e)
    case Ok(ns) =>
      match findNse(ForwarderQuery(d, name))
      case Err(e) => Err(Wrapped(e, "failed to find " + d.forwarderServiceName + " on " + d.nsmgrUrl))
      case Ok(list) =>
        var nses := Matched(d.forwarderServiceName, isSubset, conn.labels, ns, list);
        if |nses| == 0 then
          Err(if name != "" then Failure("forwarder " + name + " is not available") else Failure("no candidates found"))
        else if name == "" && conn.state != ReselectRequested then Ok(Sticky(nses, conn.path))
        else Ok(nses)
  }

  /** The error the candidate loop starts from. */
  const AllForwardersFailed := Failure("all forwarders have failed")

  /**
    Request. Tries the candidates in order, returns the first success, and stores the accepting
    forwarder's name when none was pinned.
   */
  method Request(d: Server, request: NetworkServiceRequest, loadedName: string,
                 findNs: NsFinder, findNse: NseFinder, isSubset: SubsetTest,
                 parseUrl: string -> Option<Url>, next: Url -> Result<Connection, Error>)
    returns (r: Result<Connection, Error>, stored: Option<string>)
    ensures var c := Candidates(d, request, loadedName, findNs, findNse, isSubset);
      && (c.Err? ==> r == Err(c.error) && stored == None)
      && (c.Ok? ==>
            var a := TryFrom(c.value, 0, AllForwardersFailed, parseUrl, next);
            && (a.Selected? ==> r == Ok(a.connection)
                                 && stored == (if PinnedName(loadedName, request.connection) == ""
                                               then Some(c.value[a.index].name) else None))
            && (a.AllFailed? ==> r == Err(a.err) && stored == None))
    ensures stored.Some? ==> r.Ok? && PinnedName(loadedName, request.connection) == ""
  {
    var conn := request.connection;
    var forwarderName := loadedName;
    if conn.state == ReselectRequested {
      forwarderName := "";
    }

    var ns := DiscoverNetworkService(findNs, conn.networkService, conn.payload);
    if ns.Err? {
      return Err(ns.error), None;
    }

    var found := findNse(ForwarderQuery(d, forwarderName));
    if found.Err? {
      return Err(Wrapped(found.error, "failed to find " + d.forwarderServiceName + " on " + d.nsmgrUrl)), None;
    }

    var matched := MatchForwarders(d, isSubset, conn.labels, ns.value, found.value);
    if |matched| == 0 {
      if forwarderName != "" {
        return Err(Failure("forwarder " + forwarderName + " is not available")), None;
      }
      return Err(Failure("no candidates found")), None;
    }

    var nses := new NetworkServiceEndpoint[|matched|](k requires 0 <= k < |matched| => matched[k]);
    assert nses[..] == matched;
    if forwarderName == "" && conn.state != ReselectRequested {
      var segments := conn.path.pathSegments;
      if |segments| > conn.path.index + 1 {
        PromoteSticky(nses, segments[conn.path.index + 1].name);
      }
    }
    assert Candidates(d, request, loadedName, findNs, findNse, isSubset) == Ok(nses[..]);
    r, stored := TryCandidates(nses, forwarderName, parseUrl, next);
  }

  /** The candidate loop of Request over its local candidate slice. */
  method TryCandidates(nses: array<NetworkServiceEndpoint>, forwarderName: string,
                       parseUrl: string -> Option<Url>, next: Url -> Result<Connection, Error>)
    returns (r: Result<Connection, Error>, stored: Option<string>)
    ensures var a := TryFrom(nses[..], 0, AllForwardersFailed, parseUrl, next);
      && (a.Selected? ==> r == Ok(a.connection)
                           && stored == (if forwarderName == "" then Some(nses[a.index].name) else None))
      && (a.AllFailed? ==> r == Err(a.err) && stored == None)
  {
    var candidatesErr := AllForwardersFailed;
    var i := 0;
    while i < nses.Length
      invariant 0 <= i <= nses.Length
      invariant TryFrom(nses[..], 0, AllForwardersFailed, parseUrl, next)
             == TryFrom(nses[..], i, candidatesErr, parseUrl, next)
    {
      var candidate := nses[i];
      var u := parseUrl(candidate.url);
      if u.None? {
        i := i + 1;
        continue;
      }
      var resp := next(u.value);
      if resp.Ok? {
        stored := if forwarderName == "" then Some(candidate.name) else None;
        return resp, stored;
      }
      candidatesErr := SelectFailed(candidatesErr, i, candidate.name, resp.error);
      i := i + 1;
    }
    return Err(candidatesErr), None;
  }

  /** Under reselection the pinned name is ignored and the list is not reordered. */
  lemma ReselectDisablesPinningAndSticky(d: Server, request: NetworkServiceRequest, loadedName: string,
                                         findNs: NsFinder, findNse: NseFinder, isSubset: SubsetTest)
    requires request.connection.state == ReselectRequested
    ensures PinnedName(loadedName, request.connection) == ""
    ensures var conn := request.connection;
      var ns := DiscoverNetworkService(findNs, conn.networkService, conn.payload);
      var found := findNse(ForwarderQuery(d, ""));
      ns.Ok? && found.Ok? && |Matched(d.forwarderServiceName, isSubset, conn.labels, ns.value, found.value)| > 0 ==>
        Candidates(d, request, loadedName, findNs, findNse, isSubset)
          == Ok(Matched(d.forwarderServiceName, isSubset, conn.labels, ns.value, found.value))
  {
  }

  /** The candidates Request tries are a reordering of the matched forwarders. */
  lemma CandidatesArePermutationOfMatched(d: Server, request: NetworkServiceRequest, loadedName: string,
                                          findNs: NsFinder, findNse: NseFinder, isSubset: SubsetTest)
    ensures var conn := request.connection;
      var ns := DiscoverNetworkService(findNs, conn.networkService, conn.payload);
      var found := findNse(ForwarderQuery(d, PinnedName(loadedName, conn)));
      var c := Candidates(d, request, loadedName, findNs, findNse, isSubset);
      c.Ok? ==> ns.Ok? && found.Ok? &&
        multiset(c.value) == multiset(Matched(d.forwarderServiceName, isSubset, conn.labels, ns.value, found.value))
  {
    var conn := request.connection;
    var ns := DiscoverNetworkService(findNs, conn.networkService, conn.payload);
    var found := findNse(ForwarderQuery(d, PinnedName(loadedName, conn)));
    if ns.Ok? && found.Ok? {
      StickyIsPermutation(Matched(d.forwarderServiceName, isSubset, conn.labels, ns.value, found.value), conn.path);
    }
  }

  /**
    With no forwarder pinned and no reselection, a matched forwarder named after the path's next
    hop is tried first; when none is, the matched list is tried in its own order.
   */
  lemma CandidatesStartWithStickyHop(d: Server, request: NetworkServiceRequest, loadedName: string,
                                     findNs: NsFinder, findNse: NseFinder, isSubset: SubsetTest)
    requires loadedName == "" && request.connection.state != ReselectRequested
    requires var path := request.connection.path; |path.pathSegments| > path.index + 1
    ensures var conn := request.connection;
      var hop := conn.path.pathSegments[conn.path.index + 1].name;
      var ns := DiscoverNetworkService(findNs, conn.networkService, conn.payload);
      var found := findNse(ForwarderQuery(d, ""));
      var c := Candidates(d, request, loadedName, findNs, findNse, isSubset);
      ns.Ok? && found.Ok? ==>
        var nses := Matched(d.forwarderServiceName, isSubset, conn.labels, ns.value, found.value);
        && ((exists i :: 0 <= i < |nses| && nses[i].name == hop) ==> c.Ok? && c.value[0].name == hop)
        && (|nses| > 0 && (forall i :: 0 <= i < |nses| ==> nses[i].name != hop) ==> c == Ok(nses))
  {
  }

  /** The sticky rule only reorders the candidates. */
  lemma StickyIsPermutation(nses: seq<NetworkServiceEndpoint>, path: Path)
    ensures multiset(Sticky(nses, path)) == multiset(nses)
  {
    if |path.pathSegments| > path.index + 1 {
      PromotedIsPermutation(nses, path.pathSegments[path.index + 1].name);
    }
  }

  // ---------------------------------------------------------------------------------------------
  // Close

  /** The forwarder Close looks for: the stored one, else the path's next hop, else none. */
  function CloseForwarderName(loadedName: string, conn: Connection): string {
    if loadedName != "" then loadedName
    else if |conn.path.pathSegments| > conn.path.index + 1 then conn.path.pathSegments[conn.path.index + 1].name
    else ""
  }

  /** The one call Close makes to the rest of the chain: the connection, with a client URL or not. */
  datatype CloseCall = CloseCall(clientUrl: Option<Url>, connection: Connection)

  /**
    Close. It passes the connection on exactly once whatever happens; it adds the forwarder's
    client URL only when the forwarder name is known, the lookup succeeds and finds an endpoint,
    and that endpoint's URL parses.
   */
  function Close(d: Server, conn: Connection, loadedName: string, findNse: NseFinder,
                 parseUrl: string -> Option<Url>): (call: CloseCall)
    ensures call.connection == conn
    ensures var name := CloseForwarderName(loadedName, conn);
      var found := findNse(NseQuery(EndpointNamed(name, [], d.nsmgrUrl)));
      call.clientUrl.Some? <==>
        name != "" && found.Ok? && |found.value| > 0 && parseUrl(found.value[0].url).Some?
    ensures var name := CloseForwarderName(loadedName, conn);
      var found := findNse(NseQuery(EndpointNamed(name, [], d.nsmgrUrl)));
      call.clientUrl.Some? ==> call.clientUrl == parseUrl(found.value[0].url)
  {
    var name := CloseForwarderName(loadedName, conn);
    if name == "" then CloseCall(None, conn)
    else match findNse(NseQuery(EndpointNamed(name, [], d.nsmgrUrl)))
      case Err(_) => CloseCall(None, conn)
      case Ok(nses) =>
        if |nses| == 0 then CloseCall(None, conn)
        else match parseUrl(nses[0].url)
          case None => CloseCall(None, conn)
          case Some(u) => CloseCall(Some(u), conn)
  }
}
