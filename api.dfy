/**
  Values of the registry API as the core stages see them: network services, network service
  endpoints, queries, paths, call options and errors. A protobuf message that a stage only copies
  (`Clone`) or passes along is an immutable value here; the one stage that rewrites an endpoint in
  place (dnsresolve) wraps it in a mutable record of its own.
 */
module Api {
  import opened Wrappers

  /** Errors, one constructor per way the core builds one. */
  datatype Error =
      /** `errors.New(text)` or `errors.Errorf` with only string arguments; also any error a
          collaborator returns. */
    | Failure(text: string)
      /** `errors.Wrapf(cause, text)` with only string arguments. */
    | Wrapped(cause: Error, text: string)
      /** `errors.Wrapf(cause, text + "%s", detail.Error())`. */
    | WrappedWithError(cause: Error, text: string, detail: Error)
      /** `errors.Wrapf(cause, "%v. An error during select forwarder %v --> %v", index, forwarder, detail)`. */
    | SelectFailed(cause: Error, index: nat, forwarder: string, detail: Error)
      /** `errors.Wrapf(cause, "failed to find %s", query.String())`. */
    | FindFailed(cause: Error, query: NsQuery)
      /** `errors.Wrapf(cause, "... failed to send a response %s", response.String())`. */
    | SendFailed(cause: Error, response: NetworkService)

  /** A label set; a nil Go map is the empty map. */
  type Labels = map<string, string>

  /**
    registry.NetworkServiceEndpoint. `networkServiceLabels` maps a service name to the labels the
    endpoint offers for it; a missing key is a nil `*NetworkServiceLabels`.
   */
  datatype NetworkServiceEndpoint = NetworkServiceEndpoint(
    name: string,
    networkServiceNames: seq<string>,
    networkServiceLabels: map<string, Labels>,
    url: string,
    pathIds: seq<string>)

  /** registry.Match; `metadataLabels == None` is a nil `Metadata` or a nil `Labels` map. */
  datatype Match = Match(sourceSelector: Labels, metadataLabels: Option<Labels>, fallthrough: bool)

  /** registry.NetworkService. */
  datatype NetworkService = NetworkService(
    name: string,
    payload: string,
    matches: seq<Match>,
    pathIds: seq<string>)

  /** registry.NetworkServiceEndpointQuery with its Watch flag dropped. */
  datatype NseQuery = NseQuery(networkServiceEndpoint: NetworkServiceEndpoint)

  /** registry.NetworkServiceQuery with its Watch flag dropped. */
  datatype NsQuery = NsQuery(networkService: NetworkService)

  /** A path segment and a path (grpcmetadata.Path and networkservice.Path agree on these fields). */
  datatype PathSegment = PathSegment(name: string, id: string)
  datatype Path = Path(index: nat, pathSegments: seq<PathSegment>)

  /** A gRPC call option; `PeerCapture` is the `grpc.Peer(&p)` option the authorize stages append. */
  datatype CallOption = PeerCapture | Tagged(tag: string)

  /** The `(*empty.Empty, error)` pair an Unregister returns; `empty` says the pointer is non-nil. */
  datatype EmptyReply = EmptyReply(empty: bool, err: Option<Error>)

  /** An endpoint value with only a name and service names, as the stages build for queries. */
  function EndpointNamed(name: string, services: seq<string>, url: string): NetworkServiceEndpoint {
    NetworkServiceEndpoint(name, services, map[], url, [])
  }
}
