/** The model registry repository: looks up one or all model registry
    services through the Kubernetes collaborator and turns each into a
    `ModelRegistryModel` whose server address comes from the resolver. */
module Repository {
  import opened Results
  import opened Text
  import opened Decimal
  import opened K8s
  import opened Models
  import opened Address

  /** A Go slice, which can be nil as well as empty. */
  datatype Slice<T> = Nil | Of(elems: seq<T>)

  /** The context the repository adds to a collaborator failure for a list lookup. */
  const ListContext := "error fetching model registries"

  /** The context the repository adds to a collaborator failure for a by-name lookup. */
  const GetContext := "error fetching model registry"

  /** A collaborator failure wrapped with the repository's context, as
      `fmt.Errorf("<context>: %w", cause)` wraps it. */
  datatype FetchError = FetchError(context: string, cause: ClientError) {

    /** The wrapped error, as `errors.Unwrap` returns it. */
    function Unwrap(): ClientError {
      cause
    }

    /** The error text: the context, a colon and a space, then the cause's text. */
    function Message(): (m: string)
      ensures StartsWith(m, context + ": ")
      ensures EndsWith(m, cause.message)
      ensures |m| == |context| + 2 + |cause.message|
    {
      var m := context + ": " + cause.message;
      assert m[..|context + ": "|] == context + ": ";
      assert m[|m| - |cause.message|..] == cause.message;
      m
    }
  }

  /** What the address in a model must look like: a well-formed base URL whose
      scheme is `https` exactly when the model's TLS flag is set. */
  predicate ValidModel(m: ModelRegistryModel) {
    var e := ParseServerAddress(m.serverAddress);
    e.Some? && e.value.isHTTPS == m.isHTTPS && e.value.host != ""
  }

  /** The model built from one service record: metadata and TLS flag copied,
      server address resolved from the record's networking facts and the mode. */
  function BuildRegistryModel(s: ServiceDetails, isFederatedMode: bool): (m: ModelRegistryModel)
    ensures m.name == s.name && m.description == s.description && m.displayName == s.displayName
    ensures m.isHTTPS == s.isHTTPS
    ensures m.serverAddress
         == ResolveServerAddress(s.clusterIP, s.httpPort, s.isHTTPS, s.externalAddressRest, isFederatedMode)
    ensures ValidModel(m)
  {
    ResolvedAddressWellFormed(s.clusterIP, s.httpPort, s.isHTTPS, s.externalAddressRest, isFederatedMode);
    ModelRegistryModel(
      name := s.name,
      description := s.description,
      displayName := s.displayName,
      serverAddress := ResolveServerAddress(s.clusterIP, s.httpPort, s.isHTTPS,
                                            s.externalAddressRest, isFederatedMode),
      isHTTPS := s.isHTTPS)
  }

  /** The outcome a list lookup promises for a collaborator reply: on failure
      a nil slice and the wrapped cause; on success no error and a non-nil
      slice holding, in order, one model per record. */
  predicate ListedFrom(resources: Result<seq<ServiceDetails>, ClientError>, isFederatedMode: bool,
                       registries: Slice<ModelRegistryModel>, err: Option<FetchError>)
  {
    match resources
    case Failure(cause) =>
      registries == Nil && err == Some(FetchError(ListContext, cause))
    case Success(records) =>
      && err == None
      && registries.Of?
      && |registries.elems| == |records|
      && forall i :: 0 <= i < |records| ==>
           registries.elems[i] == BuildRegistryModel(records[i], isFederatedMode)
  }

  /** The loop of the list lookup: applies `build` to each record and
      appends the result, so the output follows the records' order. */
  method AppendEach<A, B>(records: seq<A>, build: A -> B) returns (built: seq<B>)
    ensures |built| == |records|
    ensures forall i :: 0 <= i < |records| ==> built[i] == build(records[i])
  {
    built := [];
    for k := 0 to |records|
      invariant |built| == k
      invariant forall i :: 0 <= i < k ==> built[i] == build(records[i])
    {
      built := built + [build(records[k])];
    }
  }

  /** All model registries the collaborator reported, in the collaborator's
      order, with their addresses resolved for the given mode. */
  method GetAllModelRegistriesWithMode(resources: Result<seq<ServiceDetails>, ClientError>,
                                       isFederatedMode: bool)
    returns (registries: Slice<ModelRegistryModel>, err: Option<FetchError>)
    ensures ListedFrom(resources, isFederatedMode, registries, err)
    ensures err.Some? <==> resources.Failure?
    ensures registries.Of? ==> forall i :: 0 <= i < |registries.elems| ==> ValidModel(registries.elems[i])
  {
    if resources.Failure? {
      return Nil, Some(FetchError(ListContext, resources.error));
    }
    var built := AppendEach(resources.value, s => BuildRegistryModel(s, isFederatedMode));
    return Of(built), None;
  }

  /** The list lookup in default (non-federated) mode: every address is the
      record's `clusterIP:port`, whatever external address the record carries. */
  method GetAllModelRegistries(resources: Result<seq<ServiceDetails>, ClientError>)
    returns (registries: Slice<ModelRegistryModel>, err: Option<FetchError>)
    ensures ListedFrom(resources, false, registries, err)
    ensures resources.Success? ==>
      forall i :: 0 <= i < |registries.elems| ==>
        SplitHostPort(ParseServerAddress(registries.elems[i].serverAddress).value.host)
          == Some((resources.value[i].clusterIP, resources.value[i].httpPort as int))
  {
    registries, err := GetAllModelRegistriesWithMode(resources, false);
    if resources.Success? {
      var records := resources.value;
      forall i | 0 <= i < |registries.elems|
        ensures SplitHostPort(ParseServerAddress(registries.elems[i].serverAddress).value.host)
             == Some((records[i].clusterIP, records[i].httpPort as int))
      {
        var s := records[i];
        ClusterAddressRecoversInputs(s.clusterIP, s.httpPort, s.isHTTPS, s.externalAddressRest, false);
      }
    }
  }

  /** One model registry by name. On a collaborator failure: the zero model
      and the wrapped cause; otherwise the model built from the record. */
  function GetModelRegistryWithMode(reply: Result<ServiceDetails, ClientError>, isFederatedMode: bool)
    : (r: (ModelRegistryModel, Option<FetchError>))
    ensures r.1.Some? <==> reply.Failure?
    ensures reply.Failure? ==> r.0 == ZeroModel && r.1.value == FetchError(GetContext, reply.error)
    ensures reply.Success? ==> r.0 == BuildRegistryModel(reply.value, isFederatedMode) && ValidModel(r.0)
  {
    match reply
    case Failure(cause) => (ZeroModel, Some(FetchError(GetContext, cause)))
    case Success(s) => (BuildRegistryModel(s, isFederatedMode), None)
  }

  /** The by-name lookup in default (non-federated) mode: the mode variant with
      federation off, so the address is always the record's `clusterIP:port`. */
  function GetModelRegistry(reply: Result<ServiceDetails, ClientError>)
    : (r: (ModelRegistryModel, Option<FetchError>))
    ensures r == GetModelRegistryWithMode(reply, false)
    ensures reply.Success? ==>
      SplitHostPort(ParseServerAddress(r.0.serverAddress).value.host)
        == Some((reply.value.clusterIP, reply.value.httpPort as int))
  {
    match reply
    case Failure(_) => GetModelRegistryWithMode(reply, false)
    case Success(s) =>
      ClusterAddressRecoversInputs(s.clusterIP, s.httpPort, s.isHTTPS, s.externalAddressRest, false);
      GetModelRegistryWithMode(reply, false)
  }

  /** A registry found by listing equals the one found by name, when the
      collaborator reports the same record for both. */
  lemma ListedAgreesWithLookup(records: seq<ServiceDetails>, isFederatedMode: bool,
                               registries: Slice<ModelRegistryModel>, err: Option<FetchError>, i: int)
    requires ListedFrom(Success(records), isFederatedMode, registries, err)
    requires 0 <= i < |records|
    ensures registries.elems[i] == GetModelRegistryWithMode(Success(records[i]), isFederatedMode).0
  {
  }

  /** A failed lookup keeps the collaborator's error: it is what unwrapping
      returns, and its text ends the repository's error text. */
  lemma FetchErrorWrapsCause(cause: ClientError, isFederatedMode: bool)
    ensures GetModelRegistryWithMode(Failure(cause), isFederatedMode).1.value.Unwrap() == cause
    ensures EndsWith(GetModelRegistryWithMode(Failure(cause), isFederatedMode).1.value.Message(),
                     cause.message)
  {
  }

  /** A failed list lookup returns no registries, and its error keeps the
      collaborator's error: it is what unwrapping returns, and its text ends
      the repository's error text. */
  lemma ListFailureWrapsCause(cause: ClientError, isFederatedMode: bool,
                              registries: Slice<ModelRegistryModel>, err: Option<FetchError>)
    requires ListedFrom(Failure(cause), isFederatedMode, registries, err)
    ensures registries == Nil
    ensures err.Some? && err.value.Unwrap() == cause
    ensures StartsWith(err.value.Message(), ListContext + ": ")
    ensures EndsWith(err.value.Message(), cause.message)
  {
  }
}
