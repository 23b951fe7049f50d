# Model registry repository: address resolution and registry lookup

This project models the `ModelRegistryRepository` of the model registry UI
backend (BFF). The repository asks the Kubernetes collaborator for the
services that represent model registries in a namespace. It turns each
service record into a `ModelRegistryModel`: name, description and display
name copied over, TLS flag copied over, and a server address built by the
address resolver.

The resolver is the one decision in the component. The scheme is `https`
when the service uses TLS and `http` otherwise. In federated mode, a
non-empty external REST address becomes the host. In every other case the
host is `<cluster IP>:<port>`, with the port printed as Go's `%d` prints a
signed 32-bit integer. Every result ends with the API path
`/api/model_registry/v1alpha3`.

The model is pure: Go's two-value returns become a pair or two
out-parameters, and a call to the Kubernetes client becomes the reply it
produced (`Result<T, ClientError>`), passed in as an input.

Modules, one per concern:

- `Results` (results.dfy): `Option` and the collaborator's `Result`.
- `Text` (text.dfy): prefix, suffix and last-occurrence helpers on strings.
- `Decimal` (decimal.dfy): `Int32`; `FormatInt`, which prints like `%d`; and
  `ParseInt`, its inverse.
- `Address` (address.dfy): `ResolveServerAddress`. Its partner is a URL reader
  (`ParseServerAddress`, `SplitHostPort`), proved to invert the resolver.
- `K8s` (k8s.dfy), `Models` (models.dfy): the service record and the domain model.
- `Repository` (repository.dfy): the four lookup entry points and the wrapped error.

The resolver's output is read back through the URL reader. That gives three
results:

- every address has the shape `(http|https)://<host>/api/model_registry/v1alpha3`
  with a non-empty host;
- the scheme always agrees with the TLS flag;
- a cluster address gives back the exact cluster IP and port, because it is
  split at its last colon. This holds even for an IPv6 cluster IP, which the
  source inserts without brackets.

## Model

| member | source | states |
|---|---|---|
| Address.ResolveServerAddress | clients/ui/bff/internal/repositories/model_registry.go:74-89 | The address starts with `https://` exactly when `isHTTPS` holds, and with `http://` otherwise. It ends with `/api/model_registry/v1alpha3`. Reading it back gives the TLS flag and a host: the external address when federated mode is on and that address is non-empty, `clusterIP:port` otherwise. |
| Address.FederatedAddressUsesExternalHost | clients/ui/bff/internal/repositories/model_registry.go:81-84 | In federated mode with a non-empty external address, the URL is exactly `<scheme>://<external>/api/model_registry/v1alpha3`, whatever the cluster IP and port. |
| Address.DefaultAddressUsesClusterHost | clients/ui/bff/internal/repositories/model_registry.go:87-88 | When not federated, or when the external address is empty, the URL is exactly `<scheme>://<clusterIP>:<%d of port>/api/model_registry/v1alpha3`, whatever the external address. |
| Address.ResolvedAddressWellFormed | clients/ui/bff/internal/repositories/model_registry.go:74-89 | The resolver is total. Every input, including an empty IP or port 0, gives a well-formed base URL with a non-empty host. |
| Address.ClusterAddressRecoversInputs | clients/ui/bff/internal/repositories/model_registry.go:87 | From a cluster address, the TLS flag, the cluster IP and the port can all be read back exactly. |
| Address.ClusterAddressInjective | clients/ui/bff/internal/repositories/model_registry.go:87 | Two services that resolve to the same cluster address have the same cluster IP, port and TLS flag. |
| Address.ParseFormatEndpoint | clients/ui/bff/internal/repositories/model_registry.go:83-87 | Any scheme and non-empty host, formatted as the two format strings do, is read back unchanged. |
| Address.FormatParseEndpoint | clients/ui/bff/internal/repositories/model_registry.go:83-87 | Any string the URL reader accepts is the formatting of what it read, and that host is non-empty. Together with ParseFormatEndpoint, the reader accepts exactly the URLs the format strings produce. |
| Address.SplitClusterHost | clients/ui/bff/internal/repositories/model_registry.go:87 | Splitting `clusterIP:port` at its last colon gives back the IP and the port, whatever colons the IP contains. |
| Address.ExamplePlainClusterAddress | clients/ui/bff/internal/repositories/model_registry.go:74-89 | IP `10.0.0.5`, port 8080, no TLS, default mode gives `http://10.0.0.5:8080/api/model_registry/v1alpha3`. |
| Address.ExampleFederatedExternalAddress | clients/ui/bff/internal/repositories/model_registry.go:81-84 | With TLS, federated mode and external address `registry.example.com`, the result is `https://registry.example.com/api/model_registry/v1alpha3`. |
| Address.ExampleExternalAddressIgnoredByDefault | clients/ui/bff/internal/repositories/model_registry.go:87-88 | The same service outside federated mode gives `https://10.0.0.5:8080/api/model_registry/v1alpha3`: the external address is ignored. |
| Decimal.FormatInt | clients/ui/bff/internal/repositories/model_registry.go:87 | The `%d` text of the port is non-empty. It starts with `-` exactly when the port is negative. Everything else in it is a digit: the whole text for a non-negative port, everything after the sign for a negative one. It has no leading zero: zero is `0` and a negative value never starts `-0`. It never contains a colon. |
| Decimal.DigitsRoundTrip | clients/ui/bff/internal/repositories/model_registry.go:87 | Reading the decimal digits of a natural number back gives that number. |
| Decimal.ParseIntIsCanonical | clients/ui/bff/internal/repositories/model_registry.go:87 | The reader accepts only Go's canonical `%d` text: every string it accepts is exactly the `%d` rendering of the integer it read. So leading zeros and `-0` are rejected. |
| Decimal.FormatIntRoundTrip | clients/ui/bff/internal/repositories/model_registry.go:87 | Parsing the `%d` text of any integer, negative ones included, gives that integer back. |
| Decimal.FormatIntInjective | clients/ui/bff/internal/repositories/model_registry.go:87 | Different ports give different `%d` texts. |
| Repository.BuildRegistryModel | clients/ui/bff/internal/repositories/model_registry.go:36-43 | A built model copies name, description, display name and TLS flag from its record. Its address is the resolver's output for that record and mode. It satisfies the model invariant: a well-formed URL whose scheme is `https` exactly when the model's TLS flag is set. |
| Repository.AppendEach | clients/ui/bff/internal/repositories/model_registry.go:34-45 | The loop starts from an empty slice and appends one element per record. Its output has as many elements as there are records, and element i is built from record i, so order is kept. |
| Repository.GetAllModelRegistriesWithMode | clients/ui/bff/internal/repositories/model_registry.go:25-48 | A failed collaborator call gives a nil slice and an error wrapping the cause, never partial output. A successful one gives no error and a non-nil slice: same length, same order, element i built from record i. So an empty reply gives an empty, non-nil slice. Every listed model satisfies the model invariant. |
| Repository.GetAllModelRegistries | clients/ui/bff/internal/repositories/model_registry.go:19-22 | Behaves as the mode variant with federation off. So every listed address reads back to its record's own cluster IP and port, even when the record has an external address. |
| Repository.GetModelRegistryWithMode | clients/ui/bff/internal/repositories/model_registry.go:56-72 | A failed by-name call gives the zero model and an error wrapping the cause. A successful one gives no error and the model built from the record, which satisfies the model invariant. |
| Repository.GetModelRegistry | clients/ui/bff/internal/repositories/model_registry.go:50-53 | Equals the mode variant with federation off. On success, its address reads back to the record's cluster IP and port. |
| Repository.ListedAgreesWithLookup | clients/ui/bff/internal/repositories/model_registry.go:63-69 | When the collaborator reports the same record to both calls, the i-th listed registry equals the registry fetched by name. |
| Repository.FetchError.Message | clients/ui/bff/internal/repositories/model_registry.go:31 | The error text is exactly the repository's context, then `: `, then the cause's text, with nothing else in between (its length is the sum of the three parts). The context is `error fetching model registries` for a list lookup (line 31) and `error fetching model registry` for a by-name lookup (line 60). |
| Repository.ListFailureWrapsCause | clients/ui/bff/internal/repositories/model_registry.go:28-32 | A failed list lookup returns a nil slice. Its error unwraps to the collaborator's error, and its text starts with the list context and ends with the collaborator's error text. |
| Repository.FetchErrorWrapsCause | clients/ui/bff/internal/repositories/model_registry.go:58-61 | The error of a failed by-name lookup unwraps to the collaborator's error, and its text ends with the collaborator's error text. |

## Left out

- The Kubernetes client (`GetServiceDetails`, `GetServiceDetailsByName`) is not part of this model. It is external I/O, so each call is represented by its reply, an input `Result`. The namespace and the registry id are only forwarded to that client, so they are not parameters here.
- `context.Context`: its propagation and cancellation are runtime plumbing with no logic in this file.
- `NewModelRegistryRepository` and the empty repository struct: they hold no state, so the operations are plain functions and methods.
- The route lookup in the TODO at line 27 is not implemented in the source.
- The comment at line 82 says external addresses are "assumed to be HTTPS". The code does not force `https`: the scheme follows the TLS flag in both branches. The model follows the code.
- A missing service is not told apart from other collaborator failures. The code does not inspect the error kind; it wraps whatever error it gets, and the model does the same.
- Strings are modelled as sequences of characters, not as Go's byte strings. Nothing in this file depends on the difference.
- Calling the resolver twice on the same input gives the same string. This needs no lemma: Dafny functions are deterministic.
- The full definitions of `models.ModelRegistryModel` and of the Kubernetes service record are not shown. Only the fields this file reads and writes are declared.
- A collaborator error is represented by its text alone (`ClientError(message)`). Two distinct Go errors with the same message are therefore equal in the model, so "unwraps to the collaborator's error" means "unwraps to an error with the same text"; Go's error identity (`errors.Is` on a sentinel) is not modelled.
