/** What the Kubernetes collaborator hands the repository. The client itself
    (its lookups by namespace and by name) is not part of this model: a call
    to it is represented by the reply it returned. */
module K8s {
  import opened Decimal

  /** The facts the collaborator reports about one model registry service;
      only the fields the repository reads. */
  datatype ServiceDetails = ServiceDetails(
    name: string,
    description: string,
    displayName: string,
    clusterIP: string,
    httpPort: Int32,
    isHTTPS: bool,
    externalAddressRest: string)

  /** A failed collaborator call, represented by the text of its error. */
  datatype ClientError = ClientError(message: string)
}
