/** The domain model the repository hands to the UI backend. */
module Models {

  /** One model registry, ready to connect to: its metadata and the base URL
      of its REST API. */
  datatype ModelRegistryModel = ModelRegistryModel(
    name: string,
    description: string,
    displayName: string,
    serverAddress: string,
    isHTTPS: bool)

  /** Go's zero value of the model: every string empty, the flag false. */
  const ZeroModel := ModelRegistryModel("", "", "", "", false)
}
