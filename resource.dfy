/** The search result entity shared by every platform. */
module CloudResource {
  import opened Errors

  /** A cloud resource found for an IP; `RID == ""` means "not found". */
  datatype Resource = Resource(
    RID: string,
    CloudSvc: string,
    AccountID: string,
    AccountAliases: seq<string>,
    NetworkMap: seq<string>)

  /** The Go zero value of `Resource`. */
  const ZeroResource := Resource("", "", "", [], [])

  /** A Go `(Resource, error)` pair. */
  datatype Outcome = Outcome(res: Resource, err: Error)
}
