/**
 * Values shared by the translator syncer model: proxies with their metadata
 * and live status, the errors the syncer passes around, and the calls it
 * makes on its collaborators (translator, reporter, reconciler, proxy client).
 */
module ProxyTypes {

  datatype Option<+T> = None | Some(value: T)

  /** A label selector / label set: key to value. */
  type Labels = map<string, string>

  /** Acceptance state of a deployed proxy. Pending is the enum's zero value. */
  datatype State = Pending | Accepted | Rejected

  /**
   * The live status of a resource. Two statuses are equal when all their
   * fields are equal, which is how the generated Equal method compares them.
   */
  datatype Status = Status(state: State, reason: string, reportedBy: string)

  /** The zero value of a status: what a declared but unassigned variable holds. */
  const ZeroStatus: Status := Status(Pending, "", "")

  /** Namespace and name of a resource; also the key of its entry in a status map. */
  datatype ResourceRef = ResourceRef(namespace: string, name: string)

  datatype Metadata = Metadata(namespace: string, name: string, labels: Labels)

  datatype Proxy = Proxy(metadata: Metadata, status: Status)

  function Ref(p: Proxy): ResourceRef {
    ResourceRef(p.metadata.namespace, p.metadata.name)
  }

  /**
   * Errors: an opaque failure reported by a collaborator, a failure wrapped
   * with a message naming the resource it concerns, and an aggregate that
   * holds several failures in the order they were appended.
   */
  datatype Error =
    | Failure(message: string)
    | Wrapped(context: string, subject: ResourceRef, cause: Error)
    | Multi(errors: seq<Error>)

  /** Validation errors indexed by the key of the resource they belong to. */
  type ResourceErrors = map<ResourceRef, Error>

  /** One call the syncer or one of its propagation tasks makes on a collaborator. */
  datatype Call =
    | Translate(writeNamespace: string)
    | WriteReports(resourceErrs: ResourceErrors, statuses: map<ResourceRef, Status>)
    | Reconcile(namespace: string, desired: seq<Proxy>, selector: Labels)
    | Watch(namespace: string, selector: Labels)
    | StartPropagation(proxy: ResourceRef, resourceErrs: ResourceErrors)
}
