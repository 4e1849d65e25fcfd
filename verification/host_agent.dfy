/** What a caller of the host agent sends with every mutation. */
module HostAgent {

  const ProtocolMajor := 1

  datatype Owner = Owner(installation: string, node: string, uid: string) {
    predicate Valid() { installation != "" && node != "" && uid != "" }
  }

  datatype Mutation = Mutation(protocolMajor: int, owner: Owner, generation: int, key: string, retainDisk: bool) {
    predicate Valid() { protocolMajor == ProtocolMajor && owner.Valid() && generation != 0 && key != "" }
  }

  datatype Error = Invalid | Unauthorized | Conflict | NotFound | Unavailable

  datatype Result<+T> = Ok(value: T) | Err(error: Error)

  /** The SHA-256 of a request, taken to be injective and never empty. */
  datatype Digest = NoDigest | Digest(kind: string, mutation: Mutation, inputs: seq<int>)
}
