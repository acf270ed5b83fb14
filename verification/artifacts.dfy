/** Artifact references of a service record. */
module Artifacts {

  /** "staged", "latest", "gen-N", or any other text. */
  datatype Ref = Staged | Latest | Gen(n: int) | Other(name: string)

  /** A possibly nil artifact with its map from reference to path. */
  datatype Artifact = Nil | Artifact(refs: map<Ref, string>)

  datatype Option<T> = None | Some(value: T)
}
