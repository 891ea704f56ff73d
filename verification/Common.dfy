/** Types shared by every component of the model. */
module Common {

  datatype Option<+T> = None | Some(value: T)

  type Bytes = seq<bv8>

  /** SHA-256 is idealised: a digest remembers what it was computed from, so it is injective. */
  datatype Digest = Sha256(preimage: Bytes)

  /** What the file system holds, by path; a path that is absent is not a regular file. */
  type Files = map<string, Bytes>
}
