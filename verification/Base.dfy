/** Small wrappers shared by every module. */
module Base {
  datatype Option<+T> = None | Some(value: T)

  datatype Result<+T, +E> = Ok(value: T) | Err(error: E)

  type Bytes = seq<bv8>

  /** No two positions of `s` hold the same element. */
  ghost predicate Distinct<T>(s: seq<T>) {
    forall i, j :: 0 <= i < j < |s| ==> s[i] != s[j]
  }
}

/** The shape of a SHA-256 digest as the source writes it: 64 lowercase hexadecimal characters. */
module Digest {
  predicate IsHex(c: char) { '0' <= c <= '9' || 'a' <= c <= 'f' }

  predicate IsHexDigest(d: string) {
    |d| == 64 && forall i :: 0 <= i < 64 ==> IsHex(d[i])
  }
}
