/** SHA-256 digests as both hashing helpers return them: 64 lower-case hex characters. */
module Digests {

  /** A lower-case hexadecimal digit, as `digest("hex")` writes them. */
  predicate IsLowerHexDigit(c: char) {
    '0' <= c <= '9' || 'a' <= c <= 'f'
  }

  /** A hex SHA-256 digest: 64 characters, each a lower-case hex digit. */
  type Sha256Hex = s: string | |s| == 64 && forall i :: 0 <= i < |s| ==> IsLowerHexDigit(s[i])
    witness seq(64, _ => '0')
}
