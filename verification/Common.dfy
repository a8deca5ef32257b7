/** Small datatypes shared by the other modules. */
module Common {

  datatype Option<+T> = None | Some(value: T)

  datatype Result<+T> = Ok(value: T) | Err(message: string)

  newtype byte = b: int | 0 <= b < 256

  /** The part of an SSH key pair that its fingerprint is computed from. */
  type KeyMaterial = seq<byte>

  /** A parsed private key: the key pair and the comment stored with it. */
  datatype PrivateKey = PrivateKey(material: KeyMaterial, comment: string)

  /** SHA-256 digests are library code; only their text form matters here. */
  const FINGERPRINT_PREFIX := "SHA256:"

  const DECRYPT_FINGERPRINT := "decrypt@vt"

  /** Does `text` occur in `s` at offset `at`? */
  predicate OccursAt(s: string, text: string, at: nat) {
    at + |text| <= |s| && s[at..at + |text|] == text
  }

  /** Does `text` occur anywhere in `s`? */
  predicate Contains(s: string, text: string) {
    exists at | 0 <= at <= |s| :: OccursAt(s, text, at)
  }
}
