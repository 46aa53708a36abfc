/** The authenticated cipher the store uses (Fernet), seen from outside.

    Its key generation, encryption and HMAC are not modelled. A cipher is
    three functions: which key byte strings the cipher constructor accepts,
    encryption of a text under a key with fresh per-call material (the IV
    and timestamp Fernet draws itself), and decryption, which either yields
    the text or fails. The three predicates below state, separately, what
    the store relies on; each lemma assumes only the ones it needs. */
module Crypto {

  datatype Option<+T> = None | Some(value: T)

  newtype byte = x: int | 0 <= x < 0x100

  type Bytes = seq<byte>

  datatype Cipher = Cipher(
    validKey: Bytes -> bool,
    encrypt: (Bytes, Bytes, string) -> Bytes,
    decrypt: (Bytes, Bytes) -> Option<string>)

  /** A ciphertext made under a valid key decrypts under that key to its text. */
  ghost predicate RoundTrip(c: Cipher) {
    forall key, iv, text ::
      c.validKey(key) ==> c.decrypt(key, c.encrypt(key, iv, text)) == Some(text)
  }

  /** A ciphertext made under one key fails to decrypt under any other key
      (an idealisation: keys are taken as canonical byte strings, and a real
      cipher rejects another key only with overwhelming probability). */
  ghost predicate WrongKeyFails(c: Cipher) {
    forall key, other, iv, text ::
      other != key ==> c.decrypt(other, c.encrypt(key, iv, text)) == None
  }

  /** Whatever decrypts under a key is some encryption, under that key, of
      the text it decrypts to (an idealisation: ciphertexts are taken as
      canonical byte strings). */
  ghost predicate Integrity(c: Cipher) {
    forall key, token | c.decrypt(key, token).Some? ::
      exists iv :: token == c.encrypt(key, iv, c.decrypt(key, token).value)
  }
}
