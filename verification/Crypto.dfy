/** The cryptography the gate relies on, as abstract operations with stated assumptions. */
module Crypto {
  import opened Prelude
  import opened Names
  import opened Json
  import Canonical

  /** The bytes a signature covers: those a hexadecimal digest decodes to, or those of a text. */
  datatype Message = DigestBytes(hex: string) | TextBytes(text: string)

  datatype Crypto = Crypto(
    sha256: string -> string,                    // hexadecimal SHA-256 of a text
    isPublicKey: string -> bool,                 // hexadecimal text of a valid Ed25519 key
    isSignature: string -> bool,                 // hexadecimal text of 64 bytes
    sign: (string, Message) -> string,           // signature by the holder of a public key
    verifies: (string, Message, string) -> bool  // signature check against a public key
  )

  /** The length of a digest in hexadecimal. */
  const DIGEST_LENGTH := 64

  predicate IsHexDigit(c: char) {
    '0' <= c <= '9' || 'a' <= c <= 'f'
  }

  /** Every digest is 64 lower-case hexadecimal characters. */
  ghost predicate DigestsAreHex(c: Crypto) {
    forall text: string {:trigger c.sha256(text)} ::
      |c.sha256(text)| == DIGEST_LENGTH && forall i | 0 <= i < DIGEST_LENGTH :: IsHexDigit(c.sha256(text)[i])
  }

  /** The signatures of a key holder are accepted under the public key. */
  ghost predicate SignsCorrectly(c: Crypto, key: string) {
    && c.isPublicKey(key)
    && forall m: Message {:trigger c.sign(key, m)} :: c.isSignature(c.sign(key, m)) && c.verifies(key, m, c.sign(key, m))
  }

  /** No two of the given texts share a digest. */
  ghost predicate CollisionFree(c: Crypto, texts: set<string>) {
    forall a, b {:trigger c.sha256(a), c.sha256(b)} | a in texts && b in texts && c.sha256(a) == c.sha256(b) :: a == b
  }

  /** `digest_json`: the digest of the canonical text. */
  function DigestJson(c: Crypto, value: Value): string {
    c.sha256(Canonical.Text(value))
  }

  /** A digest is neither empty nor blank, so it passes every non-blank check. */
  lemma DigestNotBlank(c: Crypto, text: string)
    requires DigestsAreHex(c)
    ensures !IsBlank(c.sha256(text))
  {
    var d := c.sha256(text);
    assert |d| == DIGEST_LENGTH;
    assert IsHexDigit(d[0]);
  }

  /** Who signs, and with what key metadata. */
  datatype SignerIdentity = SignerIdentity(signerUri: string, keyVersion: string, algorithm: string, publicKey: string)
  {
    function ToJson(): Value {
      Object(map[
        SIGNER_URI := String(signerUri),
        KEY_VERSION := String(keyVersion),
        ALGORITHM := String(algorithm),
        PUBLIC_KEY := String(publicKey)
      ])
    }
  }

  const SIGNATURE_ALGORITHM := "Ed25519"

  /** The deployment: its cryptography, and the one signer configuration each key is used with. */
  datatype Env = Env(crypto: Crypto, signerFor: string -> SignerIdentity)

  /** What the theorems assume of a deployment: digests are 64 hexadecimal characters, key holders
      produce signatures that verify, neither keys nor signatures are blank, and a signer is
      configured under its own key. */
  ghost predicate Honest(env: Env) {
    && DigestsAreHex(env.crypto)
    && (forall key: string {:trigger env.signerFor(key)} :: env.signerFor(key).publicKey == key)
    && (forall key: string {:trigger env.crypto.isPublicKey(key)} ::
          env.crypto.isPublicKey(key) ==> !IsBlank(key) && SignsCorrectly(env.crypto, key))
    && (forall signature: string {:trigger env.crypto.isSignature(signature)} :: env.crypto.isSignature(signature) ==> !IsBlank(signature))
  }
}
