/**
 Idealised RSA-SHA256: a key pair is a number, and a signature is the pair of
 the signing key and the signed text, so nobody else can make it.
 */
module Crypto {

  type Key = nat

  /** What an enrolment request carries as its PEM text. */
  datatype PublicKey = Pub(key: Key) | Malformed(text: string)

  /** What a response carries as its base64 signature. */
  datatype Signature = Sig(key: Key, message: string) | Noise(text: string)

  /** `createVerify('SHA256')...verify(pem, signature)`; a PEM that does not parse throws, which counts as false. */
  predicate Verify(pem: PublicKey, message: string, s: Signature) {
    pem.Pub? && s == Sig(pem.key, message)
  }
}
