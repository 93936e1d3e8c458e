/** `CIPHER_KEY` as the software ciphers use it. */
module CipherKeys {

  /** The length of the key and its bytes; a length of zero marks an empty slot. */
  datatype CipherKey = CipherKey(keyLen: nat, key: array<bv8>)
}
