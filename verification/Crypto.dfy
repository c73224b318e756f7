/**
 Symbolic cryptography for the Double Ratchet of server/crypto_core.py.

 Every primitive is a free constructor: two keys are equal exactly when they were
 derived the same way, and a ciphertext opens exactly under the key, nonce, cipher
 and associated data that sealed it.  A ratchet key pair is named by a number that
 stands for both halves; who holds the private half is tracked by the caller.
 */
module Crypto {
  import opened Wrappers
  import opened Bytes

  type KeyId = nat

  /** An X25519 output.  The pair is kept in order because the exchange commutes. */
  datatype Dh = Dh(lo: KeyId, hi: KeyId)

  function DhOf(mine: KeyId, theirs: KeyId): Dh {
    if mine <= theirs then Dh(mine, theirs) else Dh(theirs, mine)
  }

  datatype Key =
    | SharedSecret(dh: Dh)            // derive_shared_key
    | RootKey(rk: Key, dh: Dh)        // first half of kdf_rk
    | ChainKey(rk: Key, dh: Dh)       // second half of kdf_rk
    | NextKey(ck: Key)                // kdf_ck, constant 0x02
    | MessageKey(ck: Key)             // kdf_ck, constant 0x01

  /** The chain key `ck` after `steps` applications of kdf_ck. */
  function Advance(ck: Key, steps: nat): Key {
    if steps == 0 then ck else NextKey(Advance(ck, steps - 1))
  }

  lemma {:induction false} AdvanceSum(ck: Key, m: nat, k: nat)
    ensures Advance(Advance(ck, m), k) == Advance(ck, m + k)
  {
    if k > 0 {
      AdvanceSum(ck, m, k - 1);
    }
  }

  /** Two positions on chains that start at a kdf_rk output share a chain key only
      when both the chain and the position agree. */
  lemma {:induction false} AdvanceInjective(c1: Key, n1: nat, c2: Key, n2: nat)
    requires c1.ChainKey? && c2.ChainKey?
    requires Advance(c1, n1) == Advance(c2, n2)
    ensures c1 == c2 && n1 == n2
  {
    if n1 > 0 && n2 > 0 {
      AdvanceInjective(c1, n1 - 1, c2, n2 - 1);
    }
  }

  datatype Cipher = AesGcm | XChaCha

  /** The header of a ratchet frame.  It doubles as the AEAD's associated data:
      AdInjective below shows that the byte form determines all four fields. */
  datatype Header = Header(cipher: Cipher, dh: KeyId, pn: nat, n: nat)

  /** Both counters fit the four bytes `_ad` gives them; otherwise it raises. */
  predicate Encodable(h: Header) {
    h.pn < TWO32 && h.n < TWO32
  }

  type Nonce = nat
  type Plaintext = string

  datatype Ciphertext = Sealed(cipher: Cipher, key: Key, nonce: Nonce, plain: Plaintext, ad: Header)

  function Open(cipher: Cipher, key: Key, nonce: Nonce, ct: Ciphertext, ad: Header): Option<Plaintext> {
    if ct.cipher == cipher && ct.key == key && ct.nonce == nonce && ct.ad == ad
    then Some(ct.plain)
    else None
  }
}

/** The byte encoding behind Header: `_ad` of server/crypto_core.py. */
module HeaderBytes {
  import opened Bytes
  import opened Crypto

  // "a256gcm-r1" and "xc20p1305-r1"
  const TAG_AES: seq<Byte> := [97, 50, 53, 54, 103, 99, 109, 45, 114, 49]
  const TAG_XCHACHA: seq<Byte> := [120, 99, 50, 48, 112, 49, 51, 48, 53, 45, 114, 49]

  function CipherTag(c: Cipher): seq<Byte> {
    match c
    case AesGcm => TAG_AES
    case XChaCha => TAG_XCHACHA
  }

  function AdBytes(c: Cipher, pub: seq<Byte>, pn: nat, n: nat): seq<Byte>
    requires |pub| == 32 && pn < TWO32 && n < TWO32
  {
    CipherTag(c) + pub + BigEndian4(pn) + BigEndian4(n)
  }

  /** The whole header is recoverable from the associated data, so authenticating
      these bytes authenticates cipher, ratchet key and both counters. */
  lemma AdInjective(c1: Cipher, pub1: seq<Byte>, pn1: nat, n1: nat,
                    c2: Cipher, pub2: seq<Byte>, pn2: nat, n2: nat)
    requires |pub1| == 32 && pn1 < TWO32 && n1 < TWO32
    requires |pub2| == 32 && pn2 < TWO32 && n2 < TWO32
    requires AdBytes(c1, pub1, pn1, n1) == AdBytes(c2, pub2, pn2, n2)
    ensures c1 == c2 && pub1 == pub2 && pn1 == pn2 && n1 == n2
  {
    var a, b := AdBytes(c1, pub1, pn1, n1), AdBytes(c2, pub2, pn2, n2);
    var t := |CipherTag(c1)|;
    assert |a| == t + 40 && |b| == |CipherTag(c2)| + 40;
    assert a[t..t + 32] == pub1 && b[t..t + 32] == pub2;
    assert a[t + 32..t + 36] == BigEndian4(pn1) && b[t + 32..t + 36] == BigEndian4(pn2);
    assert a[t + 36..] == BigEndian4(n1) && b[t + 36..] == BigEndian4(n2);
    assert FromBigEndian4(BigEndian4(pn1)) == pn1 && FromBigEndian4(BigEndian4(pn2)) == pn2;
    assert FromBigEndian4(BigEndian4(n1)) == n1 && FromBigEndian4(BigEndian4(n2)) == n2;
  }
}
