/**
 The Double Ratchet session of server/crypto_core.py.

 `State` is the value of the source's State object and the functions below say what
 each operation makes of it.  `Session` is the object itself, updated in place, and
 every method is proved to move it exactly as the function says.
 */
module Ratchet {
  import opened Wrappers
  import opened Bytes
  import opened Crypto

  const MAX_SKIP: nat := 1000

  datatype Slot = Slot(dh: KeyId, n: nat)

  datatype State = State(
    dhs: KeyId,
    dhr: Option<KeyId>,
    rk: Key,
    cks: Option<Key>,
    ckr: Option<Key>,
    ns: nat,
    nr: nat,
    pn: nat,
    skipped: map<Slot, Key>)

  datatype Frame = Frame(header: Header, nonce: Nonce, ct: Ciphertext)

  datatype Error =
    | NoSendingChain      // kdf_ck(None) while encrypting
    | NoReceivingChain    // kdf_ck(None) while decrypting
    | CounterOverflow     // to_bytes(4) in _ad
    | TooManySkipped
    | AuthenticationFailed

  /** A receiving chain always belongs to a known peer key. */
  predicate WellFormed(s: State) {
    s.ckr.Some? ==> s.dhr.Some?
  }

  // ---- initialisation --------------------------------------------------------

  function InitAlice(sk: Key, mine: KeyId, peer: KeyId): State {
    State(mine, Some(peer), RootKey(sk, DhOf(mine, peer)), Some(ChainKey(sk, DhOf(mine, peer))),
          None, 0, 0, 0, map[])
  }

  function InitBob(sk: Key, mine: KeyId): State {
    State(mine, None, sk, None, None, 0, 0, 0, map[])
  }

  // ---- sending ---------------------------------------------------------------

  /** The chain key is replaced before the header is encoded, so a counter that no
      longer fits four bytes raises with the sending chain already stepped. */
  function Encrypt(s: State, pt: Plaintext, cipher: Cipher, nonce: Nonce): (State, Result<Frame, Error>) {
    if s.cks.None? then (s, Err(NoSendingChain)) else
    var mk := MessageKey(s.cks.value);
    var stepped := s.(cks := Some(NextKey(s.cks.value)));
    var h := Header(cipher, s.dhs, s.pn, s.ns);
    if !Encodable(h) then (stepped, Err(CounterOverflow)) else
    (stepped.(ns := s.ns + 1), Ok(Frame(h, nonce, Sealed(cipher, mk, nonce, pt, h))))
  }

  // ---- receiving -------------------------------------------------------------

  /** The message keys of positions lo..hi of the chain whose key at lo is `ck`. */
  function StoredKeys(dh: KeyId, ck: Key, lo: nat, hi: nat): map<Slot, Key> {
    if hi <= lo then map[]
    else StoredKeys(dh, ck, lo, hi - 1)[Slot(dh, hi - 1) := MessageKey(Advance(ck, hi - 1 - lo))]
  }

  /** `_skip`: None when it raises, which is before any change. */
  function Skip(s: State, until: nat): Option<State>
    requires WellFormed(s)
  {
    if s.nr + MAX_SKIP < until then None
    else if s.ckr.None? || until <= s.nr then Some(s)
    else Some(s.(ckr := Some(Advance(s.ckr.value, until - s.nr)), nr := until,
                 skipped := s.skipped + StoredKeys(s.dhr.value, s.ckr.value, s.nr, until)))
  }

  /** `_dh_ratchet`, with the newly generated key pair as a parameter. */
  function DhRatchet(s: State, dh: KeyId, drawn: KeyId): State {
    var root := RootKey(s.rk, DhOf(s.dhs, dh));
    State(drawn, Some(dh), RootKey(root, DhOf(drawn, dh)), Some(ChainKey(root, DhOf(drawn, dh))),
          Some(ChainKey(s.rk, DhOf(s.dhs, dh))), 0, 0, s.ns, s.skipped)
  }

  /** The tail of ratchet_decrypt, once the receiving chain is the header's. */
  function DecryptOnChain(s: State, f: Frame): (State, Result<Plaintext, Error>)
    requires WellFormed(s)
  {
    var skip := Skip(s, f.header.n);
    if skip.None? then (s, Err(TooManySkipped)) else
    var s1 := skip.value;
    if s1.ckr.None? then (s1, Err(NoReceivingChain)) else
    var mk := MessageKey(s1.ckr.value);
    (s1.(ckr := Some(NextKey(s1.ckr.value)), nr := s1.nr + 1), Opened(f, mk))
  }

  function Opened(f: Frame, mk: Key): Result<Plaintext, Error> {
    match Open(f.header.cipher, mk, f.nonce, f.ct, f.header)
    case Some(pt) => Ok(pt)
    case None => Err(AuthenticationFailed)
  }

  function Decrypt(s: State, f: Frame, drawn: KeyId): (State, Result<Plaintext, Error>)
    requires WellFormed(s)
  {
    var slot := Slot(f.header.dh, f.header.n);
    if !Encodable(f.header) then (s, Err(CounterOverflow))
    else if slot in s.skipped then (s.(skipped := s.skipped - {slot}), Opened(f, s.skipped[slot]))
    else if s.dhr == Some(f.header.dh) then DecryptOnChain(s, f)
    else
      var skip := Skip(s, f.header.pn);
      if skip.None? then (s, Err(TooManySkipped))
      else DecryptOnChain(DhRatchet(skip.value, f.header.dh, drawn), f)
  }

  // ---- properties of single calls --------------------------------------------

  /** StoredKeys holds one entry per position, and the entry is that position's key. */
  lemma {:induction false} StoredKeysAt(dh: KeyId, ck: Key, lo: nat, hi: nat, sl: Slot)
    ensures sl in StoredKeys(dh, ck, lo, hi) <==> sl.dh == dh && lo <= sl.n < hi
    ensures sl in StoredKeys(dh, ck, lo, hi) ==>
              StoredKeys(dh, ck, lo, hi)[sl] == MessageKey(Advance(ck, sl.n - lo))
    decreases hi
  {
    if lo < hi {
      StoredKeysAt(dh, ck, lo, hi - 1, sl);
    }
  }

  lemma StoredKeysNone(held: map<Slot, Key>, dh: KeyId, ck: Key, lo: nat)
    ensures held + StoredKeys(dh, ck, lo, lo) == held
  {}

  lemma StoredKeysStep(held: map<Slot, Key>, dh: KeyId, ck: Key, lo: nat, hi: nat)
    requires lo <= hi
    ensures held + StoredKeys(dh, ck, lo, hi + 1)
         == (held + StoredKeys(dh, ck, lo, hi))[Slot(dh, hi) := MessageKey(Advance(ck, hi - lo))]
  {
    assert StoredKeys(dh, ck, lo, hi + 1)
        == StoredKeys(dh, ck, lo, hi)[Slot(dh, hi) := MessageKey(Advance(ck, hi - lo))];
  }

  lemma {:induction false} StoredKeysSize(dh: KeyId, ck: Key, lo: nat, hi: nat)
    requires lo <= hi
    ensures |StoredKeys(dh, ck, lo, hi)| == hi - lo
    decreases hi
  {
    if lo < hi {
      StoredKeysSize(dh, ck, lo, hi - 1);
      StoredKeysAt(dh, ck, lo, hi - 1, Slot(dh, hi - 1));
      MapUpdateSize(StoredKeys(dh, ck, lo, hi - 1), Slot(dh, hi - 1),
                    MessageKey(Advance(ck, hi - 1 - lo)));
    }
  }

  lemma UnionSize<K, V>(a: map<K, V>, b: map<K, V>)
    ensures |a + b| <= |a| + |b|
    ensures a.Keys !! b.Keys ==> |a + b| == |a| + |b|
  {
    assert (a + b).Keys == a.Keys + b.Keys;
  }

  lemma MapUpdateSize<K, V>(m: map<K, V>, k: K, v: V)
    requires k !in m
    ensures |m[k := v]| == |m| + 1
  {
    var u := m[k := v];
    assert u.Keys == m.Keys + {k};
  }

  lemma MapRemoveSize<K, V>(m: map<K, V>, k: K)
    requires k in m
    ensures |m - {k}| == |m| - 1
  {
    assert (m - {k}).Keys == m.Keys - {k};
  }

  lemma SkipBound(s: State, until: nat)
    requires WellFormed(s)
    ensures Skip(s, until).Some? ==>
              && WellFormed(Skip(s, until).value)
              && |Skip(s, until).value.skipped| <= |s.skipped| + MAX_SKIP
  {
    if s.ckr.Some? && s.nr < until <= s.nr + MAX_SKIP {
      StoredKeysSize(s.dhr.value, s.ckr.value, s.nr, until);
      UnionSize(s.skipped, StoredKeys(s.dhr.value, s.ckr.value, s.nr, until));
    }
  }

  /** Whatever the frame, one call stores at most 2 * MAX_SKIP message keys. */
  lemma DecryptBound(s: State, f: Frame, drawn: KeyId)
    requires WellFormed(s)
    ensures WellFormed(Decrypt(s, f, drawn).0)
    ensures |Decrypt(s, f, drawn).0.skipped| <= |s.skipped| + 2 * MAX_SKIP
  {
    var slot := Slot(f.header.dh, f.header.n);
    if slot in s.skipped {
      MapRemoveSize(s.skipped, slot);
    } else if s.dhr == Some(f.header.dh) {
      SkipBound(s, f.header.n);
    } else {
      SkipBound(s, f.header.pn);
      if Skip(s, f.header.pn).Some? {
        SkipBound(DhRatchet(Skip(s, f.header.pn).value, f.header.dh, drawn), f.header.n);
      }
    }
  }

  /** The header is authenticated: a frame whose header was altered in any field never
      yields a plaintext, whatever the receiver's state. */
  lemma TamperedHeaderRejected(s: State, f: Frame, drawn: KeyId)
    requires WellFormed(s)
    requires f.header != f.ct.ad
    ensures Decrypt(s, f, drawn).1.Err?
  {}

  // ---- the object --------------------------------------------------------------

  class Session {
    var dhs: KeyId
    var dhr: Option<KeyId>
    var rk: Key
    var cks: Option<Key>
    var ckr: Option<Key>
    var ns: nat
    var nr: nat
    var pn: nat
    var skipped: map<Slot, Key>

    ghost function Value(): State
      reads this
    {
      State(dhs, dhr, rk, cks, ckr, ns, nr, pn, skipped)
    }

    ghost predicate Valid()
      reads this
    {
      WellFormed(Value())
    }

    constructor Alice(sk: Key, drawn: KeyId, peer: KeyId)
      ensures Valid() && Value() == InitAlice(sk, drawn, peer)
    {
      dhs, dhr := drawn, Some(peer);
      var d := DhOf(drawn, peer);
      rk, cks := RootKey(sk, d), Some(ChainKey(sk, d));
      ckr, ns, nr, pn, skipped := None, 0, 0, 0, map[];
    }

    constructor Bob(sk: Key, mine: KeyId)
      ensures Valid() && Value() == InitBob(sk, mine)
    {
      dhs, dhr, rk, cks := mine, None, sk, None;
      ckr, ns, nr, pn, skipped := None, 0, 0, 0, map[];
    }

    method RatchetEncrypt(pt: Plaintext, cipher: Cipher, nonce: Nonce) returns (r: Result<Frame, Error>)
      requires Valid()
      modifies this
      ensures Valid()
      ensures (Value(), r) == Encrypt(old(Value()), pt, cipher, nonce)
    {
      if cks.None? {
        return Err(NoSendingChain);
      }
      var mk := MessageKey(cks.value);
      cks := Some(NextKey(cks.value));
      var header := Header(cipher, dhs, pn, ns);
      if !Encodable(header) {
        return Err(CounterOverflow);
      }
      var ct := Sealed(cipher, mk, nonce, pt, header);
      ns := ns + 1;
      return Ok(Frame(header, nonce, ct));
    }

    method SkipUntil(until: nat) returns (ok: bool)
      requires Valid()
      modifies this`ckr, this`nr, this`skipped
      ensures Valid()
      ensures ok == Skip(old(Value()), until).Some?
      ensures Value() == if ok then Skip(old(Value()), until).value else old(Value())
    {
      if nr + MAX_SKIP < until {
        return false;
      }
      if ckr.Some? {
        ghost var ck0, n0, held := ckr.value, nr, skipped;
        StoredKeysNone(held, dhr.value, ck0, n0);
        while nr < until
          invariant n0 <= nr && (nr <= until || nr == n0)
          invariant ckr == Some(Advance(ck0, nr - n0))
          invariant skipped == held + StoredKeys(dhr.value, ck0, n0, nr)
        {
          StoredKeysStep(held, dhr.value, ck0, n0, nr);
          var mk := MessageKey(ckr.value);
          ckr := Some(NextKey(ckr.value));
          skipped := skipped[Slot(dhr.value, nr) := mk];
          nr := nr + 1;
        }
      }
      return true;
    }

    method TurnRatchet(dh: KeyId, drawn: KeyId)
      modifies this
      ensures Valid() && Value() == DhRatchet(old(Value()), dh, drawn)
    {
      pn, ns, nr := ns, 0, 0;
      dhr := Some(dh);
      var d := DhOf(dhs, dh);
      rk, ckr := RootKey(rk, d), Some(ChainKey(rk, d));
      dhs := drawn;
      d := DhOf(dhs, dh);
      rk, cks := RootKey(rk, d), Some(ChainKey(rk, d));
    }

    method RatchetDecrypt(f: Frame, drawn: KeyId) returns (r: Result<Plaintext, Error>)
      requires Valid()
      modifies this
      ensures Valid()
      ensures (Value(), r) == Decrypt(old(Value()), f, drawn)
    {
      if !Encodable(f.header) {
        return Err(CounterOverflow);
      }
      var slot := Slot(f.header.dh, f.header.n);
      if slot in skipped {
        var mk := skipped[slot];
        skipped := skipped - {slot};
        return Opened(f, mk);
      }
      if dhr != Some(f.header.dh) {
        var ok := SkipUntil(f.header.pn);
        if !ok {
          return Err(TooManySkipped);
        }
        TurnRatchet(f.header.dh, drawn);
      }
      var ok := SkipUntil(f.header.n);
      if !ok {
        return Err(TooManySkipped);
      }
      if ckr.None? {
        return Err(NoReceivingChain);
      }
      var mk := MessageKey(ckr.value);
      ckr := Some(NextKey(ckr.value));
      nr := nr + 1;
      return Opened(f, mk);
    }
  }
}
