/**
 The client's ratchet session (client/src/cryptobox.cpp): the session of module Ratchet,
 but received on a copy that is kept only once the frame has authenticated, and with a
 store of skipped keys that forgets.

 A turn of the ratchet purges the keys of all generations but the current and the one
 before, and a store above its bound sheds keys, those of the current generation last;
 which ones, the hash order decides, so what is shed is a parameter.
 */
module CryptoBox {
  import opened Wrappers
  import opened Crypto
  import opened Ratchet

  const MAX_SKIPPED_TOTAL: nat := 2 * MAX_SKIP

  // ---- one call, as functions of the session -------------------------------------------

  /** purgeUnreachableSkipped */
  function Purged(m: map<Slot, Key>, current: KeyId, previous: Option<KeyId>): map<Slot, Key> {
    map sl | sl in m && (sl.dh == current || Some(sl.dh) == previous) :: m[sl]
  }

  /** What enforceSkippedCap may shed: just enough, and keys of the current generation only
      when no others are left. */
  predicate CapSheds(m: map<Slot, Key>, current: KeyId, shed: set<Slot>) {
    && shed <= m.Keys
    && |m| - |shed| == (if |m| <= MAX_SKIPPED_TOTAL then |m| else MAX_SKIPPED_TOTAL)
    && ((forall sl <- shed :: sl.dh != current) || (forall sl <- m.Keys - shed :: sl.dh == current))
  }

  /** skipTo */
  function Banked(s: State, until: nat, shed: set<Slot>): Option<State>
    requires WellFormed(s)
  {
    match Skip(s, until)
    case None => None
    case Some(t) => Some(if s.ckr.None? then t else t.(skipped := t.skipped - shed))
  }

  /** dhRatchet */
  function TurnTo(s: State, dh: KeyId, drawn: KeyId, shed: set<Slot>): State {
    var t := DhRatchet(s, dh, drawn);
    t.(skipped := Purged(t.skipped, dh, s.dhr) - shed)
  }

  /** What the cap sheds in the up to three places of one call. */
  datatype Sheds = Sheds(tail: set<Slot>, turn: set<Slot>, here: set<Slot>)

  /** The working copy on the chain that the header names. */
  function OnItsChain(s: State, h: Header, drawn: KeyId, sh: Sheds): Option<State>
    requires WellFormed(s)
  {
    if s.dhr == Some(h.dh) then Some(s)
    else match Banked(s, h.pn, sh.tail)
      case None => None
      case Some(t) => Some(TurnTo(t, h.dh, drawn, sh.turn))
  }

  /** The working copy at the frame's position. */
  function AtItsPlace(s: State, h: Header, drawn: KeyId, sh: Sheds): Option<State>
    requires WellFormed(s)
  {
    match OnItsChain(s, h, drawn, sh)
    case None => None
    case Some(t) => Banked(t, h.n, sh.here)
  }

  /** decryptFrom: nothing is kept of a call that fails. */
  function TryDecrypt(s: State, f: Frame, drawn: KeyId, sh: Sheds): (State, Option<Plaintext>)
    requires WellFormed(s)
  {
    var slot := Slot(f.header.dh, f.header.n);
    if slot in s.skipped then
      match Opened(f, s.skipped[slot])
      case Ok(pt) => (s.(skipped := s.skipped - {slot}), Some(pt))
      case Err(_) => (s, None)
    else
      match AtItsPlace(s, f.header, drawn, sh)
      case None => (s, None)
      case Some(w) =>
        if w.ckr.None? then (s, None) else
        match Opened(f, MessageKey(w.ckr.value))
        case Ok(pt) => (w.(ckr := Some(NextKey(w.ckr.value)), nr := w.nr + 1), Some(pt))
        case Err(_) => (s, None)
  }

  /** The cap sheds nothing where it is not reached. */
  predicate SkipSheds(s: State, until: nat, shed: set<Slot>)
    requires WellFormed(s)
  {
    if s.ckr.Some? && Skip(s, until).Some? then CapSheds(Skip(s, until).value.skipped, s.dhr.value, shed) else shed == {}
  }

  predicate MaySheds(s: State, h: Header, drawn: KeyId, sh: Sheds)
    requires WellFormed(s)
  {
    && (if s.dhr == Some(h.dh) then sh.tail == {} && sh.turn == {}
        else
          && SkipSheds(s, h.pn, sh.tail)
          && match Banked(s, h.pn, sh.tail)
             case None => sh.turn == {}
             case Some(t) => CapSheds(Purged(t.skipped, h.dh, t.dhr), h.dh, sh.turn))
    && match OnItsChain(s, h, drawn, sh)
       case None => sh.here == {}
       case Some(t) => SkipSheds(t, h.n, sh.here)
  }

  /** What the cap may shed in the call for frame f. */
  predicate ShedsOk(s: State, f: Frame, drawn: KeyId, sh: Sheds)
    requires WellFormed(s)
  {
    if Slot(f.header.dh, f.header.n) in s.skipped then sh == Sheds({}, {}, {}) else MaySheds(s, f.header, drawn, sh)
  }

  // ---- the store is bounded ---------------------------------------------------------------

  predicate Within(s: State) {
    |s.skipped| <= MAX_SKIPPED_TOTAL
  }

  lemma ShedSize(m: map<Slot, Key>, current: KeyId, shed: set<Slot>)
    requires CapSheds(m, current, shed)
    ensures |m - shed| <= MAX_SKIPPED_TOTAL
    ensures |m| <= MAX_SKIPPED_TOTAL ==> shed == {}
  {
    assert (m - shed).Keys == m.Keys - shed;
  }

  lemma BankedWithin(s: State, until: nat, shed: set<Slot>)
    requires WellFormed(s) && Within(s) && SkipSheds(s, until, shed)
    ensures Banked(s, until, shed).Some? ==> Within(Banked(s, until, shed).value)
  {
    hide Skip;
    if s.ckr.Some? && Skip(s, until).Some? {
      ShedSize(Skip(s, until).value.skipped, s.dhr.value, shed);
    } else if s.ckr.None? {
      NoChainNoSkip(s, until);
    }
  }

  lemma NoChainNoSkip(s: State, until: nat)
    requires WellFormed(s) && s.ckr.None?
    ensures Skip(s, until).Some? ==> Skip(s, until).value == s
  {}

  /** However many gaps the peer leaves, the store never exceeds twice the skip limit. */
  lemma StoreBounded(s: State, f: Frame, drawn: KeyId, sh: Sheds)
    requires WellFormed(s) && Within(s) && ShedsOk(s, f, drawn, sh)
    ensures Within(TryDecrypt(s, f, drawn, sh).0)
  {
    var slot := Slot(f.header.dh, f.header.n);
    if slot in s.skipped {
      MapRemoveSize(s.skipped, slot);
    } else {
      hide Skip, Opened, Purged, DhRatchet;
      var h := f.header;
      if s.dhr != Some(h.dh) && Banked(s, h.pn, sh.tail).Some? {
        var t := Banked(s, h.pn, sh.tail).value;
        ShedSize(Purged(t.skipped, h.dh, t.dhr), h.dh, sh.turn);
        TurnFields(t, h.dh, drawn, sh.turn);
      }
      if OnItsChain(s, h, drawn, sh).Some? {
        BankedWithin(OnItsChain(s, h, drawn, sh).value, h.n, sh.here);
      }
    }
  }

  lemma TurnFields(s: State, dh: KeyId, drawn: KeyId, shed: set<Slot>)
    ensures var t := TurnTo(s, dh, drawn, shed);
            && t == DhRatchet(s, dh, drawn).(skipped := t.skipped)
            && t.skipped == Purged(s.skipped, dh, s.dhr) - shed
            && WellFormed(t) && t.dhr == Some(dh) && t.dhs == drawn && t.ckr.Some?
  {}

  // ---- against the session of module Ratchet ------------------------------------------------

  /** The same session, but for keys no longer in store. */
  predicate Tracks(c: State, s: State) {
    && c == s.(skipped := c.skipped)
    && (forall sl :: sl in c.skipped ==> sl in s.skipped && c.skipped[sl] == s.skipped[sl])
  }

  lemma BankedTracks(c: State, s: State, until: nat, shed: set<Slot>)
    requires WellFormed(s) && Tracks(c, s)
    ensures Banked(c, until, shed).Some? <==> Skip(s, until).Some?
    ensures Skip(s, until).Some? ==> Tracks(Banked(c, until, shed).value, Skip(s, until).value)
  {
    hide StoredKeys, Advance;
  }

  lemma TurnTracks(c: State, s: State, dh: KeyId, drawn: KeyId, shed: set<Slot>)
    requires Tracks(c, s)
    ensures Tracks(TurnTo(c, dh, drawn, shed), DhRatchet(s, dh, drawn))
  {}

  /** Where the reference's session stands before it takes the frame's key. */
  function Standing(s: State, h: Header, drawn: KeyId): Option<State>
    requires WellFormed(s)
  {
    if s.dhr == Some(h.dh) then Skip(s, h.n)
    else match Skip(s, h.pn)
      case None => None
      case Some(t) => Skip(DhRatchet(t, h.dh, drawn), h.n)
  }

  lemma DecryptAt(s: State, f: Frame, drawn: KeyId)
    requires WellFormed(s) && Encodable(f.header) && Slot(f.header.dh, f.header.n) !in s.skipped
    ensures var at := Standing(s, f.header, drawn);
            && (at.None? || at.value.ckr.None? ==> Decrypt(s, f, drawn).1.Err?)
            && (at.Some? && at.value.ckr.Some? ==>
                 Decrypt(s, f, drawn) == (at.value.(ckr := Some(NextKey(at.value.ckr.value)), nr := at.value.nr + 1),
                                          Opened(f, MessageKey(at.value.ckr.value))))
  {
    hide Skip, Opened;
  }

  lemma StandingTracks(c: State, s: State, h: Header, drawn: KeyId, sh: Sheds)
    requires WellFormed(s) && Tracks(c, s)
    ensures WellFormed(c) && (AtItsPlace(c, h, drawn, sh).Some? <==> Standing(s, h, drawn).Some?)
    ensures Standing(s, h, drawn).Some? ==> Tracks(AtItsPlace(c, h, drawn, sh).value, Standing(s, h, drawn).value)
  {
    hide Skip, Banked, DhRatchet, TurnTo;
    if s.dhr == Some(h.dh) {
      BankedTracks(c, s, h.n, sh.here);
    } else {
      BankedTracks(c, s, h.pn, sh.tail);
      if Skip(s, h.pn).Some? {
        var c0, s0 := Banked(c, h.pn, sh.tail).value, Skip(s, h.pn).value;
        TurnTracks(c0, s0, h.dh, drawn, sh.turn);
        TurnFields(c0, h.dh, drawn, sh.turn);
        BankedTracks(TurnTo(c0, h.dh, drawn, sh.turn), DhRatchet(s0, h.dh, drawn), h.n, sh.here);
      }
    }
  }

  /** Where the two stores agree on the frame's own key, the client's call succeeds exactly
      if the reference's does, with the same text, and the sessions stay in step; a call
      that fails leaves the client's session as it was. */
  lemma DecryptTracks(c: State, s: State, f: Frame, drawn: KeyId, sh: Sheds)
    requires WellFormed(s) && Tracks(c, s) && Encodable(f.header)
    requires Slot(f.header.dh, f.header.n) in s.skipped ==> Slot(f.header.dh, f.header.n) in c.skipped
    ensures WellFormed(c)
    ensures var ((c', o), (s', r)) := (TryDecrypt(c, f, drawn, sh), Decrypt(s, f, drawn));
            && (o.Some? <==> r.Ok?)
            && (if o.Some? then o.value == r.value && Tracks(c', s') else c' == c)
  {
    hide Skip, Opened, DhRatchet, TurnTo, Banked, AtItsPlace, OnItsChain;
    if Slot(f.header.dh, f.header.n) !in s.skipped {
      DecryptAt(s, f, drawn);
      StandingTracks(c, s, f.header, drawn, sh);
      hide Decrypt, Standing;
    }
  }

  lemma BankedKeys(c: State, s: State, until: nat, sl: Slot)
    requires WellFormed(s) && Tracks(c, s) && Skip(s, until).Some?
    requires sl in s.skipped && Some(sl.dh) == s.dhr ==> sl in c.skipped
    ensures Banked(c, until, {}).Some?
    ensures var (c', s') := (Banked(c, until, {}).value, Skip(s, until).value);
            && (sl in s.skipped ==> sl in s'.skipped && (sl in c'.skipped <==> sl in c.skipped))
            && (sl !in s.skipped && sl in s'.skipped ==> sl in c'.skipped && Some(sl.dh) == s.dhr)
            && s'.dhr == s.dhr && s'.dhs == s.dhs
  {
    if s.ckr.Some? && s.nr < until {
      StoredKeysAt(s.dhr.value, s.ckr.value, s.nr, until, sl);
    }
    hide StoredKeys, Advance;
  }

  /** A call that succeeds and sheds nothing either keeps the generation, and then loses no
      key, or turns, and then keeps exactly the generation it leaves and the new one. */
  lemma KeysKept(c: State, s: State, f: Frame, drawn: KeyId, sl: Slot)
    requires WellFormed(s) && Tracks(c, s) && Encodable(f.header) && drawn != s.dhs
    requires Slot(f.header.dh, f.header.n) in s.skipped ==> Slot(f.header.dh, f.header.n) in c.skipped
    requires sl in s.skipped && (Some(sl.dh) == s.dhr || sl.dh == f.header.dh) ==> sl in c.skipped
    requires Decrypt(s, f, drawn).1.Ok?
    ensures var (c', s') := (TryDecrypt(c, f, drawn, Sheds({}, {}, {})).0, Decrypt(s, f, drawn).0);
            sl in s'.skipped ==>
              if s'.dhs == s.dhs then
                && (sl in s.skipped ==> (sl in c'.skipped <==> sl in c.skipped))
                && (sl !in s.skipped ==> sl in c'.skipped && Some(sl.dh) == s'.dhr)
              else
                (sl in c'.skipped <==> sl.dh == f.header.dh || Some(sl.dh) == s.dhr)
  {
    var h := f.header;
    DecryptTracks(c, s, f, drawn, Sheds({}, {}, {}));
    if Slot(h.dh, h.n) in s.skipped {
      hide Skip;
    } else {
      DecryptAt(s, f, drawn);
      if s.dhr == Some(h.dh) {
        BankedKeys(c, s, h.n, sl);
      } else if Skip(s, h.pn).Some? {
        TurnKeys(c, s, h, drawn, sl);
      }
      hide Skip, Opened, DhRatchet, TurnTo, Banked, Decrypt;
    }
  }

  lemma TurnKeys(c: State, s: State, h: Header, drawn: KeyId, sl: Slot)
    requires WellFormed(s) && Tracks(c, s) && s.dhr != Some(h.dh) && Skip(s, h.pn).Some?
    requires sl in s.skipped && (Some(sl.dh) == s.dhr || sl.dh == h.dh) ==> sl in c.skipped
    ensures Banked(c, h.pn, {}).Some?
    ensures var (c1, s1) := (TurnTo(Banked(c, h.pn, {}).value, h.dh, drawn, {}), DhRatchet(Skip(s, h.pn).value, h.dh, drawn));
            && c1 == OnItsChain(c, h, drawn, Sheds({}, {}, {})).value
            && s1.dhs == drawn && WellFormed(s1) && Tracks(c1, s1)
            && (Skip(s1, h.n).Some? ==>
                 && Banked(c1, h.n, {}).Some?
                 && (sl in Skip(s1, h.n).value.skipped ==>
                      (sl in Banked(c1, h.n, {}).value.skipped <==> sl.dh == h.dh || Some(sl.dh) == s.dhr))
                 && Skip(s1, h.n).value.dhs == drawn)
  {
    BankedKeys(c, s, h.pn, sl);
    BankedTracks(c, s, h.pn, {});
    hide Skip, Banked;
    var c0, s0 := Banked(c, h.pn, {}).value, Skip(s, h.pn).value;
    TurnTracks(c0, s0, h.dh, drawn, {});
    var c1, s1 := TurnTo(c0, h.dh, drawn, {}), DhRatchet(s0, h.dh, drawn);
    assert sl in s1.skipped ==> (sl in c1.skipped <==> sl.dh == h.dh || Some(sl.dh) == s.dhr);
    if Skip(s1, h.n).Some? {
      BankedKeys(c1, s1, h.n, sl);
    }
  }

  lemma BankedOnly(s: State, until: nat, shed: set<Slot>, sl: Slot)
    requires WellFormed(s) && Banked(s, until, shed).Some?
    ensures var t := Banked(s, until, shed).value;
            && t == s.(ckr := t.ckr, nr := t.nr, skipped := t.skipped)
            && (sl in t.skipped ==> sl in s.skipped || Some(sl.dh) == s.dhr)
  {
    if s.ckr.Some? && s.nr < until {
      StoredKeysAt(s.dhr.value, s.ckr.value, s.nr, until, sl);
    }
    hide StoredKeys, Advance;
  }

  /** Whatever the cap sheds: a call that keeps the generation stores keys of that
      generation only, and one that turns leaves none but of the two newest. */
  lemma KeysOnly(s: State, f: Frame, drawn: KeyId, sh: Sheds, sl: Slot)
    requires WellFormed(s) && drawn != s.dhs
    ensures var t := TryDecrypt(s, f, drawn, sh).0;
            && (t.dhs == s.dhs ==> t.dhr == s.dhr && (sl in t.skipped ==> sl in s.skipped || Some(sl.dh) == s.dhr))
            && (t.dhs != s.dhs ==>
                 t.dhr == Some(f.header.dh) && (sl in t.skipped ==> sl.dh == f.header.dh || Some(sl.dh) == s.dhr))
  {
    hide Skip, Opened, DhRatchet, TurnTo, Banked;
    var h := f.header;
    if s.dhr == Some(h.dh) {
      if Banked(s, h.n, sh.here).Some? { BankedOnly(s, h.n, sh.here, sl); }
    } else if Banked(s, h.pn, sh.tail).Some? {
      var t := Banked(s, h.pn, sh.tail).value;
      BankedOnly(s, h.pn, sh.tail, sl);
      TurnFields(t, h.dh, drawn, sh.turn);
      var u := TurnTo(t, h.dh, drawn, sh.turn);
      if Banked(u, h.n, sh.here).Some? { BankedOnly(u, h.n, sh.here, sl); }
    }
  }

  /** Sending does not look at the store. */
  lemma EncryptTracks(c: State, s: State, pt: Plaintext, cipher: Cipher, nonce: Nonce)
    requires Tracks(c, s)
    ensures var ((c', f), (s', r)) := (Encrypt(c, pt, cipher, nonce), Encrypt(s, pt, cipher, nonce));
            Tracks(c', s') && f == r && c'.skipped == c.skipped
  {}

  // ---- a late frame ------------------------------------------------------------------------------

  const NONE_SHED: Sheds := Sheds({}, {}, {})

  function SendOne(s: State, pt: Plaintext): (State, Frame)
    requires s.cks.Some? && s.ns < 10 && s.pn < 10
  {
    (Encrypt(s, pt, XChaCha, 0).0, Encrypt(s, pt, XChaCha, 0).1.value)
  }

  /** The next frame of s opens a new generation for r, which has missed nothing before. */
  predicate Leads(s: State, r: State) {
    && WellFormed(s) && WellFormed(r)
    && s.cks == Some(ChainKey(r.rk, DhOf(s.dhs, r.dhs))) && s.rk == RootKey(r.rk, DhOf(s.dhs, r.dhs))
    && s.ns == 0 && s.pn <= r.nr && r.ns <= s.nr && s.pn < 10 && r.ns < 10
    && r.dhr != Some(s.dhs)
  }

  lemma NoGap(s: State, until: nat)
    requires WellFormed(s) && until <= s.nr
    ensures Banked(s, until, {}) == Some(s)
  {
    assert s.skipped - {} == s.skipped;
  }

  /** One frame, and the generation turns. */
  lemma OneTurn(s: State, r: State, pt: Plaintext, drawn: KeyId)
    requires Leads(s, r) && s.dhr != Some(drawn)
    requires forall sl :: sl in r.skipped ==> sl.dh != s.dhs
    ensures var (s1, f) := SendOne(s, pt);
            var (r1, o) := TryDecrypt(r, f, drawn, NONE_SHED);
            && o == Some(pt) && Leads(r1, s1)
            && s1.skipped == s.skipped && s1.dhs == s.dhs && s1.dhr == s.dhr
            && r1.skipped == Purged(r.skipped, s.dhs, r.dhr) && r1.dhr == Some(s.dhs) && r1.dhs == drawn
  {
    NoGap(r, s.pn);
    var t := TurnTo(r, s.dhs, drawn, {});
    assert t.skipped == Purged(r.skipped, s.dhs, r.dhr);
    NoGap(t, 0);
  }

  /** The first frame of all is delayed, the second arrives. */
  lemma FirstIsLate()
    ensures var (alice, bob) := (InitAlice(SharedSecret(DhOf(9, 0)), 1, 0), InitBob(SharedSecret(DhOf(9, 0)), 0));
            var (a1, late) := SendOne(alice, "late");
            var (a2, f) := SendOne(a1, "a");
            var (b1, o) := TryDecrypt(bob, f, 2, NONE_SHED);
            && o == Some("a") && Leads(b1, a2) && a2.skipped == map[] && a2.dhs == 1 && a2.dhr == Some(0)
            && b1.skipped == map[Slot(1, 0) := late.ct.key] && b1.dhs == 2 && b1.dhr == Some(1)
            && late.header == Header(XChaCha, 1, 0, 0) && Opened(late, late.ct.key) == Ok("late")
            && late.ct.key == MessageKey(ChainKey(SharedSecret(DhOf(9, 0)), DhOf(1, 0)))
  {
    var bob := InitBob(SharedSecret(DhOf(9, 0)), 0);
    var a1 := SendOne(InitAlice(SharedSecret(DhOf(9, 0)), 1, 0), "late").0;
    var f := SendOne(a1, "a").1;
    var ck := ChainKey(SharedSecret(DhOf(9, 0)), DhOf(1, 0));
    NoGap(bob, 0);
    var t := TurnTo(bob, 1, 2, {});
    assert t.skipped == map[] && t.ckr == Some(ck);
    assert StoredKeys(1, ck, 0, 1) == map[Slot(1, 0) := MessageKey(Advance(ck, 0))];
    var u := t.(ckr := Some(Advance(ck, 1)), nr := 1, skipped := map[] + StoredKeys(1, ck, 0, 1));
    assert Skip(t, 1) == Some(u);
    assert u.skipped - {} == map[Slot(1, 0) := MessageKey(ck)];
    assert Banked(t, 1, {}) == Some(u.(skipped := map[Slot(1, 0) := MessageKey(ck)]));
    hide Skip, Banked, TurnTo, StoredKeys;
  }

  /** One frame of s to r and one back. */
  function Round(s: State, r: State, d1: KeyId, d2: KeyId): (State, State)
    requires s.cks.Some? && s.ns < 10 && s.pn < 10 && WellFormed(s) && WellFormed(r)
  {
    var (s1, f) := SendOne(s, "ping");
    var r1 := TryDecrypt(r, f, d1, NONE_SHED).0;
    if !(r1.cks.Some? && r1.ns < 10 && r1.pn < 10) then (s1, r1) else
    var (r2, g) := SendOne(r1, "pong");
    (TryDecrypt(s1, g, d2, NONE_SHED).0, r2)
  }

  predicate Apart(s: State, r: State, d1: KeyId, d2: KeyId) {
    && s.dhr != Some(d1) && d1 != s.dhs && Some(s.dhs) != r.dhr && d2 != d1 && Some(d2) != r.dhr && d2 != s.dhs
    && (forall sl :: sl in r.skipped ==> Some(sl.dh) == r.dhr)
    && (forall sl :: sl in s.skipped ==> sl.dh != d1)
  }

  lemma RoundLeads(s: State, r: State, d1: KeyId, d2: KeyId)
    requires Leads(s, r) && Apart(s, r, d1, d2)
    ensures var (s', r') := Round(s, r, d1, d2);
            && Leads(s', r') && s'.dhs == d2 && r'.dhs == d1 && r'.dhr == Some(s.dhs) && s'.dhr == Some(d1)
            && r'.skipped == r.skipped
            && s'.skipped == Purged(s.skipped, d1, s.dhr)
  {
    OneTurn(s, r, "ping", d1);
    var (s1, f) := SendOne(s, "ping");
    var r1 := TryDecrypt(r, f, d1, NONE_SHED).0;
    hide TryDecrypt;
    assert Purged(r.skipped, s.dhs, r.dhr) == r.skipped;
    OneTurn(r1, s1, "pong", d2);
  }

  /** A frame delayed past two turns is lost, though its key was stored.  However it came to
      be in the store: after one turn of the ratchet the key is still there, and after the
      next one it is gone. */
  lemma LateFrameIsLost(s: State, r: State, d1: KeyId, d2: KeyId, d3: KeyId, sl: Slot)
    requires Leads(s, r) && Apart(s, r, d1, d2) && d3 != d1 && sl in r.skipped
    ensures var (s', r') := Round(s, r, d1, d2);
            && sl in r'.skipped && r'.skipped[sl] == r.skipped[sl]
            && WellFormed(r') && s'.cks.Some? && s'.ns < 10 && s'.pn < 10
            && sl !in TryDecrypt(r', SendOne(s', "ping").1, d3, NONE_SHED).0.skipped
  {
    hide TryDecrypt, Round;
    RoundLeads(s, r, d1, d2);
    var (s', r') := Round(s, r, d1, d2);
    OneTurn(s', r', "ping", d3);
  }

  /** Such a pair of sessions arises at the very start, when the first frame of all is
      delayed past the second and the peer's answer. */
  lemma LateFrameArises()
    ensures var (alice, bob) := (InitAlice(SharedSecret(DhOf(9, 0)), 1, 0), InitBob(SharedSecret(DhOf(9, 0)), 0));
            var (a1, late) := SendOne(alice, "late");
            var (a2, f) := SendOne(a1, "a");
            var b1 := TryDecrypt(bob, f, 2, NONE_SHED).0;
            && Leads(b1, a2)
            && var (b2, g) := SendOne(b1, "b");
               var a3 := TryDecrypt(a2, g, 3, NONE_SHED).0;
               Leads(a3, b2) && Apart(a3, b2, 4, 5) && b2.skipped == map[Slot(1, 0) := late.ct.key]
  {
    hide TryDecrypt;
    FirstIsLate();
    var a1 := SendOne(InitAlice(SharedSecret(DhOf(9, 0)), 1, 0), "late").0;
    var (a2, f) := SendOne(a1, "a");
    OneTurn(TryDecrypt(InitBob(SharedSecret(DhOf(9, 0)), 0), f, 2, NONE_SHED).0, a2, "b", 3);
  }

  // ---- the object ------------------------------------------------------------------------------

  lemma ShedOne(m: map<Slot, Key>, shed: set<Slot>, sl: Slot)
    requires sl in m && sl !in shed
    ensures (m - shed) - {sl} == m - (shed + {sl})
    ensures |(m - shed) - {sl}| == |m - shed| - 1
  {
    MapRemoveSize(m - shed, sl);
  }

  lemma ShedKeys(m: map<Slot, Key>, shed: set<Slot>)
    requires shed <= m.Keys
    ensures |m - shed| == |m| - |shed|
  {
    assert (m - shed).Keys == m.Keys - shed;
  }

  /** enforceSkippedCap: first over the other generations, then over all. */
  method EnforceSkippedCap(m: map<Slot, Key>, current: KeyId) returns (kept: map<Slot, Key>, ghost shed: set<Slot>)
    ensures CapSheds(m, current, shed) && kept == m - shed
    ensures |kept| == if |m| <= MAX_SKIPPED_TOTAL then |m| else MAX_SKIPPED_TOTAL
  {
    kept, shed := m, {};
    if |m| <= MAX_SKIPPED_TOTAL { return; }
    var todo := m.Keys;
    while todo != {} && |kept| > MAX_SKIPPED_TOTAL
      invariant shed <= m.Keys && kept == m - shed && todo <= m.Keys - shed
      invariant |kept| >= MAX_SKIPPED_TOTAL
      invariant forall sl <- shed :: sl.dh != current
      invariant forall sl <- m.Keys - shed :: sl in todo || sl.dh == current
      decreases todo
    {
      var sl :| sl in todo;
      todo := todo - {sl};
      if sl.dh != current {
        ShedOne(m, shed, sl);
        kept, shed := kept - {sl}, shed + {sl};
      }
    }
    todo := kept.Keys;
    while todo != {} && |kept| > MAX_SKIPPED_TOTAL
      invariant shed <= m.Keys && kept == m - shed && todo == kept.Keys
      invariant |kept| >= MAX_SKIPPED_TOTAL
      invariant (forall sl <- shed :: sl.dh != current) || (forall sl <- m.Keys - shed :: sl.dh == current)
      invariant |kept| > MAX_SKIPPED_TOTAL ==> forall sl <- m.Keys - shed :: sl.dh == current
      decreases todo
    {
      var sl :| sl in todo;
      ShedOne(m, shed, sl);
      kept, shed, todo := kept - {sl}, shed + {sl}, todo - {sl};
    }
    ShedKeys(m, shed);
  }

  /** purgeUnreachableSkipped */
  method PurgeUnreachableSkipped(m: map<Slot, Key>, current: KeyId, previous: Option<KeyId>) returns (kept: map<Slot, Key>)
    ensures kept == Purged(m, current, previous)
  {
    kept := m;
    var todo := m.Keys;
    while todo != {}
      invariant todo <= kept.Keys <= m.Keys
      invariant forall sl <- kept :: kept[sl] == m[sl]
      invariant forall sl <- m.Keys - todo :: sl in kept <==> sl.dh == current || Some(sl.dh) == previous
      decreases todo
    {
      var sl :| sl in todo;
      todo := todo - {sl};
      if sl.dh != current && Some(sl.dh) != previous {
        kept := kept - {sl};
      }
    }
  }

  /** The loop of skipTo. */
  method Bank(s: State, until: nat) returns (t: State)
    requires WellFormed(s) && s.ckr.Some? && until <= s.nr + MAX_SKIP
    ensures t == Skip(s, until).value
  {
    var ck, nr, skipped := s.ckr.value, s.nr, s.skipped;
    ghost var dh := s.dhr.value;
    StoredKeysNone(s.skipped, dh, ck, nr);
    while nr < until
      invariant s.nr <= nr && (nr <= until || nr == s.nr)
      invariant ck == Advance(s.ckr.value, nr - s.nr)
      invariant skipped == s.skipped + StoredKeys(dh, s.ckr.value, s.nr, nr)
    {
      StoredKeysStep(s.skipped, dh, s.ckr.value, s.nr, nr);
      var mk := MessageKey(ck);
      ck, skipped, nr := NextKey(ck), skipped[Slot(s.dhr.value, nr) := mk], nr + 1;
    }
    hide StoredKeys;
    t := s.(ckr := Some(ck), nr := nr, skipped := skipped);
  }

  /** skipTo, on the working copy. */
  method SkipTo(s: State, until: nat) returns (ok: bool, t: State, ghost shed: set<Slot>)
    requires WellFormed(s)
    ensures SkipSheds(s, until, shed)
    ensures ok == Skip(s, until).Some? == Banked(s, until, shed).Some?
    ensures t == if ok then Banked(s, until, shed).value else s
  {
    hide StoredKeys, Advance, CapSheds;
    t, shed := s, {};
    if s.nr + MAX_SKIP < until { return false, t, shed; }
    if s.ckr.Some? {
      t := Bank(s, until);
      var kept;
      kept, shed := EnforceSkippedCap(t.skipped, s.dhr.value);
      t := t.(skipped := kept);
    }
    ok := true;
  }

  /** dhRatchet, on the working copy. */
  method DhRatchetOf(s: State, dh: KeyId, drawn: KeyId) returns (t: State, ghost shed: set<Slot>)
    ensures CapSheds(Purged(s.skipped, dh, s.dhr), dh, shed) && t == TurnTo(s, dh, drawn, shed)
    ensures t == DhRatchet(s, dh, drawn).(skipped := t.skipped)
  {
    var superseded := s.dhr;
    t := s.(pn := s.ns, ns := 0, nr := 0, dhr := Some(dh));
    var d := DhOf(t.dhs, dh);
    t := t.(rk := RootKey(t.rk, d), ckr := Some(ChainKey(t.rk, d)), dhs := drawn);
    d := DhOf(t.dhs, dh);
    t := t.(rk := RootKey(t.rk, d), cks := Some(ChainKey(t.rk, d)));
    var kept := PurgeUnreachableSkipped(t.skipped, dh, superseded);
    kept, shed := EnforceSkippedCap(kept, dh);
    t := t.(skipped := kept);
  }

  class Box {
    var session: State

    constructor (session: State)
      ensures this.session == session
    {
      this.session := session;
    }

    method DecryptFrom(f: Frame, drawn: KeyId) returns (r: Option<Plaintext>, ghost sh: Sheds)
      requires WellFormed(session)
      modifies this
      ensures ShedsOk(old(session), f, drawn, sh)
      ensures (session, r) == TryDecrypt(old(session), f, drawn, sh)
    {
      hide Skip, Banked, TurnTo, CapSheds, SkipSheds, Opened, Purged, DhRatchet;
      sh := Sheds({}, {}, {});
      var slot := Slot(f.header.dh, f.header.n);
      if slot in session.skipped {
        var pt := Opened(f, session.skipped[slot]);
        if pt.Err? { return None, sh; }
        session := session.(skipped := session.skipped - {slot});
        return Some(pt.value), sh;
      }
      var work := session;
      var ok := true;
      ghost var tail, turn, here: set<Slot> := {}, {}, {};
      if work.dhr != Some(f.header.dh) {
        ok, work, tail := SkipTo(work, f.header.pn);
        sh := Sheds(tail, {}, {});
        if !ok { return None, sh; }
        ghost var tailed := work;
        work, turn := DhRatchetOf(work, f.header.dh, drawn);
        TurnFields(tailed, f.header.dh, drawn, turn);
      }
      ok, work, here := SkipTo(work, f.header.n);
      sh := Sheds(tail, turn, here);
      if !ok || work.ckr.None? { return None, sh; }
      var mk := MessageKey(work.ckr.value);
      work := work.(ckr := Some(NextKey(work.ckr.value)), nr := work.nr + 1);
      var pt := Opened(f, mk);
      if pt.Err? { return None, sh; }
      session := work;
      r := Some(pt.value);
    }
  }
}
