/**
 The ratchet of server/crypto_core.py under copies of frames already read and under altered
 frames: they never yield a text, but the reference steps its session before it authenticates,
 so a copy can cost the frame due next, and an altered frame the genuine one.  The client's
 session does not behave so: see CryptoBox.
 */
module Replays {
  import opened Wrappers
  import opened Crypto
  import opened Ratchet
  import opened Protocol

  function FrameSlot(f: Frame): Slot {
    Slot(f.header.dh, f.header.n)
  }

  /** A frame that was read, or whose position was passed and its key stored. */
  predicate Behind(w: World, to: Party, i: nat)
    requires i < |At(w, Other(to)).log|
  {
    i in At(w, to).got || SlotOf(At(w, Other(to)).log[i]) in At(w, to).st.skipped
  }

  /** Once its position was passed, a frame opens with its stored key or not at all: a
      session that has everything but that key refuses it. */
  lemma BehindOpensByStoreOnly(w: World, to: Party, i: nat, c: State, drawn: KeyId)
    requires Inv(w) && i < |At(w, Other(to)).log| && Behind(w, to, i)
    requires c == At(w, to).st.(skipped := c.skipped) && SlotOf(At(w, Other(to)).log[i]) !in c.skipped
    ensures WellFormed(c)
    ensures Decrypt(c, At(w, Other(to)).log[i].frame, drawn).1.Err?
  {
    hide Inv, PartyOk, PeerOk, StoreOk, LogOk, GotOk, Balanced, EpochsOk, Decrypt, Behind;
    Take(w, to);
    var s, p := At(w, Other(to)), At(w, to).(st := c);
    BehindFrame(w, to, i);
    OtherStore(w.eps, At(w, to), c);
    var x := s.log[i];
    ChainRoots(w, x.epoch);
    KeysApart(w, x.epoch - 1, p.epoch);
    if x.epoch + 1 == p.epoch {
      ReplayOnChain(w.eps, p, x.frame, drawn);
    } else {
      ReplayOfOldChain(w.eps, p, x, drawn);
    }
  }

  lemma OtherStore(eps: seq<Epoch>, p: Peer, c: State)
    requires PeerOk(eps, p) && c == p.st.(skipped := c.skipped)
    ensures PeerOk(eps, p.(st := c))
  {
    hide Advance;
  }

  /** A frame already read never yields a text again. */
  lemma ReplayNeverYields(w: World, to: Party, i: nat, drawn: KeyId)
    requires Inv(w) && i in At(w, to).got
    ensures Shaped(w) && i < |At(w, Other(to)).log|
    ensures Decrypt(At(w, to).st, At(w, Other(to)).log[i].frame, drawn).1.Err?
  {
    hide Inv, Decrypt;
    InvShaped(w);
    ReadFrame(w, to, i);
    BehindOpensByStoreOnly(w, to, i, At(w, to).st, drawn);
  }

  lemma GotIsLogged(w: World, to: Party, i: nat)
    requires Inv(w) && i in At(w, to).got
    ensures i < |At(w, Other(to)).log|
  {
    hide PeerOk, StoreOk, LogOk, Balanced, EpochsOk;
  }

  /** What is known of a frame already read. */
  lemma ReadFrame(w: World, to: Party, i: nat)
    requires Inv(w) && i in At(w, to).got
    ensures i < |At(w, Other(to)).log|
    ensures var s, p := At(w, Other(to)), At(w, to);
            && PeerOk(w.eps, p)
            && var x := s.log[i];
               && 1 <= x.epoch < p.epoch < |w.eps|
               && x.frame.header.dh == w.eps[x.epoch].key
               && x.frame.ct.key == MessageKey(Advance(w.eps[x.epoch].chain, x.frame.header.n))
               && SlotOf(x) !in p.st.skipped
               && (x.epoch + 1 == p.epoch ==> x.frame.header.n < p.st.nr)
               && (x.epoch + 1 != p.epoch ==> p.st.dhr != Some(x.frame.header.dh))
  {
    hide Inv, PartyOk;
    GotIsLogged(w, to, i);
    BehindFrame(w, to, i);
  }

  /** What is known of a frame whose position was passed. */
  lemma BehindFrame(w: World, to: Party, i: nat)
    requires Inv(w) && i < |At(w, Other(to)).log| && Behind(w, to, i)
    ensures var s, p := At(w, Other(to)), At(w, to);
            && PeerOk(w.eps, p)
            && var x := s.log[i];
               && 1 <= x.epoch < p.epoch < |w.eps|
               && x.frame.header.dh == w.eps[x.epoch].key
               && x.frame.ct.key == MessageKey(Advance(w.eps[x.epoch].chain, x.frame.header.n))
               && (i in p.got ==> SlotOf(x) !in p.st.skipped)
               && (x.epoch + 1 == p.epoch ==> x.frame.header.n < p.st.nr)
               && (x.epoch + 1 != p.epoch ==> p.st.dhr != Some(x.frame.header.dh))
  {
    hide PartyOk, LogOk, GotOk, StoreOk, PeerOk, Balanced;
    Take(w, to);
    BehindFrameOf(w.eps, At(w, Other(to)), At(w, to), i);
  }

  lemma BehindFrameOf(eps: seq<Epoch>, s: Peer, p: Peer, i: nat)
    requires PartyOk(eps, p, s) && PartyOk(eps, s, p) && DistinctKeys(eps) && i < |s.log|
    requires i in p.got || SlotOf(s.log[i]) in p.st.skipped
    ensures && PeerOk(eps, p)
            && var x := s.log[i];
               && 1 <= x.epoch < p.epoch < |eps|
               && x.frame.header.dh == eps[x.epoch].key
               && x.frame.ct.key == MessageKey(Advance(eps[x.epoch].chain, x.frame.header.n))
               && (i in p.got ==> SlotOf(x) !in p.st.skipped)
               && (x.epoch + 1 == p.epoch ==> x.frame.header.n < p.st.nr)
               && (x.epoch + 1 != p.epoch ==> p.st.dhr != Some(x.frame.header.dh))
  {
    assert GotOk(s, p) && LogOk(eps, s);
    var x := s.log[i];
    assert SentOk(eps, s, x) && (i in p.got ==> SlotOf(x) in p.read);
    hide LogOk, GotOk, Balanced, Advance;
    assert KnownSlot(eps, p, SlotOf(x));
    assert StoredAt(eps, p, x.epoch, SlotOf(x).n);
  }

  lemma ChainRoots(w: World, j: nat)
    requires Inv(w) && 1 <= j < |w.eps|
    ensures w.eps[j].chain == ChainKey(w.eps[j - 1].root, DhOf(w.eps[j].key, w.eps[j - 1].key))
  {
    hide PartyOk;
  }

  lemma ReplayOnChain(eps: seq<Epoch>, p: Peer, f: Frame, drawn: KeyId)
    requires PeerOk(eps, p) && p.epoch >= 2 && eps[p.epoch - 1].chain.ChainKey?
    requires FrameSlot(f) !in p.st.skipped && f.header.dh == eps[p.epoch - 1].key && f.header.n < p.st.nr
    requires f.ct.key == MessageKey(Advance(eps[p.epoch - 1].chain, f.header.n))
    ensures WellFormed(p.st) && Decrypt(p.st, f, drawn).1.Err?
  {
    var c := eps[p.epoch - 1].chain;
    assert p.st.ckr == Some(Advance(c, p.st.nr)) && p.st.dhr == Some(f.header.dh);
    if Advance(c, p.st.nr) == Advance(c, f.header.n) {
      AdvanceInjective(c, p.st.nr, c, f.header.n);
      assert false;
    }
    hide PeerOk, Advance, StoredKeys;
  }

  lemma KeysApart(w: World, j: nat, k: nat)
    requires Inv(w) && j < k < |w.eps|
    ensures w.eps[j].key != w.eps[k].key
  {
    hide PartyOk;
  }

  /** The frame of a chain left behind: answering its old key starts a different chain. */
  lemma ReplayOfOldChain(eps: seq<Epoch>, p: Peer, x: Sent, drawn: KeyId)
    requires PeerOk(eps, p) && 1 <= x.epoch < p.epoch && eps[x.epoch - 1].key != eps[p.epoch].key
    requires eps[x.epoch].chain == ChainKey(eps[x.epoch - 1].root, DhOf(eps[x.epoch].key, eps[x.epoch - 1].key))
    requires SlotOf(x) !in p.st.skipped && x.frame.header.dh == eps[x.epoch].key
    requires p.st.dhr != Some(x.frame.header.dh)
    requires x.frame.ct.key == MessageKey(Advance(eps[x.epoch].chain, x.frame.header.n))
    ensures WellFormed(p.st) && Decrypt(p.st, x.frame, drawn).1.Err?
  {
    var n, dh := x.frame.header.n, x.frame.header.dh;
    assert p.st.dhs == eps[p.epoch].key && WellFormed(p.st);
    hide PeerOk, StoredKeys;
    if Skip(p.st, x.frame.header.pn).Some? {
      var st := Skip(p.st, x.frame.header.pn).value;
      assert st.dhs == p.st.dhs;
      var wrong := ChainKey(st.rk, DhOf(st.dhs, dh));
      assert DhRatchet(st, dh, drawn).ckr == Some(wrong);
      assert wrong != eps[x.epoch].chain;
      if Advance(wrong, n) == Advance(eps[x.epoch].chain, n) {
        AdvanceInjective(wrong, n, eps[x.epoch].chain, n);
        assert false;
      }
      assert Advance(wrong, 0) == wrong;
      hide Advance, Skip;
      WrongChainRejects(DhRatchet(st, dh, drawn), x.frame, wrong);
    }
  }

  lemma WrongChainRejects(st: State, f: Frame, ck: Key)
    requires st.ckr == Some(ck) && st.nr == 0 && st.dhr.Some?
    requires f.ct.key != MessageKey(Advance(ck, f.header.n))
    ensures DecryptOnChain(st, f).1.Err?
  {
    hide StoredKeys;
  }

  /** Whether a copy of a frame already read changes the reference's session, exactly: it does,
      unless it comes from a chain left behind and its header counts a gap beyond the skip
      limit. */
  lemma CopyLeavesStateExactly(w: World, to: Party, i: nat, drawn: KeyId)
    requires Inv(w) && i in At(w, to).got && drawn !in w.used
    ensures Shaped(w) && i < |At(w, Other(to)).log|
    ensures var (p, h) := (At(w, to), At(w, Other(to)).log[i].frame.header);
            Decrypt(p.st, At(w, Other(to)).log[i].frame, drawn).0 == p.st
            <==> p.st.dhr != Some(h.dh) && p.st.nr + MAX_SKIP < h.pn
  {
    hide Inv, PartyOk, PeerOk, StoreOk, LogOk, GotOk, Balanced, EpochsOk, Decrypt;
    InvShaped(w);
    ReadFrame(w, to, i);
    FrameInLog(w, Other(to), i);
    Fresh(w, to, drawn);
    var (p, f) := (At(w, to), At(w, Other(to)).log[i].frame);
    if p.st.dhr == Some(f.header.dh) {
      ReceivesNow(w, to, i);
      CopyOnChain(p.st, f, drawn);
    } else {
      CopyOffChain(p.st, f, drawn);
    }
  }

  /** A new key pair differs from the one in use. */
  lemma Fresh(w: World, to: Party, drawn: KeyId)
    requires Inv(w) && drawn !in w.used
    ensures At(w, to).st.dhs != drawn && forall j :: 0 <= j < |w.eps| ==> w.eps[j].key != drawn
  {
    hide StoreOk, LogOk, GotOk, Balanced;
    assert PeerOk(w.eps, At(w, to));
  }

  /** A read frame under the peer key in force is behind on the receiving chain. */
  lemma ReceivesNow(w: World, to: Party, i: nat)
    requires Inv(w) && i in At(w, to).got && i < |At(w, Other(to)).log|
    requires At(w, to).st.dhr == Some(At(w, Other(to)).log[i].frame.header.dh)
    ensures var (p, x) := (At(w, to), At(w, Other(to)).log[i]);
            p.epoch >= 2 && p.st.ckr.Some? && x.epoch + 1 == p.epoch && x.frame.header.n < p.st.nr
  {
    hide StoreOk, LogOk, GotOk, Balanced;
    ReadFrame(w, to, i);
  }

  lemma CopyOnChain(st: State, f: Frame, drawn: KeyId)
    requires WellFormed(st) && st.ckr.Some? && st.dhr == Some(f.header.dh) && Encodable(f.header)
    requires FrameSlot(f) !in st.skipped && f.header.n < st.nr
    ensures Decrypt(st, f, drawn).0 == st.(ckr := Some(NextKey(st.ckr.value)), nr := st.nr + 1)
    ensures Decrypt(st, f, drawn).0 != st
  {
    hide StoredKeys;
  }

  /** What a copy from a chain left behind does: refused, it changes nothing; otherwise it
      turns the ratchet towards the old key, away from the peer's chain. */
  lemma CopyOffChain(st: State, f: Frame, drawn: KeyId)
    requires WellFormed(st) && st.dhr != Some(f.header.dh) && Encodable(f.header)
    requires FrameSlot(f) !in st.skipped && st.dhs != drawn
    ensures var st1 := Decrypt(st, f, drawn).0;
            if st.nr + MAX_SKIP < f.header.pn then st1 == st
            else st1 != st && st1.dhs == drawn && st1.dhr == Some(f.header.dh)
  {
    hide StoredKeys, Advance;
  }

  /** What a copy costs, exactly.  After a copy of frame i, the frame k due next on the
      receiving chain can no longer be read if and only if the copy is from that chain, or
      from one left behind whose header counts no more positions than were received; a
      header that counts more stores frame k's key on the way. */
  lemma ReplayLosesNextFrame(w: World, to: Party, i: nat, k: nat, drawn: KeyId, drawn2: KeyId)
    requires Inv(w) && i in At(w, to).got && k < |At(w, Other(to)).log|
    requires drawn !in w.used
    requires At(w, Other(to)).log[k].epoch + 1 == At(w, to).epoch
    requires SlotOf(At(w, Other(to)).log[k]).n == At(w, to).st.nr
    ensures Shaped(w) && i < |At(w, Other(to)).log|
    ensures var (s, p) := (At(w, Other(to)), At(w, to));
            var h := s.log[i].frame.header;
            var st1 := Decrypt(p.st, s.log[i].frame, drawn).0;
            && WellFormed(st1)
            && (Decrypt(st1, s.log[k].frame, drawn2).1.Err? <==> p.st.dhr == Some(h.dh) || h.pn <= p.st.nr)
  {
    hide Inv, PartyOk, PeerOk, StoreOk, LogOk, GotOk, Balanced, EpochsOk, Decrypt;
    InvShaped(w);
    var s, p := At(w, Other(to)), At(w, to);
    ReadFrame(w, to, i);
    FrameInLog(w, Other(to), i);
    FrameInLog(w, Other(to), k);
    NextSlotNotStored(w, to);
    NextFrameSealed(w, to, k);
    if p.st.dhr == Some(s.log[i].frame.header.dh) {
      ReceivesNow(w, to, i);
      ChainSteppedTwice(w.eps, p, s.log[i].frame, s.log[k].frame, drawn, drawn2);
    } else {
      Fresh(w, to, drawn);
      ChainRoots(w, p.epoch - 1);
      NextAfterOldCopy(w.eps, p, s.log[i].frame, s.log[k].frame, drawn, drawn2);
    }
  }

  lemma NextFrameSealed(w: World, to: Party, k: nat)
    requires Inv(w) && k < |At(w, Other(to)).log| && At(w, Other(to)).log[k].epoch + 1 == At(w, to).epoch
    ensures var (p, x) := (At(w, to), At(w, Other(to)).log[k]);
            && PeerOk(w.eps, p) && p.epoch >= 2
            && x.frame.header.dh == w.eps[p.epoch - 1].key
            && x.frame.ct == Sealed(x.frame.header.cipher, MessageKey(Advance(w.eps[p.epoch - 1].chain, x.frame.header.n)),
                                    x.frame.nonce, x.plain, x.frame.header)
  {
    hide PeerOk, StoreOk, GotOk, Balanced, EpochsOk;
    assert SentOk(w.eps, At(w, Other(to)), At(w, Other(to)).log[k]);
  }

  /** The frame due next, after a copy from a chain left behind. */
  lemma NextAfterOldCopy(eps: seq<Epoch>, p: Peer, copy: Frame, next: Frame, drawn: KeyId, drawn2: KeyId)
    requires PeerOk(eps, p) && p.epoch >= 2 && Encodable(copy.header) && Encodable(next.header)
    requires eps[p.epoch - 1].chain == ChainKey(eps[p.epoch - 2].root, DhOf(eps[p.epoch - 1].key, eps[p.epoch - 2].key))
    requires forall j :: 0 <= j < |eps| ==> eps[j].key != drawn
    requires FrameSlot(copy) !in p.st.skipped && p.st.dhr != Some(copy.header.dh) && p.st.dhs != drawn
    requires FrameSlot(next) == Slot(eps[p.epoch - 1].key, p.st.nr) && FrameSlot(next) !in p.st.skipped
    requires next.ct.key == MessageKey(Advance(eps[p.epoch - 1].chain, p.st.nr))
    requires next.ct.cipher == next.header.cipher && next.ct.nonce == next.nonce && next.ct.ad == next.header
    ensures WellFormed(p.st)
    ensures var st1 := Decrypt(p.st, copy, drawn).0;
            WellFormed(st1) && (Decrypt(st1, next, drawn2).1.Err? <==> copy.header.pn <= p.st.nr)
  {
    var (st, c, pn) := (p.st, eps[p.epoch - 1].chain, copy.header.pn);
    var st1 := Decrypt(st, copy, drawn).0;
    assert st.dhr == Some(FrameSlot(next).dh) && st.ckr == Some(Advance(c, st.nr)) && WellFormed(st);
    hide PeerOk, Advance;
    if st.nr + MAX_SKIP < pn {
      CopyOffChain(st, copy, drawn);
      NextOpens(st, next, drawn2);
    } else {
      TurnedAway(st, copy, drawn, FrameSlot(next));
      if st.nr < pn {
        hide StoredKeys;
        assert Decrypt(st1, next, drawn2).1 == Opened(next, MessageKey(Advance(st.ckr.value, 0)));
        NoSteps(st.ckr.value);
      } else {
        WrongAnswerRejects(st1, next, drawn2, c, eps[p.epoch - 2].key);
      }
    }
  }

  lemma NoSteps(ck: Key)
    ensures Advance(ck, 0) == ck
  {}

  lemma NextOpens(st: State, next: Frame, drawn: KeyId)
    requires WellFormed(st) && st.ckr.Some? && Encodable(next.header)
    requires FrameSlot(next) !in st.skipped && st.dhr == Some(next.header.dh) && next.header.n == st.nr
    requires next.ct == Sealed(next.header.cipher, MessageKey(st.ckr.value), next.nonce, next.ct.plain, next.header)
    ensures Decrypt(st, next, drawn).1.Ok?
  {
    hide StoredKeys, Advance;
  }

  /** The session after a copy from a chain left behind that is not refused. */
  lemma TurnedAway(st: State, copy: Frame, drawn: KeyId, due: Slot)
    requires WellFormed(st) && st.ckr.Some? && Encodable(copy.header) && st.dhs != drawn
    requires FrameSlot(copy) !in st.skipped && st.dhr != Some(copy.header.dh) && copy.header.pn <= st.nr + MAX_SKIP
    requires st.dhr == Some(due.dh) && due.n == st.nr && due !in st.skipped
    ensures var st1 := Decrypt(st, copy, drawn).0;
            && WellFormed(st1) && st1.dhs == drawn && st1.dhr == Some(copy.header.dh)
            && (due in st1.skipped <==> st.nr < copy.header.pn)
            && (due in st1.skipped ==> st1.skipped[due] == MessageKey(Advance(st.ckr.value, 0)))
  {
    hide Advance, StoredKeys;
    var h := copy.header;
    StoredKeysAt(due.dh, st.ckr.value, st.nr, h.pn, due);
    var turned := DhRatchet(Skip(st, h.pn).value, h.dh, drawn);
    assert due in turned.skipped <==> st.nr < h.pn;
    if turned.nr < h.n {
      StoredKeysAt(h.dh, turned.ckr.value, turned.nr, h.n, due);
    }
  }

  /** A chain answered with the wrong key pair does not open the peer's frames. */
  lemma WrongAnswerRejects(st: State, next: Frame, drawn: KeyId, chain: Key, mine: KeyId)
    requires WellFormed(st) && Encodable(next.header) && FrameSlot(next) !in st.skipped
    requires st.dhr != Some(next.header.dh) && st.dhs != mine
    requires chain.ChainKey? && chain.dh == DhOf(next.header.dh, mine)
    requires next.ct.key == MessageKey(Advance(chain, next.header.n))
    ensures Decrypt(st, next, drawn).1.Err?
  {
    hide StoredKeys;
    var skip := Skip(st, next.header.pn);
    if skip.Some? {
      var wrong := ChainKey(skip.value.rk, DhOf(skip.value.dhs, next.header.dh));
      assert skip.value.dhs == st.dhs && wrong != chain;
      if Advance(wrong, next.header.n) == Advance(chain, next.header.n) {
        AdvanceInjective(wrong, next.header.n, chain, next.header.n);
        assert false;
      }
      hide Advance, Skip;
      WrongChainRejects(DhRatchet(skip.value, next.header.dh, drawn), next, wrong);
    }
  }

  lemma NextSlotNotStored(w: World, to: Party)
    requires Inv(w) && At(w, to).epoch >= 2
    ensures var p := At(w, to);
            p.epoch < |w.eps| && Slot(w.eps[p.epoch - 1].key, p.st.nr) !in p.st.skipped
  {
    hide LogOk, GotOk, Balanced, EpochsOk, PeerOk;
    Take(w, to);
    hide Inv;
    var p := At(w, to);
    assert Receives(p, p.epoch - 1) && StoredAt(w.eps, p, p.epoch - 1, p.st.nr);
  }

  lemma ChainSteppedTwice(eps: seq<Epoch>, p: Peer, copy: Frame, next: Frame, drawn: KeyId, drawn2: KeyId)
    requires PeerOk(eps, p) && p.epoch >= 2 && eps[p.epoch - 1].chain.ChainKey?
    requires FrameSlot(copy) !in p.st.skipped && copy.header.dh == eps[p.epoch - 1].key && copy.header.n < p.st.nr
    requires FrameSlot(next) == Slot(eps[p.epoch - 1].key, p.st.nr) && FrameSlot(next) !in p.st.skipped
    requires Encodable(copy.header)
    requires next.ct.key == MessageKey(Advance(eps[p.epoch - 1].chain, p.st.nr))
    ensures WellFormed(p.st)
    ensures var st1 := Decrypt(p.st, copy, drawn).0;
            WellFormed(st1) && Decrypt(st1, next, drawn2).1.Err?
  {
    var c := eps[p.epoch - 1].chain;
    assert p.st.ckr == Some(Advance(c, p.st.nr)) && p.st.dhr == Some(copy.header.dh);
    assert NextKey(Advance(c, p.st.nr)) == Advance(c, p.st.nr + 1);
    hide PeerOk, Advance, StoredKeys;
  }

  /** One repeated frame destroys the next one: the chain is stepped for the copy, and the
      frame whose key that was can never be read. */
  lemma BareRatchetLosesNextFrame()
    ensures var alice, bob := InitAlice(SharedSecret(DhOf(7, 0)), 1, 0), InitBob(SharedSecret(DhOf(7, 0)), 0);
            var f0 := Encrypt(alice, "a", AesGcm, 0);
            && f0.1.Ok?
            && var f1 := Encrypt(f0.0, "b", AesGcm, 0);
               && f1.1.Ok?
               && var b1 := Decrypt(bob, f0.1.value, 2);
                  var b2 := Decrypt(b1.0, f0.1.value, 3);
                  var b3 := Decrypt(b2.0, f1.1.value, 4);
                  && b1.1 == Ok("a")
                  && Decrypt(b1.0, f1.1.value, 4).1 == Ok("b")
                  && b2.1 == Err(AuthenticationFailed)
                  && b3.1 == Err(AuthenticationFailed)
  {}

  // ---- altered frames --------------------------------------------------------------

  /** The frame was altered on the way by someone who does not hold its message key: another
      nonce, header field or ciphertext, under the same ratchet key and number. */
  predicate Altered(f: Frame, x: Frame) {
    FrameSlot(f) == FrameSlot(x) && f != x && (f.ct == x.ct || f.ct.key != x.ct.key)
  }

  /** An altered frame takes the session where the genuine one would, but for keys of the old
      chain, or is refused before anything changes. */
  lemma AlteredCall(r: State, f: Frame, x: Frame, drawn: KeyId)
    requires WellFormed(r) && Altered(f, x) && Decrypt(r, x, drawn).1.Ok?
    ensures var (st, st1, sl) := (Decrypt(r, f, drawn).0, Decrypt(r, x, drawn).0, FrameSlot(x));
            && Decrypt(r, f, drawn).1.Err?
            && (if RefusedUntouched(r, f) then st == r
                else
                  && Decrypt(r, f, drawn).1 == Err(AuthenticationFailed)
                  && st == st1.(skipped := st.skipped) && sl !in st.skipped)
  {
    hide Advance, StoredKeys;
    var (sl, ck) := (FrameSlot(x), r.ckr);
    if sl !in r.skipped && Encodable(f.header) && r.dhr == Some(sl.dh) && r.ckr.Some? && r.nr < sl.n {
      StoredKeysAt(sl.dh, r.ckr.value, r.nr, sl.n, sl);
    }
    if sl !in r.skipped && Encodable(f.header) && r.dhr != Some(sl.dh) && f.header.pn <= r.nr + MAX_SKIP {
      TurnedStore(r, f, drawn);
    }
  }

  /** The header's counters do not fit four bytes, or it counts a gap on the old chain beyond
      the skip limit. */
  predicate RefusedUntouched(r: State, f: Frame) {
    || !Encodable(f.header)
    || (FrameSlot(f) !in r.skipped && r.dhr != Some(f.header.dh) && r.nr + MAX_SKIP < f.header.pn)
  }

  /** Turning the ratchet for a frame stores no key for its own position. */
  lemma TurnedStore(r: State, f: Frame, drawn: KeyId)
    requires WellFormed(r) && FrameSlot(f) !in r.skipped && r.dhr != Some(f.header.dh)
    requires f.header.pn <= r.nr + MAX_SKIP
    ensures var st := DhRatchet(Skip(r, f.header.pn).value, f.header.dh, drawn);
            && FrameSlot(f) !in st.skipped
            && (Skip(st, f.header.n).Some? ==> FrameSlot(f) !in Skip(st, f.header.n).value.skipped)
  {
    hide Advance, StoredKeys;
    var sl := FrameSlot(f);
    if r.ckr.Some? && r.nr < f.header.pn {
      StoredKeysAt(r.dhr.value, r.ckr.value, r.nr, f.header.pn, sl);
    }
    var st := DhRatchet(Skip(r, f.header.pn).value, f.header.dh, drawn);
    if 0 < sl.n {
      StoredKeysAt(sl.dh, st.ckr.value, 0, sl.n, sl);
    }
  }

  /** What a failed authentication leaves behind, exactly.  Frame i could be read, and an
      altered copy of it arrives first.  The copy never yields a text, and unless it is refused
      for its counters the genuine frame is lost for good: its key was popped from the store or
      its chain stepped past it before the seal was looked at. */
  lemma AlteredFrameCostsGenuine(w: World, to: Party, i: nat, f: Frame, drawn: KeyId, drawn2: KeyId)
    requires Inv(w) && Enabled(w, Deliver(to, i, drawn))
    requires Shaped(w) && Outcome(w, Deliver(to, i, drawn)).Ok? && Altered(f, At(w, Other(to)).log[i].frame)
    requires drawn2 !in w.used
    ensures var (st, x) := (At(w, to).st, At(w, Other(to)).log[i].frame);
            var st1 := Decrypt(st, f, drawn).0;
            && Decrypt(st, f, drawn).1.Err?
            && (RefusedUntouched(st, f) ==> st1 == st)
            && (!RefusedUntouched(st, f) ==> Decrypt(st, f, drawn).1 == Err(AuthenticationFailed))
            && WellFormed(st1)
            && (Decrypt(st1, x, drawn2).1.Ok? <==> RefusedUntouched(st, f))
  {
    hide Inv, Decrypt, RefusedUntouched, Altered, GapTooWide, Step, FrameSlot;
    var a := Deliver(to, i, drawn);
    var (st, x) := (At(w, to).st, At(w, Other(to)).log[i].frame);
    AlteredCall(st, f, x, drawn);
    if RefusedUntouched(st, f) {
      RefusedOnGap(w, to, i, drawn);
      RefusedOnGap(w, to, i, drawn2);
    } else {
      StepInv(w, a);
      AfterDelivery(w, to, i, drawn);
      SlotOfFrame(At(w, Other(to)).log[i]);
      BehindOpensByStoreOnly(Step(w, a), to, i, Decrypt(st, f, drawn).0, drawn2);
    }
  }

  lemma SlotOfFrame(x: Sent)
    ensures SlotOf(x) == FrameSlot(x.frame)
  {}

  lemma AfterDelivery(w: World, to: Party, i: nat, drawn: KeyId)
    requires Shaped(w) && Enabled(w, Deliver(to, i, drawn)) && Outcome(w, Deliver(to, i, drawn)).Ok?
    ensures var w1 := Step(w, Deliver(to, i, drawn));
            && At(w1, Other(to)) == At(w, Other(to)) && i in At(w1, to).got
            && At(w1, to).st == Decrypt(At(w, to).st, At(w, Other(to)).log[i].frame, drawn).0
  {
    hide Decrypt;
  }
}
