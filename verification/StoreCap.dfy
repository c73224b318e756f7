/**
 What the cap on the client's store can cost: however full the store, a chain keeps the keys of
 its skipped frames as long as the receiver has moved along it by no more than the cap.
 */
module StoreCap {
  import opened Wrappers
  import opened Crypto
  import opened Ratchet
  import opened Protocol
  import opened Replays
  import opened CryptoBox
  import opened Dedup

  // ---- one shedding ----------------------------------------------------------------------

  lemma {:induction false} FewBelow(slots: set<Slot>, dh: KeyId, bound: nat)
    requires forall sl <- slots :: sl.dh == dh && sl.n < bound
    ensures |slots| <= bound
    decreases bound
  {
    if bound == 0 {
      assert slots == {};
    } else {
      var last := Slot(dh, bound - 1);
      FewBelow(slots - {last}, dh, bound - 1);
    }
  }

  /** The cap sheds none of the current generation while that has no more positions than fit. */
  lemma CapSparesNewest(m: map<Slot, Key>, current: KeyId, shed: set<Slot>, bound: nat)
    requires CapSheds(m, current, shed) && bound <= MAX_SKIPPED_TOTAL
    requires forall sl :: sl in m && sl.dh == current ==> sl.n < bound
    ensures forall sl <- shed :: sl.dh != current
  {
    if sl :| sl in shed && sl.dh == current {
      var rest := m.Keys - shed;
      assert |m.Keys| == |m| && |rest| == |m| - |shed|;
      FewBelow(rest + {sl}, current, bound);
      assert false;
    }
  }

  /** The keys of the receiving chain are of positions passed. */
  predicate NewestBehind(s: State) {
    forall sl :: sl in s.skipped && Some(sl.dh) == s.dhr ==> sl.n < s.nr
  }

  lemma BankedSparesNewest(c: State, until: nat, shed: set<Slot>, sl: Slot)
    requires WellFormed(c) && SkipSheds(c, until, shed) && NewestBehind(c) && Skip(c, until).Some?
    requires until <= MAX_SKIPPED_TOTAL && c.nr <= MAX_SKIPPED_TOTAL
    ensures Banked(c, until, shed).Some?
    ensures sl in Skip(c, until).value.skipped && Some(sl.dh) == c.dhr ==> sl in Banked(c, until, shed).value.skipped
  {
    hide StoredKeys, Advance, CapSheds;
    if c.ckr.Some? {
      var m := Skip(c, until).value.skipped;
      forall x | x in m && x.dh == c.dhr.value ensures x.n < MAX_SKIPPED_TOTAL {
        if c.nr < until { StoredKeysAt(c.dhr.value, c.ckr.value, c.nr, until, x); }
      }
      CapSparesNewest(m, c.dhr.value, shed, MAX_SKIPPED_TOTAL);
    }
  }

  // ---- one call ----------------------------------------------------------------------------

  /** The frame's own place: the session that takes its key next. */
  lemma TakenAtPlace(c: State, f: Frame, drawn: KeyId, sh: Sheds)
    requires WellFormed(c) && FrameSlot(f) !in c.skipped && TryDecrypt(c, f, drawn, sh).1.Some?
    ensures AtItsPlace(c, f.header, drawn, sh).Some?
    ensures var (w, t) := (AtItsPlace(c, f.header, drawn, sh).value, TryDecrypt(c, f, drawn, sh).0);
            t.skipped == w.skipped && t.nr == w.nr + 1 && t.dhr == w.dhr
  {
    hide AtItsPlace, Opened;
  }

  lemma OnChainSpares(c: State, s: State, f: Frame, drawn: KeyId, sh: Sheds, sl: Slot)
    requires WellFormed(s) && Tracks(c, s) && s.dhr == Some(f.header.dh) && FrameSlot(f) !in s.skipped
    requires WellFormed(c) && ShedsOk(c, f, drawn, sh) && TryDecrypt(c, f, drawn, sh).1.Some?
    requires Encodable(f.header) && Decrypt(s, f, drawn).1.Ok? && NewestBehind(s)
    requires Decrypt(s, f, drawn).0.nr <= MAX_SKIPPED_TOTAL
    requires sl in Decrypt(s, f, drawn).0.skipped && Some(sl.dh) == s.dhr && (sl in s.skipped ==> sl in c.skipped)
    ensures sl in TryDecrypt(c, f, drawn, sh).0.skipped
  {
    TakenAtPlace(c, f, drawn, sh);
    DecryptAt(s, f, drawn);
    hide TryDecrypt, Decrypt, Opened, SkipSheds;
    var n := f.header.n;
    SkippedWhere(s, n, sl);
    SkippedWhere(c, n, sl);
    BankedSparesNewest(c, n, sh.here, sl);
  }

  /** Where the keys of the receiving chain come from in a skip. */
  lemma SkippedWhere(s: State, until: nat, sl: Slot)
    requires WellFormed(s) && Skip(s, until).Some?
    ensures var t := Skip(s, until).value;
            && (sl in t.skipped <==> sl in s.skipped || (s.ckr.Some? && Some(sl.dh) == s.dhr && s.nr <= sl.n < until))
            && s.nr <= t.nr && until <= (if s.ckr.Some? then t.nr else until) && t.dhr == s.dhr && (s.ckr.Some? <==> t.ckr.Some?)
            && t.nr == if s.ckr.Some? && s.nr < until then until else s.nr
  {
    if s.ckr.Some? && s.nr < until {
      StoredKeysAt(s.dhr.value, s.ckr.value, s.nr, until, sl);
    }
    hide StoredKeys, Advance;
  }

  predicate NoneOf(m: map<Slot, Key>, dh: KeyId) {
    forall sl :: sl in m ==> sl.dh != dh
  }

  lemma TurnLeavesNone(c: State, h: Header, drawn: KeyId, sh: Sheds)
    requires WellFormed(c) && c.dhr != Some(h.dh) && NoneOf(c.skipped, h.dh) && OnItsChain(c, h, drawn, sh).Some?
    ensures var t := OnItsChain(c, h, drawn, sh).value;
            && WellFormed(t) && t.nr == 0 && t.dhr == Some(h.dh) && t.ckr.Some? && NoneOf(t.skipped, h.dh)
  {
    hide StoredKeys, Advance;
    var t := Banked(c, h.pn, sh.tail).value;
    forall sl | sl in t.skipped ensures sl.dh != h.dh {
      BankedOnly(c, h.pn, sh.tail, sl);
    }
  }

  lemma TurnedReference(s: State, f: Frame, drawn: KeyId, sl: Slot)
    requires WellFormed(s) && s.dhr != Some(f.header.dh) && NoneOf(s.skipped, f.header.dh)
    requires FrameSlot(f) !in s.skipped && Encodable(f.header) && Decrypt(s, f, drawn).1.Ok?
    ensures var s1 := Decrypt(s, f, drawn).0;
            && s1.dhr == Some(f.header.dh) && s1.nr == f.header.n + 1
            && (sl in s1.skipped && sl.dh == f.header.dh ==> sl.n < f.header.n)
  {
    hide Opened, StoredKeys, Advance;
    DecryptAt(s, f, drawn);
    var t := Skip(s, f.header.pn).value;
    SkippedWhere(s, f.header.pn, sl);
    SkippedWhere(DhRatchet(t, f.header.dh, drawn), f.header.n, sl);
    hide Decrypt, Skip;
  }

  lemma TurnSpares(c: State, s: State, f: Frame, drawn: KeyId, sh: Sheds, sl: Slot)
    requires WellFormed(s) && Tracks(c, s) && s.dhr != Some(f.header.dh) && FrameSlot(f) !in s.skipped
    requires WellFormed(c) && ShedsOk(c, f, drawn, sh) && TryDecrypt(c, f, drawn, sh).1.Some?
    requires Encodable(f.header) && Decrypt(s, f, drawn).1.Ok? && NoneOf(s.skipped, f.header.dh)
    requires Decrypt(s, f, drawn).0.nr <= MAX_SKIPPED_TOTAL
    requires sl in Decrypt(s, f, drawn).0.skipped && sl.dh == f.header.dh
    ensures sl in TryDecrypt(c, f, drawn, sh).0.skipped
  {
    TakenAtPlace(c, f, drawn, sh);
    TurnedReference(s, f, drawn, sl);
    hide TryDecrypt, Decrypt, Opened, SkipSheds;
    TurnLeavesNone(c, f.header, drawn, sh);
    var t := OnItsChain(c, f.header, drawn, sh).value;
    assert SkipSheds(t, f.header.n, sh.here) && Banked(t, f.header.n, sh.here).Some?;
    assert Skip(t, f.header.n).Some?;
    SkippedWhere(t, f.header.n, sl);
    BankedSparesNewest(t, f.header.n, sh.here, sl);
  }

  /** A stored key that is used goes, and no other. */
  lemma PopSpares(c: State, s: State, f: Frame, drawn: KeyId, sh: Sheds, sl: Slot)
    requires WellFormed(s) && Tracks(c, s) && FrameSlot(f) in s.skipped && FrameSlot(f) in c.skipped && Encodable(f.header)
    requires WellFormed(c) && TryDecrypt(c, f, drawn, sh).1.Some?
    requires sl in Decrypt(s, f, drawn).0.skipped && (sl in s.skipped ==> sl in c.skipped)
    ensures sl in TryDecrypt(c, f, drawn, sh).0.skipped
    ensures Decrypt(s, f, drawn).0.dhr == s.dhr && Decrypt(s, f, drawn).0.nr == s.nr
  {}

  // ---- over runs ------------------------------------------------------------------------------

  /** The client stores every key of the receiving chain that the reference stores, as long as no
      more positions of it were passed than the cap holds. */
  ghost predicate NewestKept(c: State, p: Peer) {
    p.st.nr <= MAX_SKIPPED_TOTAL ==> forall sl :: sl in p.st.skipped && Some(sl.dh) == p.st.dhr ==> sl in c.skipped
  }

  lemma PeerBehind(w: World, to: Party)
    requires Inv(w)
    ensures NewestBehind(At(w, to).st)
  {
    hide LogOk, GotOk, Balanced, EpochsOk;
    Take(w, to);
    hide Inv;
    var p := At(w, to);
    forall sl | sl in p.st.skipped && Some(sl.dh) == p.st.dhr ensures sl.n < p.st.nr {
      assert Receives(p, p.epoch - 1) && StoredAt(w.eps, p, p.epoch - 1, sl.n);
      assert sl == Slot(w.eps[p.epoch - 1].key, sl.n);
    }
  }

  /** No key is stored yet under the ratchet key of a frame of the next chain. */
  lemma NextChainEmpty(w: World, to: Party, i: nat)
    requires Inv(w) && i < |At(w, Other(to)).log| && !Behind(w, to, i)
    requires At(w, to).st.dhr != Some(At(w, Other(to)).log[i].frame.header.dh)
    ensures NoneOf(At(w, to).st.skipped, At(w, Other(to)).log[i].frame.header.dh)
  {
    var (p, dh) := (At(w, to), At(w, Other(to)).log[i].frame.header.dh);
    hide Inv, Behind;
    forall sl | sl in p.st.skipped ensures sl.dh != dh {
      if sl.dh == dh { SameGeneration(w, to, i, sl); }
    }
  }

  lemma TakenNewest(w: World, to: Party, i: nat, drawn: KeyId, c: State, sh: Sheds)
    requires Inv(w) && i < |At(w, Other(to)).log| && drawn !in w.used && InStep(w.eps, c, At(w, to))
    requires WellFormed(c) && ShedsOk(c, At(w, Other(to)).log[i].frame, drawn, sh) && NewestKept(c, At(w, to))
    requires TryDecrypt(c, At(w, Other(to)).log[i].frame, drawn, sh).1.Some?
    ensures Shaped(w) && Enabled(w, Deliver(to, i, drawn))
    ensures NewestKept(TryDecrypt(c, At(w, Other(to)).log[i].frame, drawn, sh).0, At(DeliverStep(w, to, i, drawn), to))
  {
    hide Inv, Decrypt, TryDecrypt, DeliverStep, Within, ShedsOk, Tracks, Recent, InStep, NoneOf, NewestBehind, GapTooWide;
    var (p, x) := (At(w, to), At(w, Other(to)).log[i]);
    StepTracks(w.eps, c, p);
    TakesExactly(w, to, i, drawn, c, sh);
    DeliverParts(w, to, i, drawn);
    FrameInLog(w, Other(to), i);
    PeerBehind(w, to);
    TracksFields(c, p.st);
    Fresh(w, to, drawn);
    TurnedTo(p.st, x.frame, drawn);
    var (s1, c1) := (Decrypt(p.st, x.frame, drawn).0, TryDecrypt(c, x.frame, drawn, sh).0);
    if s1.nr <= MAX_SKIPPED_TOTAL {
      forall sl | sl in s1.skipped && Some(sl.dh) == s1.dhr ensures sl in c1.skipped {
        NewestStays(w, to, i, drawn, c, sh, sl);
      }
    }
  }

  lemma NewestStays(w: World, to: Party, i: nat, drawn: KeyId, c: State, sh: Sheds, sl: Slot)
    requires Inv(w) && i < |At(w, Other(to)).log| && drawn !in w.used && Tracks(c, At(w, to).st) && WellFormed(At(w, to).st)
    requires WellFormed(c) && ShedsOk(c, At(w, Other(to)).log[i].frame, drawn, sh) && NewestKept(c, At(w, to))
    requires NewestBehind(At(w, to).st) && Encodable(At(w, Other(to)).log[i].frame.header)
    requires var (p, x) := (At(w, to), At(w, Other(to)).log[i]);
             var s1 := Decrypt(p.st, x.frame, drawn).0;
             && TryDecrypt(c, x.frame, drawn, sh).1.Some? && Decrypt(p.st, x.frame, drawn).1.Ok?
             && (SlotOf(x) in c.skipped || !Behind(w, to, i))
             && s1.nr <= MAX_SKIPPED_TOTAL && sl in s1.skipped && Some(sl.dh) == s1.dhr
    ensures sl in TryDecrypt(c, At(w, Other(to)).log[i].frame, drawn, sh).0.skipped
  {
    var (p, x) := (At(w, to), At(w, Other(to)).log[i]);
    SlotOfFrame(x);
    assert SlotOf(x) !in c.skipped ==> SlotOf(x) !in p.st.skipped;
    hide Inv, Decrypt, TryDecrypt, Within, ShedsOk, NoneOf, NewestBehind, Behind;
    var s := p.st;
    if SlotOf(x) in c.skipped {
      PopSpares(c, s, x.frame, drawn, sh, sl) by { PoppedWas(s, x.frame, drawn, sl); }
      PoppedWas(s, x.frame, drawn, sl);
    } else if s.dhr == Some(x.frame.header.dh) {
      OnChainGrows(s, x.frame, drawn);
      OnChainSpares(c, s, x.frame, drawn, sh, sl);
    } else {
      NextChainEmpty(w, to, i);
      TurnedReference(s, x.frame, drawn, sl);
      TurnSpares(c, s, x.frame, drawn, sh, sl);
    }
  }

  lemma PoppedWas(s: State, f: Frame, drawn: KeyId, sl: Slot)
    requires WellFormed(s) && FrameSlot(f) in s.skipped && Encodable(f.header)
    ensures var s1 := Decrypt(s, f, drawn).0;
            (sl in s1.skipped ==> sl in s.skipped) && s1.nr == s.nr && s1.dhr == s.dhr
  {}

  lemma OnChainGrows(s: State, f: Frame, drawn: KeyId)
    requires WellFormed(s) && FrameSlot(f) !in s.skipped && s.dhr == Some(f.header.dh) && Encodable(f.header)
    ensures var s1 := Decrypt(s, f, drawn).0; s.nr <= s1.nr && s1.dhr == s.dhr
  {
    hide StoredKeys, Advance;
  }

  lemma StepNewest(g: GuardedWorld, e: Dedup.Event, who: Party)
    requires GuardedInv(g) && MayHappen(g, e) && NewestKept(GuardOf(g, who).st, At(g.w, who))
    ensures var g1 := GuardedStep(g, e); NewestKept(GuardOf(g1, who).st, At(g1.w, who))
  {
    hide GuardedInv, Inv, Encrypt, SendStep, DeliverStep, TryDecrypt, NewestKept, Recorded, InStep, ShedsOk, OfferOf;
    InvOf(g, who);
    var g1, c, p := GuardedStep(g, e), GuardOf(g, who).st, At(g.w, who);
    if IsOffer(e) {
      OfferNewest(g, e, who);
    } else if e.Net? {
      var a := e.act;
      SendParts(g.w, a.who, a.plain, a.cipher, a.nonce);
      SentKeeps(p.st, a.plain, a.cipher, a.nonce);
      SentKeeps(c, a.plain, a.cipher, a.nonce);
      NewestSame(c, p, GuardOf(g1, who).st, At(g1.w, who));
    } else {
      NewestSame(c, p, GuardOf(g1, who).st, At(g1.w, who));
    }
  }

  lemma SentKeeps(s: State, pt: Plaintext, cipher: Cipher, nonce: Nonce)
    ensures var s1 := Encrypt(s, pt, cipher, nonce).0; s1.skipped == s.skipped && s1.dhr == s.dhr && s1.nr == s.nr
  {}

  lemma NewestSame(c: State, p: Peer, c1: State, p1: Peer)
    requires NewestKept(c, p) && c1.skipped == c.skipped
    requires p1.st.skipped == p.st.skipped && p1.st.dhr == p.st.dhr && p1.st.nr == p.st.nr
    ensures NewestKept(c1, p1)
  {}

  lemma OfferNewest(g: GuardedWorld, e: Dedup.Event, who: Party)
    requires GuardedInv(g) && MayHappen(g, e) && IsOffer(e) && NewestKept(GuardOf(g, who).st, At(g.w, who))
    ensures var g1 := GuardedStep(g, e); NewestKept(GuardOf(g1, who).st, At(g1.w, who))
  {
    hide GuardedInv, Inv, DeliverStep, TryDecrypt, NewestKept, Recorded, InStep, ShedsOk, GuardedStep, OfferOf, Suppressed;
    var (to, i, drawn, g1) := (e.act.to, e.act.i, e.act.drawn, GuardedStep(g, e));
    OfferInv(g, e);
    if OfferOf(g, e).took {
      InvOf(g, to);
      StepTracks(g.w.eps, GuardOf(g, to).st, At(g.w, to));
      TakesExactly(g.w, to, i, drawn, GuardOf(g, to).st, e.sh);
      OfferParts(g, e);
      if who == to {
        TakenNewest(g.w, to, i, drawn, GuardOf(g, to).st, e.sh);
      } else {
        DeliverParts(g.w, to, i, drawn);
        NewestSame(GuardOf(g, who).st, At(g.w, who), GuardOf(g1, who).st, At(g1.w, who));
      }
    }
  }

  lemma {:induction false} RunNewest(gs: seq<GuardedWorld>, es: seq<Dedup.Event>, k: nat, who: Party)
    requires GuardedRun(gs, es) && |gs| == |es| + 1 && k <= |es|
    ensures NewestKept(GuardOf(gs[k], who).st, At(gs[k].w, who))
  {
    hide GuardedRun, GuardedInv, GuardedStep, NewestKept;
    if k == 0 {
      NewestAtStart(gs, es, who);
    } else {
      RunNewest(gs, es, k - 1, who);
      GuardedRunInv(gs, es, k - 1);
      GuardedAt(gs, es, k - 1);
      StepNewest(gs[k - 1], es[k - 1], who);
    }
  }

  lemma NewestAtStart(gs: seq<GuardedWorld>, es: seq<Dedup.Event>, who: Party)
    requires GuardedRun(gs, es)
    ensures NewestKept(GuardOf(gs[0], who).st, At(gs[0].w, who))
  {}

  /** Whatever the cap sheds, over every run: while the receiver has moved along its chain by at
      most the cap, a frame of that chain is taken if and only if it was not read and its gap is
      within the limit.  So the cap costs frames of the chain in use only beyond that. */
  lemma CapSparesChainInUse(gs: seq<GuardedWorld>, es: seq<Dedup.Event>, k: nat)
    requires GuardedRun(gs, es) && |gs| == |es| + 1 && k < |es| && IsOffer(es[k])
    requires MayHappen(gs[k], es[k])
    requires var (p, x) := (At(gs[k].w, es[k].act.to), At(gs[k].w, Other(es[k].act.to)).log[es[k].act.i]);
             p.st.dhr == Some(x.frame.header.dh) && p.st.nr <= MAX_SKIPPED_TOTAL
    ensures var (to, i) := (es[k].act.to, es[k].act.i);
            var (p, x, u) := (At(gs[k].w, to), At(gs[k].w, Other(to)).log[i], GuardOf(gs[k], to));
            OfferOf(gs[k], es[k]).took <==> i !in p.got && !GapTooWide(u.st, x.frame.header)
  {
    hide GuardedRun, GuardedInv, Inv, TryDecrypt, InStep, Recorded, OfferOf, ShedsOk, GapTooWide, Suppressed, NewestKept;
    GuardedRunInv(gs, es, k);
    var (g, to, i) := (gs[k], es[k].act.to, es[k].act.i);
    var (p, x, u) := (At(g.w, to), At(g.w, Other(to)).log[i], GuardOf(g, to));
    InvOf(g, to);
    StepTracks(g.w.eps, u.st, p);
    TakesExactly(g.w, to, i, es[k].act.drawn, u.st, es[k].sh);
    OfferParts(g, es[k]);
    if i in p.got {
      ReadFrame(g.w, to, i);
      TracksFields(u.st, p.st);
    } else {
      RunNewest(gs, es, k, to);
      NewestAt(u.st, p, SlotOf(x));
      StoredIsNoGap(u.st, x.frame.header);
      NewFramePasses(gs, es, k);
    }
  }

  lemma NewestAt(c: State, p: Peer, sl: Slot)
    requires NewestKept(c, p) && p.st.nr <= MAX_SKIPPED_TOTAL
    ensures sl in p.st.skipped && Some(sl.dh) == p.st.dhr ==> sl in c.skipped
  {}
}
