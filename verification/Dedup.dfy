/**
 The client's receive path for one peer (client/src/chatclient.cpp): the duplicate guard
 in front of the client's ratchet session.

 The relay replays stored frames, so a frame may be offered any number of times.  The
 client remembers which (ratchet key, index) pairs it has decrypted and drops those
 before they reach the session; text frames and file-key frames share the record.
 */
module Dedup {
  import opened Wrappers
  import opened Crypto
  import opened Ratchet
  import opened Protocol
  import opened Replays
  import opened CryptoBox

  // ---- the guard --------------------------------------------------------------------

  /** `took`: the session moved. */
  datatype Guarded = Guarded(st: State, seen: set<Slot>, shown: Option<Plaintext>, took: bool)

  /** One offered frame.  decryptFrom reports failure as an empty text, so a frame that
      decrypts to the empty text is not recorded either. */
  function Offer(st: State, seen: set<Slot>, f: Frame, drawn: KeyId, sh: Sheds): Guarded
    requires WellFormed(st)
  {
    if FrameSlot(f) in seen then Guarded(st, seen, None, false)
    else match TryDecrypt(st, f, drawn, sh)
      case (st1, None) => Guarded(st1, seen, None, false)
      case (st1, Some(pt)) =>
        if pt == "" then Guarded(st1, seen, None, true) else Guarded(st1, seen + {FrameSlot(f)}, Some(pt), true)
  }

  /** The receive path for one peer: the `msg` and `file_init` branches of
      handleServerFrame. */
  class Receiver {
    const box: Box
    var seen: set<Slot>
    var texts: seq<Plaintext>      // bubbles shown
    var fileKeys: seq<Plaintext>   // file keys recovered

    constructor (box: Box)
      ensures this.box == box && seen == {} && texts == [] && fileKeys == []
    {
      this.box := box;
      seen, texts, fileKeys := {}, [], [];
    }

    method OnMsg(f: Frame, drawn: KeyId) returns (ghost sh: Sheds)
      requires WellFormed(box.session)
      modifies this, box
      ensures FrameSlot(f) !in old(seen) ==> ShedsOk(old(box.session), f, drawn, sh)
      ensures var g := Offer(old(box.session), old(seen), f, drawn, sh);
              && box.session == g.st && seen == g.seen && fileKeys == old(fileKeys)
              && texts == old(texts) + (if g.shown.Some? then [g.shown.value] else [])
    {
      hide TryDecrypt, ShedsOk;
      sh := Sheds({}, {}, {});
      if FrameSlot(f) in seen {
        return;
      }
      var plaintext;
      plaintext, sh := box.DecryptFrom(f, drawn);
      if plaintext.Some? && plaintext.value != "" {
        seen := seen + {FrameSlot(f)};
        texts := texts + [plaintext.value];
      }
    }

    method OnFileInit(keyenc: Frame, drawn: KeyId) returns (ghost sh: Sheds)
      requires WellFormed(box.session)
      modifies this, box
      ensures FrameSlot(keyenc) !in old(seen) ==> ShedsOk(old(box.session), keyenc, drawn, sh)
      ensures var g := Offer(old(box.session), old(seen), keyenc, drawn, sh);
              && box.session == g.st && seen == g.seen && texts == old(texts)
              && fileKeys == old(fileKeys) + (if g.shown.Some? then [g.shown.value] else [])
    {
      hide TryDecrypt, ShedsOk;
      sh := Sheds({}, {}, {});
      if FrameSlot(keyenc) in seen {
        return;
      }
      var fileKeyHex;
      fileKeyHex, sh := box.DecryptFrom(keyenc, drawn);
      if fileKeyHex.None? || fileKeyHex.value == "" {
        return;
      }
      seen := seen + {FrameSlot(keyenc)};
      fileKeys := fileKeys + [fileKeyHex.value];
    }

    /** A new login: the record is gone, while the ratchet session comes back from disk. */
    method Restart()
      modifies this`seen
      ensures seen == {}
    {
      seen := {};
    }
  }

  // ---- two clients over a network that duplicates -------------------------------------

  /** Per party: the client's session, the guard's record, what was shown so far, and how
      many frames had been read at the last login.  `w` is the history: the reference's
      sessions, moved by every send and by every delivery that the client's session took. */
  datatype GuardedWorld = GuardedWorld(w: World, a: Guard, b: Guard)

  datatype Guard = Guard(st: State, seen: set<Slot>, inbox: seq<Plaintext>, since: nat)

  function GuardOf(g: GuardedWorld, who: Party): Guard {
    if who == Alice then g.a else g.b
  }

  function WithGuard(g: GuardedWorld, who: Party, u: Guard): GuardedWorld {
    if who == Alice then g.(a := u) else g.(b := u)
  }

  /** A step of the network, in which any frame ever sent may be offered, or a login. */
  datatype Event = Net(act: Action, sh: Sheds) | Restart(who: Party)

  predicate IsOffer(e: Event) {
    e.Net? && e.act.Deliver?
  }

  predicate MayHappen(g: GuardedWorld, e: Event) {
    && Shaped(g.w) && WellFormed(g.a.st) && WellFormed(g.b.st)
    && (IsOffer(e) ==>
         && e.act.i < |At(g.w, Other(e.act.to)).log|
         && e.act.drawn !in g.w.used
         && ShedsOk(GuardOf(g, e.act.to).st, At(g.w, Other(e.act.to)).log[e.act.i].frame, e.act.drawn, e.sh))
  }

  function OfferOf(g: GuardedWorld, e: Event): Guarded
    requires MayHappen(g, e) && IsOffer(e)
  {
    var u := GuardOf(g, e.act.to);
    Offer(u.st, u.seen, At(g.w, Other(e.act.to)).log[e.act.i].frame, e.act.drawn, e.sh)
  }

  predicate Suppressed(g: GuardedWorld, e: Event)
    requires MayHappen(g, e) && IsOffer(e)
  {
    SlotOf(At(g.w, Other(e.act.to)).log[e.act.i]) in GuardOf(g, e.act.to).seen
  }

  function GuardedStep(g: GuardedWorld, e: Event): GuardedWorld
    requires MayHappen(g, e)
  {
    match e
    case Restart(who) => WithGuard(g, who, GuardOf(g, who).(seen := {}, since := |At(g.w, who).got|))
    case Net(Send(who, pt, cipher, nonce), _) =>
      var u := GuardOf(g, who);
      WithGuard(g.(w := SendStep(g.w, who, pt, cipher, nonce)), who, u.(st := Encrypt(u.st, pt, cipher, nonce).0))
    case Net(Deliver(to, i, drawn), sh) =>
      var (u, o) := (GuardOf(g, to), OfferOf(g, e));
      var more := if o.shown.Some? then [o.shown.value] else [];
      WithGuard(g.(w := if o.took then DeliverStep(g.w, to, i, drawn) else g.w), to,
                u.(st := o.st, seen := o.seen, inbox := u.inbox + more))
  }

  function Begin(idA: KeyId, idB: KeyId, drawn: KeyId): GuardedWorld {
    var w := Start(idA, idB, drawn);
    GuardedWorld(w, Guard(w.alice.st, {}, [], 0), Guard(w.bob.st, {}, [], 0))
  }

  ghost predicate GuardedRun(gs: seq<GuardedWorld>, es: seq<Event>) {
    && |gs| == |es| + 1
    && (exists idA, idB, drawn :: idA != idB && drawn != idA && drawn != idB && gs[0] == Begin(idA, idB, drawn))
    && forall k :: 0 <= k < |es| ==> MayHappen(gs[k], es[k]) && gs[k + 1] == GuardedStep(gs[k], es[k])
  }

  /** The network steps the clients took part in: all sends, and the offers that moved a
      session. */
  function Kept(gs: seq<GuardedWorld>, es: seq<Event>): seq<Action>
    requires |gs| == |es| + 1
    requires forall k :: 0 <= k < |es| ==> MayHappen(gs[k], es[k])
  {
    if es == [] then [] else
    var l := |es| - 1;
    Kept(gs[..l + 1], es[..l]) + KeptOf(gs[l], es[l])
  }

  function KeptOf(g: GuardedWorld, e: Event): seq<Action>
    requires MayHappen(g, e)
  {
    if e.Restart? || (IsOffer(e) && !OfferOf(g, e).took) then [] else [e.act]
  }

  // ---- what the guard records ----------------------------------------------------------

  /** The texts of the frames read, in reading order, the empty ones left out. */
  function Texts(got: seq<nat>, log: seq<Sent>): seq<Plaintext> {
    if got == [] then []
    else
      var (before, i) := (Texts(got[..|got| - 1], log), got[|got| - 1]);
      if i < |log| && log[i].plain != "" then before + [log[i].plain] else before
  }

  /** The slots of those frames. */
  function Slots(got: seq<nat>, log: seq<Sent>): set<Slot> {
    if got == [] then {}
    else
      var (before, i) := (Slots(got[..|got| - 1], log), got[|got| - 1]);
      if i < |log| && log[i].plain != "" then before + {SlotOf(log[i])} else before
  }

  lemma ReadMore(got: seq<nat>, i: nat, log: seq<Sent>)
    requires i < |log|
    ensures Texts(got + [i], log) == Texts(got, log) + (if log[i].plain != "" then [log[i].plain] else [])
    ensures Slots(got + [i], log) == Slots(got, log) + (if log[i].plain != "" then {SlotOf(log[i])} else {})
  {
    assert (got + [i])[..|got|] == got;
  }

  lemma {:induction false} SentMore(got: seq<nat>, log: seq<Sent>, log1: seq<Sent>)
    requires log <= log1 && forall k :: 0 <= k < |got| ==> got[k] < |log|
    ensures Texts(got, log1) == Texts(got, log) && Slots(got, log1) == Slots(got, log)
    decreases |got|
  {
    if got != [] { SentMore(got[..|got| - 1], log, log1); }
  }

  lemma {:induction false} SlotRecorded(got: seq<nat>, log: seq<Sent>, i: nat)
    requires i < |log| && forall k :: 0 <= k < |got| ==> got[k] < |log|
    requires forall a, b :: 0 <= a < b < |log| ==> SlotOf(log[a]) != SlotOf(log[b])
    ensures SlotOf(log[i]) in Slots(got, log) <==> i in got && log[i].plain != ""
    decreases |got|
  {
    if got != [] {
      var n := |got| - 1;
      SlotRecorded(got[..n], log, i);
      assert got == got[..n] + [got[n]];
      assert SlotOf(log[got[n]]) == SlotOf(log[i]) ==> got[n] == i;
    }
  }

  /** The record holds the frames read since the last login, those with an empty text left
      out; what was shown is the texts of all frames read. */
  ghost predicate Recorded(u: Guard, p: Peer, s: Peer) {
    && u.since <= |p.got|
    && (forall k :: 0 <= k < |p.got| ==> p.got[k] < |s.log|)
    && u.seen == Slots(p.got[u.since..], s.log)
    && u.inbox == Texts(p.got, s.log)
  }

  /** The key belongs to the generation the party receives on or to the one before. */
  predicate Recent(eps: seq<Epoch>, p: Peer, sl: Slot) {
    || (1 <= p.epoch <= |eps| && sl.dh == eps[p.epoch - 1].key)
    || (3 <= p.epoch <= |eps| + 2 && sl.dh == eps[p.epoch - 3].key)
  }

  /** The client's session is the reference's, but for keys it no longer stores; what it
      stores is recent and bounded. */
  ghost predicate InStep(eps: seq<Epoch>, c: State, p: Peer) {
    && Tracks(c, p.st) && Within(c)
    && forall sl :: sl in c.skipped ==> Recent(eps, p, sl)
  }

  ghost predicate GuardedInv(g: GuardedWorld) {
    && Inv(g.w)
    && InStep(g.w.eps, g.a.st, g.w.alice) && Recorded(g.a, g.w.alice, g.w.bob)
    && InStep(g.w.eps, g.b.st, g.w.bob) && Recorded(g.b, g.w.bob, g.w.alice)
  }

  lemma InvOf(g: GuardedWorld, who: Party)
    requires GuardedInv(g)
    ensures Inv(g.w) && Shaped(g.w)
    ensures InStep(g.w.eps, GuardOf(g, who).st, At(g.w, who))
    ensures Recorded(GuardOf(g, who), At(g.w, who), At(g.w, Other(who)))
    ensures InStep(g.w.eps, GuardOf(g, Other(who)).st, At(g.w, Other(who)))
    ensures Recorded(GuardOf(g, Other(who)), At(g.w, Other(who)), At(g.w, who))
  {
    hide Inv, Recorded, InStep;
    InvShaped(g.w);
  }

  lemma OfInv(g: GuardedWorld, who: Party)
    requires Inv(g.w)
    requires InStep(g.w.eps, GuardOf(g, who).st, At(g.w, who))
    requires Recorded(GuardOf(g, who), At(g.w, who), At(g.w, Other(who)))
    requires InStep(g.w.eps, GuardOf(g, Other(who)).st, At(g.w, Other(who)))
    requires Recorded(GuardOf(g, Other(who)), At(g.w, Other(who)), At(g.w, who))
    ensures GuardedInv(g)
  {
    hide Inv, Recorded, InStep;
  }

  lemma PartyGot(w: World, who: Party)
    requires Inv(w)
    ensures GotOk(At(w, Other(who)), At(w, who))
    ensures forall a, b :: 0 <= a < b < |At(w, Other(who)).log| ==>
              SlotOf(At(w, Other(who)).log[a]) != SlotOf(At(w, Other(who)).log[b])
  {
    hide PeerOk, StoreOk, Balanced, EpochsOk, GotOk, SentOk;
  }

  // ---- one offer ----------------------------------------------------------------------------

  lemma TracksFields(c: State, s: State)
    requires Tracks(c, s)
    ensures c == s.(skipped := c.skipped) && WellFormed(c) == WellFormed(s)
    ensures forall sl :: sl in c.skipped ==> sl in s.skipped
  {}

  /** Every frame the peer ever sent, offered to the client's session in any reachable state:
      the session takes it exactly if its key is still in store, or its position is still
      ahead and the gap within the limit.  Then it is a first copy, yields the text that was
      sent, and moves the session as the reference's; otherwise the session stays as it was. */
  lemma TakesExactly(w: World, to: Party, i: nat, drawn: KeyId, c: State, sh: Sheds)
    requires Inv(w) && i < |At(w, Other(to)).log| && drawn !in w.used && Tracks(c, At(w, to).st)
    ensures Shaped(w) && WellFormed(c)
    ensures var (p, x) := (At(w, to), At(w, Other(to)).log[i]);
            var (c', o) := TryDecrypt(c, x.frame, drawn, sh);
            && (o.Some? <==> SlotOf(x) in c.skipped || (!Behind(w, to, i) && !GapTooWide(c, x.frame.header)))
            && (if o.Some? then
                  && o.value == x.plain && Enabled(w, Deliver(to, i, drawn))
                  && Decrypt(p.st, x.frame, drawn).1 == Ok(x.plain) && Tracks(c', Decrypt(p.st, x.frame, drawn).0)
                else c' == c)
  {
    hide Inv, Decrypt, TryDecrypt, Tracks, GapTooWide;
    var (p, x) := (At(w, to), At(w, Other(to)).log[i]);
    InvShaped(w);
    TracksFields(c, p.st);
    FrameInLog(w, Other(to), i);
    if Behind(w, to, i) && SlotOf(x) !in c.skipped {
      BehindOpensByStoreOnly(w, to, i, c, drawn);
      assert Tracks(c, c) by { TracksItself(c); }
      DecryptTracks(c, c, x.frame, drawn, sh);
    } else {
      if i in p.got { ReadFrame(w, to, i); }
      assert i !in p.got;
      DeliverInv(w, to, i, drawn);
      DecryptTracks(c, p.st, x.frame, drawn, sh);
      SkipLimit(p.st, x.frame, drawn);
      SameGap(c, p.st, x.frame.header);
    }
  }

  lemma TracksItself(c: State)
    ensures Tracks(c, c)
  {}

  lemma SameGap(c: State, s: State, h: Header)
    requires Tracks(c, s)
    ensures Slot(h.dh, h.n) !in s.skipped ==> (GapTooWide(c, h) <==> GapTooWide(s, h))
    ensures Slot(h.dh, h.n) in s.skipped ==> !GapTooWide(s, h)
  {}

  lemma RecentGrows(eps: seq<Epoch>, eps1: seq<Epoch>, p: Peer, p1: Peer, sl: Slot)
    requires p.epoch < |eps| <= |eps1| && p1.epoch == p.epoch && Recent(eps, p, sl)
    requires forall j :: 0 <= j < |eps| ==> eps1[j].key == eps[j].key
    ensures Recent(eps1, p1, sl)
  {}

  lemma InStepGrows(eps: seq<Epoch>, eps1: seq<Epoch>, c: State, p: Peer, c1: State, p1: Peer)
    requires InStep(eps, c, p) && p.epoch < |eps| <= |eps1| && p1.epoch == p.epoch
    requires forall j :: 0 <= j < |eps| ==> eps1[j].key == eps[j].key
    requires Tracks(c1, p1.st) && c1.skipped == c.skipped
    ensures InStep(eps1, c1, p1)
  {
    hide Tracks, Recent;
    forall sl | sl in c1.skipped ensures Recent(eps1, p1, sl) {
      RecentGrows(eps, eps1, p, p1, sl);
    }
  }

  lemma PeerKeys(w: World, who: Party)
    requires Inv(w)
    ensures var p := At(w, who);
            && p.epoch < |w.eps| && p.st.dhs == w.eps[p.epoch].key
            && p.st.dhr == (if p.epoch == 0 then None else Some(w.eps[p.epoch - 1].key))
  {
    hide StoreOk, LogOk, GotOk, Balanced, EpochsOk;
    assert PeerOk(w.eps, At(w, who));
  }

  /** What is stored after a frame was taken is recent. */
  lemma TakenRecent(w: World, to: Party, i: nat, drawn: KeyId, c: State, sh: Sheds, sl: Slot)
    requires Inv(w) && Enabled(w, Deliver(to, i, drawn)) && InStep(w.eps, c, At(w, to)) && WellFormed(c)
    requires var f := At(w, Other(to)).log[i].frame;
             && TryDecrypt(c, f, drawn, sh).1.Some?
             && Tracks(TryDecrypt(c, f, drawn, sh).0, Decrypt(At(w, to).st, f, drawn).0)
    requires Shaped(w) && Inv(DeliverStep(w, to, i, drawn))
    requires sl in TryDecrypt(c, At(w, Other(to)).log[i].frame, drawn, sh).0.skipped
    ensures var w1 := DeliverStep(w, to, i, drawn); Recent(w1.eps, At(w1, to), sl)
  {
    hide Inv, Decrypt, TryDecrypt, DeliverStep, Within;
    var f, w1 := At(w, Other(to)).log[i].frame, DeliverStep(w, to, i, drawn);
    PeerKeys(w, to);
    Fresh(w, to, drawn);
    TracksFields(c, At(w, to).st);
    KeysOnly(c, f, drawn, sh, sl);
    DeliverParts(w, to, i, drawn);
    PeerKeys(w1, to);
  }

  /** A frame that is taken keeps the client's session in step with the reference's. */
  lemma TakenInStep(w: World, to: Party, i: nat, drawn: KeyId, c: State, sh: Sheds)
    requires Inv(w) && i < |At(w, Other(to)).log| && drawn !in w.used && InStep(w.eps, c, At(w, to))
    requires WellFormed(c) && ShedsOk(c, At(w, Other(to)).log[i].frame, drawn, sh)
    requires TryDecrypt(c, At(w, Other(to)).log[i].frame, drawn, sh).1.Some?
    ensures Shaped(w) && Enabled(w, Deliver(to, i, drawn))
    ensures var w1 := DeliverStep(w, to, i, drawn);
            Inv(w1) && InStep(w1.eps, TryDecrypt(c, At(w, Other(to)).log[i].frame, drawn, sh).0, At(w1, to))
  {
    hide Inv, Decrypt, TryDecrypt, DeliverStep, Within, ShedsOk, Tracks, Recent;
    var f := At(w, Other(to)).log[i].frame;
    TakesExactly(w, to, i, drawn, c, sh);
    var w1 := DeliverStep(w, to, i, drawn);
    DeliverInv(w, to, i, drawn);
    DeliverParts(w, to, i, drawn);
    StoreBounded(c, f, drawn, sh);
    forall sl | sl in TryDecrypt(c, f, drawn, sh).0.skipped ensures Recent(w1.eps, At(w1, to), sl) {
      TakenRecent(w, to, i, drawn, c, sh, sl);
    }
  }

  /** The party that did not take part. */
  lemma OtherInStep(w: World, to: Party, i: nat, drawn: KeyId, c: State)
    requires Inv(w) && Shaped(w) && Enabled(w, Deliver(to, i, drawn)) && InStep(w.eps, c, At(w, Other(to)))
    ensures var w1 := DeliverStep(w, to, i, drawn); InStep(w1.eps, c, At(w1, Other(to)))
  {
    hide Inv, Decrypt, DeliverStep, InStep;
    PeerKeys(w, Other(to));
    DeliverParts(w, to, i, drawn);
    StepTracks(w.eps, c, At(w, Other(to)));
    InStepGrows(w.eps, DeliverStep(w, to, i, drawn).eps, c, At(w, Other(to)), c, At(w, Other(to)));
  }

  lemma StepTracks(eps: seq<Epoch>, c: State, p: Peer)
    requires InStep(eps, c, p)
    ensures Tracks(c, p.st)
  {}

  lemma RecordRead(u: Guard, p: Peer, s: Peer, p1: Peer, i: nat, ok: bool, c: State)
    requires Recorded(u, p, s) && i < |s.log|
    requires p1.got == if ok then p.got + [i] else p.got
    ensures var x := s.log[i];
            var u1 := if ok && x.plain != "" then u.(st := c, seen := u.seen + {SlotOf(x)}, inbox := u.inbox + [x.plain])
                      else u.(st := c);
            Recorded(u1, p1, s)
  {
    hide Texts, Slots;
    ReadMore(p.got, i, s.log);
    ReadMore(p.got[u.since..], i, s.log);
    assert (p.got + [i])[u.since..] == p.got[u.since..] + [i];
  }

  lemma RecordOther(u: Guard, s: Peer, p: Peer, p1: Peer)
    requires Recorded(u, s, p) && p.log <= p1.log
    ensures Recorded(u, s, p1)
  {
    hide Texts, Slots;
    SentMore(s.got, p.log, p1.log);
    SentMore(s.got[u.since..], p.log, p1.log);
  }

  lemma RecordSame(u: Guard, p: Peer, s: Peer, p1: Peer, c: State)
    requires Recorded(u, p, s) && p1.got == p.got
    ensures Recorded(u.(st := c), p1, s)
  {}

  // ---- one step -----------------------------------------------------------------------------

  lemma RestartInv(g: GuardedWorld, who: Party)
    requires GuardedInv(g) && MayHappen(g, Restart(who))
    ensures GuardedInv(GuardedStep(g, Restart(who)))
  {
    hide Inv, InStep;
    InvOf(g, who);
    var g1 := GuardedStep(g, Restart(who));
    assert At(g.w, who).got[|At(g.w, who).got|..] == [];
    OfInv(g1, who);
  }

  /** What an offer does to the clients. */
  lemma OfferParts(g: GuardedWorld, e: Event)
    requires MayHappen(g, e) && IsOffer(e)
    ensures var (to, x) := (e.act.to, At(g.w, Other(e.act.to)).log[e.act.i]);
            var (u, o, g1) := (GuardOf(g, to), OfferOf(g, e), GuardedStep(g, e));
            var (c', t) := TryDecrypt(u.st, x.frame, e.act.drawn, e.sh);
            && GuardOf(g1, Other(to)) == GuardOf(g, Other(to))
            && g1.w == (if o.took then DeliverStep(g.w, to, e.act.i, e.act.drawn) else g.w)
            && (o.took <==> !Suppressed(g, e) && t.Some?)
            && ((t.Some? && t.value == x.plain) || (t.None? && c' == u.st) || Suppressed(g, e) ==>
                 GuardOf(g1, to) == if !o.took then u
                                    else if x.plain == "" then u.(st := c')
                                    else u.(st := c', seen := u.seen + {SlotOf(x)}, inbox := u.inbox + [x.plain]))
  {
    hide TryDecrypt, DeliverStep;
    assert SlotOf(At(g.w, Other(e.act.to)).log[e.act.i]) == FrameSlot(At(g.w, Other(e.act.to)).log[e.act.i].frame);
  }

  lemma OfferInv(g: GuardedWorld, e: Event)
    requires GuardedInv(g) && MayHappen(g, e) && IsOffer(e)
    ensures GuardedInv(GuardedStep(g, e))
    ensures if OfferOf(g, e).took then Enabled(g.w, e.act) && GuardedStep(g, e).w == Step(g.w, e.act)
            else GuardedStep(g, e) == g
  {
    hide GuardedInv, Inv, TryDecrypt, Decrypt, DeliverStep, GuardedStep, OfferOf, Recorded, InStep, ShedsOk, Suppressed;
    var (to, i, drawn) := (e.act.to, e.act.i, e.act.drawn);
    var (u, s, p, g1) := (GuardOf(g, to), At(g.w, Other(to)), At(g.w, to), GuardedStep(g, e));
    InvOf(g, to);
    StepTracks(g.w.eps, u.st, p);
    TakesExactly(g.w, to, i, drawn, u.st, e.sh);
    OfferParts(g, e);
    if OfferOf(g, e).took {
      TakenInStep(g.w, to, i, drawn, u.st, e.sh);
      OtherInStep(g.w, to, i, drawn, GuardOf(g, Other(to)).st);
      DeliverParts(g.w, to, i, drawn);
      RecordRead(u, p, s, At(g1.w, to), i, true, GuardOf(g1, to).st);
      RecordOther(GuardOf(g, Other(to)), s, p, At(g1.w, to));
      OfInv(g1, to);
    } else {
      assert Suppressed(g, e) || TryDecrypt(u.st, s.log[i].frame, drawn, e.sh).0 == u.st;
      assert GuardOf(g1, to) == u;
      SameParts(g, g1, to);
    }
  }

  lemma SameParts(g: GuardedWorld, g1: GuardedWorld, to: Party)
    requires g1.w == g.w && GuardOf(g1, to) == GuardOf(g, to) && GuardOf(g1, Other(to)) == GuardOf(g, Other(to))
    ensures g1 == g
  {}

  lemma SendInvKept(g: GuardedWorld, e: Event)
    requires GuardedInv(g) && MayHappen(g, e) && e.Net? && e.act.Send?
    ensures GuardedInv(GuardedStep(g, e)) && GuardedStep(g, e).w == Step(g.w, e.act)
  {
    hide Inv, Encrypt, SendStep, Recorded, InStep;
    var a := e.act;
    InvOf(g, a.who);
    SendInv(g.w, a.who, a.plain, a.cipher, a.nonce);
    SendParts(g.w, a.who, a.plain, a.cipher, a.nonce);
    var g1, p, q := GuardedStep(g, e), At(g.w, a.who), At(g.w, Other(a.who));
    var p1, u, v := At(g1.w, a.who), GuardOf(g, a.who), GuardOf(g, Other(a.who));
    PeerKeys(g.w, a.who);
    PeerKeys(g.w, Other(a.who));
    StepTracks(g.w.eps, u.st, p);
    StepTracks(g.w.eps, v.st, q);
    EncryptTracks(u.st, p.st, a.plain, a.cipher, a.nonce);
    InStepGrows(g.w.eps, g1.w.eps, u.st, p, Encrypt(u.st, a.plain, a.cipher, a.nonce).0, p1);
    InStepGrows(g.w.eps, g1.w.eps, v.st, q, v.st, q);
    RecordOther(v, q, p, p1);
    RecordSame(u, p, q, p1, Encrypt(u.st, a.plain, a.cipher, a.nonce).0);
    OfInv(g1, a.who);
  }

  /** A step is a step of the network that does not duplicate, or leaves the clients'
      sessions alone. */
  lemma GuardedStepInv(g: GuardedWorld, e: Event)
    requires GuardedInv(g) && MayHappen(g, e)
    ensures GuardedInv(GuardedStep(g, e))
    ensures if KeptOf(g, e) == [] then GuardedStep(g, e).w == g.w
            else Enabled(g.w, e.act) && GuardedStep(g, e).w == Step(g.w, e.act)
  {
    hide GuardedInv, Inv, SendStep, DeliverStep, OfferOf;
    if e.Restart? {
      RestartInv(g, e.who);
    } else if e.act.Send? {
      SendInvKept(g, e);
    } else {
      OfferInv(g, e);
    }
  }

  // ---- whole guarded runs ---------------------------------------------------------------

  lemma GuardedLength(gs: seq<GuardedWorld>, es: seq<Event>)
    requires GuardedRun(gs, es)
    ensures |gs| == |es| + 1
    ensures forall k :: 0 <= k < |es| ==> MayHappen(gs[k], es[k])
  {}

  lemma GuardedAt(gs: seq<GuardedWorld>, es: seq<Event>, k: nat)
    requires GuardedRun(gs, es) && k < |es|
    ensures |gs| == |es| + 1
    ensures MayHappen(gs[k], es[k]) && gs[k + 1] == GuardedStep(gs[k], es[k])
  {}

  lemma GuardedPrefix(gs: seq<GuardedWorld>, es: seq<Event>, k: nat)
    requires GuardedRun(gs, es) && k <= |es|
    ensures |gs| == |es| + 1
    ensures GuardedRun(gs[..k + 1], es[..k])
  {}

  lemma GuardedStart(gs: seq<GuardedWorld>, es: seq<Event>)
    requires GuardedRun(gs, es)
    ensures GuardedInv(gs[0]) && Run([gs[0].w], [])
  {
    var idA, idB, drawn :| idA != idB && drawn != idA && drawn != idB && gs[0] == Begin(idA, idB, drawn);
    StartInv(idA, idB, drawn);
    hide Inv;
  }

  lemma {:induction false} GuardedRunInv(gs: seq<GuardedWorld>, es: seq<Event>, k: nat)
    requires GuardedRun(gs, es) && |gs| == |es| + 1 && k <= |es|
    ensures GuardedInv(gs[k])
  {
    hide GuardedRun, GuardedInv, GuardedStep;
    if k == 0 {
      GuardedStart(gs, es);
    } else {
      GuardedRunInv(gs, es, k - 1);
      GuardedAt(gs, es, k - 1);
      GuardedStepInv(gs[k - 1], es[k - 1]);
    }
  }

  lemma KeptOne(g: GuardedWorld, e: Event)
    requires MayHappen(g, e)
    ensures KeptOf(g, e) != [] ==> e.Net? && KeptOf(g, e) == [e.act]
  {}

  /** The guard and the session make duplication harmless.  Under any duplication, with
      logins, empty texts, purges and sheds, the clients' sessions go through a run of the
      network that does not duplicate, on the sends and the first copies taken: they are
      its sessions, but for keys no longer stored. */
  lemma {:induction false} DuplicationIsHarmless(gs: seq<GuardedWorld>, es: seq<Event>) returns (ws: seq<World>)
    requires GuardedRun(gs, es)
    ensures |gs| == |es| + 1 && (forall k :: 0 <= k < |es| ==> MayHappen(gs[k], es[k]))
    ensures Run(ws, Kept(gs, es)) && |ws| == |Kept(gs, es)| + 1
    ensures ws[0] == gs[0].w && ws[|ws| - 1] == gs[|es|].w
    ensures forall who :: Tracks(GuardOf(gs[|es|], who).st, At(gs[|es|].w, who).st)
    decreases |es|
  {
    hide GuardedRun, GuardedInv, GuardedStep, Run, Enabled, Step, MayHappen, KeptOf, Tracks;
    GuardedLength(gs, es);
    if es == [] {
      GuardedStart(gs, es);
      ws := [gs[0].w];
      assert Kept(gs, es) == [];
    } else {
      var l := |es| - 1;
      GuardedPrefix(gs, es, l);
      ws := DuplicationIsHarmless(gs[..l + 1], es[..l]);
      GuardedAt(gs, es, l);
      GuardedRunInv(gs, es, l);
      GuardedStepInv(gs[l], es[l]);
      KeptOne(gs[l], es[l]);
      assert gs[..l + 1][l] == gs[l] && gs[..l + 1][0] == gs[0];
      assert Kept(gs, es) == Kept(gs[..l + 1], es[..l]) + KeptOf(gs[l], es[l]);
      if KeptOf(gs[l], es[l]) != [] {
        InvOf(gs[l], Alice);
        RunExtend(ws, Kept(gs[..l + 1], es[..l]), es[l].act);
        ws := ws + [Step(gs[l].w, es[l].act)];
      } else {
        assert Kept(gs, es) == Kept(gs[..l + 1], es[..l]);
      }
    }
    GuardedRunInv(gs, es, |es|);
    forall who ensures Tracks(GuardOf(gs[|es|], who).st, At(gs[|es|].w, who).st) {
      InvOf(gs[|es|], who);
      StepTracks(gs[|es|].w.eps, GuardOf(gs[|es|], who).st, At(gs[|es|].w, who));
    }
  }

  // ---- what that means ------------------------------------------------------------------------

  /** A copy of a frame already read changes nothing at all: neither session, nor record, nor
      what is shown, whether the guard stops it or not. */
  lemma CopyChangesNothing(gs: seq<GuardedWorld>, es: seq<Event>, k: nat)
    requires GuardedRun(gs, es) && |gs| == |es| + 1 && k < |es| && IsOffer(es[k])
    requires es[k].act.i in At(gs[k].w, es[k].act.to).got
    ensures gs[k + 1] == gs[k]
  {
    hide GuardedRun, GuardedInv, GuardedStep, OfferOf, Step;
    GuardedAt(gs, es, k);
    GuardedRunInv(gs, es, k);
    OfferInv(gs[k], es[k]);
  }

  /** Each text is shown exactly once: what a party has shown is, in reading order, the
      non-empty texts of the frames it has read, which are pairwise different; and the
      record holds exactly those read since the last login. */
  lemma ShownExactlyOnce(gs: seq<GuardedWorld>, es: seq<Event>, k: nat, who: Party)
    requires GuardedRun(gs, es) && |gs| == |es| + 1 && k <= |es|
    ensures var (u, p, s) := (GuardOf(gs[k], who), At(gs[k].w, who), At(gs[k].w, Other(who)));
            && u.inbox == Texts(p.got, s.log)
            && u.since <= |p.got| && u.seen == Slots(p.got[u.since..], s.log)
            && (forall a :: 0 <= a < |p.got| ==> p.got[a] < |s.log|)
            && (forall a, b :: 0 <= a < b < |p.got| ==> p.got[a] != p.got[b])
  {
    hide GuardedRun, Inv, GuardedInv, InStep;
    GuardedRunInv(gs, es, k);
    InvOf(gs[k], who);
    PartyGot(gs[k].w, who);
  }

  /** What the guard is for: a copy of a frame already read reaches the session, which then
      reports that it cannot be decrypted, exactly if its text is empty or it was read
      before the last login; any other copy is dropped quietly. */
  lemma CopyReportedExactly(gs: seq<GuardedWorld>, es: seq<Event>, k: nat)
    requires GuardedRun(gs, es) && |gs| == |es| + 1 && k < |es| && IsOffer(es[k])
    requires es[k].act.i in At(gs[k].w, es[k].act.to).got
    ensures MayHappen(gs[k], es[k])
    ensures var (to, i) := (es[k].act.to, es[k].act.i);
            var (u, p, s) := (GuardOf(gs[k], to), At(gs[k].w, to), At(gs[k].w, Other(to)));
            && u.since <= |p.got|
            && (!Suppressed(gs[k], es[k]) <==> s.log[i].plain == "" || i !in p.got[u.since..])
            && (!Suppressed(gs[k], es[k]) ==> TryDecrypt(u.st, s.log[i].frame, es[k].act.drawn, es[k].sh).1.None?)
  {
    hide GuardedRun, Inv, GuardedInv, InStep, TryDecrypt;
    GuardedAt(gs, es, k);
    GuardedRunInv(gs, es, k);
    var to := es[k].act.to;
    InvOf(gs[k], to);
    PartyGot(gs[k].w, to);
    var (u, p, s) := (GuardOf(gs[k], to), At(gs[k].w, to), At(gs[k].w, Other(to)));
    SlotRecorded(p.got[u.since..], s.log, es[k].act.i);
    StepTracks(gs[k].w.eps, u.st, p);
    TakesExactly(gs[k].w, to, es[k].act.i, es[k].act.drawn, u.st, es[k].sh);
  }

  /** And a frame not read yet is never dropped by the guard. */
  lemma NewFramePasses(gs: seq<GuardedWorld>, es: seq<Event>, k: nat)
    requires GuardedRun(gs, es) && |gs| == |es| + 1 && k < |es| && IsOffer(es[k])
    requires es[k].act.i !in At(gs[k].w, es[k].act.to).got
    ensures MayHappen(gs[k], es[k]) && !Suppressed(gs[k], es[k])
  {
    hide GuardedRun, Inv, GuardedInv, InStep;
    GuardedAt(gs, es, k);
    GuardedRunInv(gs, es, k);
    var to := es[k].act.to;
    InvOf(gs[k], to);
    PartyGot(gs[k].w, to);
    SlotRecorded(At(gs[k].w, to).got[GuardOf(gs[k], to).since..], At(gs[k].w, Other(to)).log, es[k].act.i);
  }

  /** The store is bounded over every run, and holds keys of two generations only. */
  lemma StoreStaysSmall(gs: seq<GuardedWorld>, es: seq<Event>, k: nat, who: Party)
    requires GuardedRun(gs, es) && |gs| == |es| + 1 && k <= |es|
    ensures var (c, p) := (GuardOf(gs[k], who).st, At(gs[k].w, who));
            |c.skipped| <= 2 * MAX_SKIP && forall sl :: sl in c.skipped ==> Recent(gs[k].w.eps, p, sl)
  {
    hide GuardedRun, Inv, GuardedInv, Recorded, Recent;
    GuardedRunInv(gs, es, k);
    InvOf(gs[k], who);
  }

  // ---- what the purge costs ----------------------------------------------------------------------

  /** The cap has shed nothing in the first n steps. */
  predicate NothingShed(es: seq<Event>, n: nat)
    requires n <= |es|
  {
    forall k :: 0 <= k < n && IsOffer(es[k]) ==> es[k].sh == Sheds({}, {}, {})
  }

  /** All recent keys are stored that the reference stores. */
  ghost predicate AllRecent(eps: seq<Epoch>, c: State, p: Peer) {
    forall sl :: sl in p.st.skipped && Recent(eps, p, sl) ==> sl in c.skipped
  }

  /** A stored key under the ratchet key of a frame still ahead is of the chain in use. */
  lemma SameGeneration(w: World, to: Party, i: nat, sl: Slot)
    requires Inv(w) && i < |At(w, Other(to)).log| && !Behind(w, to, i)
    requires sl in At(w, to).st.skipped && sl.dh == At(w, Other(to)).log[i].frame.header.dh
    ensures Some(sl.dh) == At(w, to).st.dhr
  {
    hide PartyOk, LogOk, GotOk, StoreOk, PeerOk, Balanced, EpochsOk;
    Take(w, to);
    PeerKeys(w, to);
    InvLinked(w, to);
    StoredIsBehind(w.eps, At(w, Other(to)), At(w, to), i, sl);
  }

  lemma StoredIsBehind(eps: seq<Epoch>, s: Peer, p: Peer, i: nat, sl: Slot)
    requires Linked(eps, s, p) && i < |s.log| && i !in p.got && SlotOf(s.log[i]) !in p.st.skipped
    requires sl in p.st.skipped && sl.dh == s.log[i].frame.header.dh
    ensures 1 <= p.epoch <= |eps| && sl.dh == eps[p.epoch - 1].key
  {
    SenderFrame(eps, s, p, i);
    hide LogOk, GotOk, Balanced, SentOk, Advance;
    var x := s.log[i];
    assert p.epoch < |eps| && KnownSlot(eps, p, sl);
    var j :| Receives(p, j) && eps[j].key == sl.dh;
    assert j == x.epoch;
    StoredHere(eps, p, j, SlotOf(x));
  }

  lemma RecentByKey(eps: seq<Epoch>, p: Peer, sl: Slot, sl2: Slot)
    requires sl.dh == sl2.dh && Recent(eps, p, sl)
    ensures Recent(eps, p, sl2)
  {}

  /** What KeysKept asks of the two stores. */
  lemma StoresAgree(w: World, to: Party, i: nat, drawn: KeyId, c: State, sl: Slot)
    requires Inv(w) && i < |At(w, Other(to)).log| && InStep(w.eps, c, At(w, to)) && AllRecent(w.eps, c, At(w, to))
    requires SlotOf(At(w, Other(to)).log[i]) in c.skipped || !Behind(w, to, i)
    ensures var (s, h) := (At(w, to).st, At(w, Other(to)).log[i].frame.header);
            && (Slot(h.dh, h.n) in s.skipped ==> Slot(h.dh, h.n) in c.skipped)
            && (sl in s.skipped && (Some(sl.dh) == s.dhr || sl.dh == h.dh) ==> sl in c.skipped)
  {
    hide Inv, Tracks;
    PeerKeys(w, to);
    var (p, x) := (At(w, to), At(w, Other(to)).log[i]);
    if sl in p.st.skipped && sl.dh == x.frame.header.dh {
      if SlotOf(x) in c.skipped {
        RecentByKey(w.eps, p, SlotOf(x), sl);
      } else {
        SameGeneration(w, to, i, sl);
      }
    }
  }

  lemma TakenAllRecent(w: World, to: Party, i: nat, drawn: KeyId, c: State)
    requires Inv(w) && i < |At(w, Other(to)).log| && drawn !in w.used
    requires InStep(w.eps, c, At(w, to)) && AllRecent(w.eps, c, At(w, to)) && WellFormed(c)
    requires TryDecrypt(c, At(w, Other(to)).log[i].frame, drawn, Sheds({}, {}, {})).1.Some?
    ensures Shaped(w) && Enabled(w, Deliver(to, i, drawn))
    ensures var w1 := DeliverStep(w, to, i, drawn);
            AllRecent(w1.eps, TryDecrypt(c, At(w, Other(to)).log[i].frame, drawn, Sheds({}, {}, {})).0, At(w1, to))
  {
    hide Inv, Decrypt, TryDecrypt, DeliverStep, Tracks, InStep, AllRecent;
    var (p, f) := (At(w, to), At(w, Other(to)).log[i].frame);
    StepTracks(w.eps, c, p);
    TakesExactly(w, to, i, drawn, c, Sheds({}, {}, {}));
    DeliverInv(w, to, i, drawn);
    DeliverParts(w, to, i, drawn);
    var w1 := DeliverStep(w, to, i, drawn);
    var c1 := TryDecrypt(c, f, drawn, Sheds({}, {}, {})).0;
    forall sl | sl in At(w1, to).st.skipped && Recent(w1.eps, At(w1, to), sl) ensures sl in c1.skipped {
      TakenKeeps(w, to, i, drawn, c, sl);
    }
    AllRecentHolds(w1.eps, c1, At(w1, to));
  }

  lemma AllRecentHolds(eps: seq<Epoch>, c: State, p: Peer)
    requires forall sl :: sl in p.st.skipped && Recent(eps, p, sl) ==> sl in c.skipped
    ensures AllRecent(eps, c, p)
  {}

  lemma AllRecentAt(eps: seq<Epoch>, c: State, p: Peer, sl: Slot)
    requires AllRecent(eps, c, p) && sl in p.st.skipped && Recent(eps, p, sl)
    ensures sl in c.skipped
  {}

  lemma TakenKeeps(w: World, to: Party, i: nat, drawn: KeyId, c: State, sl: Slot)
    requires Inv(w) && Shaped(w) && Enabled(w, Deliver(to, i, drawn)) && Inv(DeliverStep(w, to, i, drawn))
    requires InStep(w.eps, c, At(w, to)) && AllRecent(w.eps, c, At(w, to)) && WellFormed(c)
    requires SlotOf(At(w, Other(to)).log[i]) in c.skipped || !Behind(w, to, i)
    requires Decrypt(At(w, to).st, At(w, Other(to)).log[i].frame, drawn).1.Ok?
    requires var w1 := DeliverStep(w, to, i, drawn); sl in At(w1, to).st.skipped && Recent(w1.eps, At(w1, to), sl)
    ensures sl in TryDecrypt(c, At(w, Other(to)).log[i].frame, drawn, Sheds({}, {}, {})).0.skipped
  {
    hide Inv, Decrypt, TryDecrypt, DeliverStep, Tracks, InStep, AllRecent;
    var (p, f, w1) := (At(w, to), At(w, Other(to)).log[i].frame, DeliverStep(w, to, i, drawn));
    StepTracks(w.eps, c, p);
    FrameInLog(w, Other(to), i);
    Fresh(w, to, drawn);
    PeerKeys(w, to);
    PeerKeys(w1, to);
    DeliverParts(w, to, i, drawn);
    StoresAgree(w, to, i, drawn, c, sl);
    KeysKept(c, p.st, f, drawn, sl);
    TurnedTo(p.st, f, drawn);
    if Decrypt(p.st, f, drawn).0.dhs == p.st.dhs && sl in p.st.skipped {
      AllRecentAt(w.eps, c, p, sl);
    }
  }

  /** A call that changes the own ratchet key has turned to the header's. */
  lemma TurnedTo(s: State, f: Frame, drawn: KeyId)
    requires WellFormed(s) && drawn != s.dhs
    ensures var s' := Decrypt(s, f, drawn).0; s'.dhr == if s'.dhs == s.dhs then s.dhr else Some(f.header.dh)
  {
    hide StoredKeys, Advance;
  }

  /** Over every run in which the cap sheds nothing, the client stores exactly the recent
      among the keys the reference stores. */
  lemma {:induction false} RecentAreStored(gs: seq<GuardedWorld>, es: seq<Event>, k: nat, who: Party)
    requires GuardedRun(gs, es) && |gs| == |es| + 1 && k <= |es| && NothingShed(es, k)
    ensures AllRecent(gs[k].w.eps, GuardOf(gs[k], who).st, At(gs[k].w, who))
  {
    hide GuardedRun, GuardedInv, GuardedStep, AllRecent;
    if k == 0 {
      NothingStored(gs, es, who);
    } else {
      RecentAreStored(gs, es, k - 1, who);
      GuardedRunInv(gs, es, k - 1);
      GuardedAt(gs, es, k - 1);
      StepAllRecent(gs[k - 1], es[k - 1], who);
    }
  }

  lemma NothingStored(gs: seq<GuardedWorld>, es: seq<Event>, who: Party)
    requires GuardedRun(gs, es)
    ensures AllRecent(gs[0].w.eps, GuardOf(gs[0], who).st, At(gs[0].w, who))
  {}

  lemma AllRecentGrows(eps: seq<Epoch>, eps1: seq<Epoch>, c: State, p: Peer, c1: State, p1: Peer)
    requires AllRecent(eps, c, p) && p.epoch < |eps| <= |eps1| && p1.epoch == p.epoch
    requires forall j :: 0 <= j < |eps| ==> eps1[j].key == eps[j].key
    requires c1.skipped == c.skipped && p1.st.skipped == p.st.skipped
    ensures AllRecent(eps1, c1, p1)
  {}

  lemma StepAllRecent(g: GuardedWorld, e: Event, who: Party)
    requires GuardedInv(g) && MayHappen(g, e) && (IsOffer(e) ==> e.sh == Sheds({}, {}, {}))
    requires AllRecent(g.w.eps, GuardOf(g, who).st, At(g.w, who))
    ensures var g1 := GuardedStep(g, e); AllRecent(g1.w.eps, GuardOf(g1, who).st, At(g1.w, who))
  {
    hide GuardedInv, Inv, Encrypt, SendStep, DeliverStep, TryDecrypt, AllRecent, Recorded, InStep, ShedsOk;
    InvOf(g, who);
    PeerKeys(g.w, who);
    var g1, c, p := GuardedStep(g, e), GuardOf(g, who).st, At(g.w, who);
    if IsOffer(e) {
      OfferAllRecent(g, e, who);
    } else if e.Net? {
      var a := e.act;
      SendParts(g.w, a.who, a.plain, a.cipher, a.nonce);
      StepTracks(g.w.eps, c, p);
      EncryptTracks(c, p.st, a.plain, a.cipher, a.nonce);
      SentSkipped(p.st, a.plain, a.cipher, a.nonce);
      AllRecentGrows(g.w.eps, g1.w.eps, c, p, GuardOf(g1, who).st, At(g1.w, who));
    } else {
      AllRecentGrows(g.w.eps, g1.w.eps, c, p, GuardOf(g1, who).st, At(g1.w, who));
    }
  }

  lemma SentSkipped(s: State, pt: Plaintext, cipher: Cipher, nonce: Nonce)
    ensures Encrypt(s, pt, cipher, nonce).0.skipped == s.skipped
  {}

  lemma OfferAllRecent(g: GuardedWorld, e: Event, who: Party)
    requires GuardedInv(g) && MayHappen(g, e) && IsOffer(e) && e.sh == Sheds({}, {}, {})
    requires AllRecent(g.w.eps, GuardOf(g, who).st, At(g.w, who))
    ensures var g1 := GuardedStep(g, e); AllRecent(g1.w.eps, GuardOf(g1, who).st, At(g1.w, who))
  {
    hide GuardedInv, Inv, DeliverStep, TryDecrypt, AllRecent, Recorded, InStep, ShedsOk, GuardedStep, OfferOf, Suppressed;
    var (to, i, drawn, g1) := (e.act.to, e.act.i, e.act.drawn, GuardedStep(g, e));
    OfferInv(g, e);
    if OfferOf(g, e).took {
      InvOf(g, to);
      PeerKeys(g.w, who);
      StepTracks(g.w.eps, GuardOf(g, to).st, At(g.w, to));
      TakesExactly(g.w, to, i, drawn, GuardOf(g, to).st, e.sh);
      OfferParts(g, e);
      if who == to {
        TakenAllRecent(g.w, to, i, drawn, GuardOf(g, to).st);
      } else {
        DeliverParts(g.w, to, i, drawn);
        AllRecentGrows(g.w.eps, g1.w.eps, GuardOf(g, who).st, At(g.w, who), GuardOf(g1, who).st, At(g1.w, who));
      }
    }
  }

  /** What the purge costs, exactly.  As long as the cap sheds nothing, a frame offered is
      taken if and only if it was not read, its gap is within the limit, and its chain is not
      two or more turns behind the one in use. */
  lemma PurgeLosesExactly(gs: seq<GuardedWorld>, es: seq<Event>, k: nat)
    requires GuardedRun(gs, es) && |gs| == |es| + 1 && k < |es| && IsOffer(es[k]) && NothingShed(es, k)
    ensures MayHappen(gs[k], es[k])
    ensures var (to, i) := (es[k].act.to, es[k].act.i);
            var (p, x, u) := (At(gs[k].w, to), At(gs[k].w, Other(to)).log[i], GuardOf(gs[k], to));
            OfferOf(gs[k], es[k]).took <==>
              i !in p.got && x.epoch + 3 >= p.epoch && !GapTooWide(u.st, x.frame.header)
  {
    hide GuardedRun, GuardedInv, Inv, TryDecrypt, InStep, AllRecent, Recorded, OfferOf, ShedsOk, GapTooWide, Suppressed;
    GuardedAt(gs, es, k);
    GuardedRunInv(gs, es, k);
    var (g, to, i) := (gs[k], es[k].act.to, es[k].act.i);
    var (p, x, u) := (At(g.w, to), At(g.w, Other(to)).log[i], GuardOf(g, to));
    InvOf(g, to);
    StepTracks(g.w.eps, u.st, p);
    TakesExactly(g.w, to, i, es[k].act.drawn, u.st, es[k].sh);
    OfferParts(g, es[k]);
    if i in p.got {
      ReadFrame(g.w, to, i);
      TracksFields(u.st, p.st);
    } else {
      RecentAreStored(gs, es, k, to);
      GenerationsBehind(g.w, to, i, u.st);
      StoredIsNoGap(u.st, x.frame.header);
      NewFramePasses(gs, es, k);
    }
  }

  lemma StoredIsNoGap(c: State, h: Header)
    ensures Slot(h.dh, h.n) in c.skipped ==> !GapTooWide(c, h)
  {}

  /** A frame passed and not read is stored exactly if its chain is recent; one still ahead
      is of a recent chain. */
  lemma GenerationsBehind(w: World, to: Party, i: nat, c: State)
    requires Inv(w) && i < |At(w, Other(to)).log| && i !in At(w, to).got
    requires InStep(w.eps, c, At(w, to)) && AllRecent(w.eps, c, At(w, to))
    ensures var (p, x) := (At(w, to), At(w, Other(to)).log[i]);
            && (Behind(w, to, i) ==> (SlotOf(x) in c.skipped <==> x.epoch + 3 >= p.epoch))
            && (!Behind(w, to, i) ==> SlotOf(x) !in c.skipped && x.epoch + 3 >= p.epoch)
  {
    hide Inv, Tracks, InStep, AllRecent;
    var (p, x) := (At(w, to), At(w, Other(to)).log[i]);
    InvLinked(w, to);
    StepTracks(w.eps, c, p);
    TracksFields(c, p.st);
    EpochOfFrame(w.eps, At(w, Other(to)), p, i);
    RecentByEpoch(w.eps, At(w, Other(to)), p, i);
    if SlotOf(x) in c.skipped {
      InStepRecent(w.eps, c, p, SlotOf(x));
    } else if SlotOf(x) in p.st.skipped && Recent(w.eps, p, SlotOf(x)) {
      AllRecentAt(w.eps, c, p, SlotOf(x));
    }
  }

  lemma InStepRecent(eps: seq<Epoch>, c: State, p: Peer, sl: Slot)
    requires InStep(eps, c, p) && sl in c.skipped
    ensures Recent(eps, p, sl)
  {}

  lemma EpochOfFrame(eps: seq<Epoch>, s: Peer, p: Peer, i: nat)
    requires Linked(eps, s, p) && i < |s.log| && i !in p.got
    ensures SlotOf(s.log[i]) in p.st.skipped ==> s.log[i].epoch < p.epoch
    ensures SlotOf(s.log[i]) !in p.st.skipped ==> s.log[i].epoch + 1 >= p.epoch
  {
    SenderFrame(eps, s, p, i);
    hide LogOk, GotOk, Balanced, SentOk, Advance;
    var x := s.log[i];
    assert p.epoch < |eps|;
    StoredHere(eps, p, x.epoch, SlotOf(x));
    if SlotOf(x) in p.st.skipped {
      assert KnownSlot(eps, p, SlotOf(x));
      var j :| Receives(p, j) && eps[j].key == SlotOf(x).dh;
      assert j == x.epoch;
    } else if x.epoch < p.epoch {
      assert Receives(p, x.epoch);
    }
  }

  lemma RecentByEpoch(eps: seq<Epoch>, s: Peer, p: Peer, i: nat)
    requires Linked(eps, s, p) && i < |s.log| && i !in p.got
    ensures s.log[i].epoch < p.epoch ==> (Recent(eps, p, SlotOf(s.log[i])) <==> s.log[i].epoch + 3 >= p.epoch)
  {
    SenderFrame(eps, s, p, i);
    assert p.epoch < |eps|;
    hide LogOk, GotOk, Balanced, SentOk, StoreOk, PeerOk;
  }

  // ---- altered frames ------------------------------------------------------------------------

  /** The key a call would use depends on the ratchet key and number the header names, and not
      on the rest of it. */
  lemma SamePlaceSameKey(c: State, h: Header, h1: Header, drawn: KeyId, sh: Sheds, sh1: Sheds)
    requires WellFormed(c) && h.dh == h1.dh && h.n == h1.n
    requires AtItsPlace(c, h, drawn, sh).Some? && AtItsPlace(c, h1, drawn, sh1).Some?
    ensures AtItsPlace(c, h, drawn, sh).value.ckr == AtItsPlace(c, h1, drawn, sh1).value.ckr
  {
    hide Advance, StoredKeys, Purged;
  }

  lemma AlteredNeverOpens(f: Frame, x: Frame, mk: Key)
    requires Altered(f, x) && Opened(x, mk).Ok?
    ensures Opened(f, mk).Err?
  {}

  /** Unlike the reference's, the client's session is not touched by a frame altered on the way:
      in front of any frame it could read, a copy altered in any field by someone who does not
      hold its key yields nothing and leaves session and record as they were, so the genuine
      frame is read all the same. */
  lemma AlteredFrameHarmless(c: State, seen: set<Slot>, f: Frame, x: Frame, drawn: KeyId, sh: Sheds, sh1: Sheds)
    requires WellFormed(c) && Altered(f, x) && TryDecrypt(c, x, drawn, sh).1.Some?
    ensures TryDecrypt(c, f, drawn, sh1) == (c, None)
    ensures Offer(c, seen, f, drawn, sh1) == Guarded(c, seen, None, false)
  {
    hide AtItsPlace, Altered, Opened;
    AlteredSlot(f, x);
    if FrameSlot(x) in c.skipped {
      AlteredNeverOpens(f, x, c.skipped[FrameSlot(x)]);
    } else if AtItsPlace(c, f.header, drawn, sh1).Some? {
      var w := AtItsPlace(c, x.header, drawn, sh).value;
      SamePlaceSameKey(c, x.header, f.header, drawn, sh, sh1);
      AlteredNeverOpens(f, x, MessageKey(w.ckr.value));
    }
  }

  lemma AlteredSlot(f: Frame, x: Frame)
    requires Altered(f, x)
    ensures FrameSlot(f) == FrameSlot(x)
    ensures f.header.dh == x.header.dh && f.header.n == x.header.n
  {}
}
