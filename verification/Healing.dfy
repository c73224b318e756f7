/**
 Healing after a compromise, told by frames instead of epochs: which deliveries turn the
 ratchet, and so which frames close a captured channel; and what one ping and one pong do.
 */
module Healing {
  import opened Wrappers
  import opened Bytes
  import opened Crypto
  import opened Ratchet
  import opened Protocol
  import opened Secrecy

  /** The delivery is of a frame of chain j, and what it leaves open on the chain before is
      within the skip limit. */
  predicate Brings(w: World, a: Action, who: Party, j: int) {
    && a.Deliver? && a.to == who && a.i < |At(w, Other(who)).log|
    && var x := At(w, Other(who)).log[a.i];
       x.epoch == j && x.frame.header.pn <= At(w, who).st.nr + MAX_SKIP
  }

  /** ratchet_decrypt turns exactly for a frame of another chain whose gap is within the limit. */
  lemma TurnsByCall(r: State, f: Frame, drawn: KeyId)
    requires WellFormed(r) && Encodable(f.header) && r.dhs != drawn
    ensures Decrypt(r, f, drawn).0.dhs != r.dhs <==>
              && Slot(f.header.dh, f.header.n) !in r.skipped && r.dhr != Some(f.header.dh)
              && f.header.pn <= r.nr + MAX_SKIP
  {
    hide StoredKeys, Advance;
  }

  /** A delivery turns the receiver's ratchet exactly if it brings the chain after the
      receiver's own. */
  lemma TurnStep(w: World, to: Party, i: nat, drawn: KeyId)
    requires Inv(w) && Enabled(w, Deliver(to, i, drawn))
    ensures Shaped(w)
    ensures var (p, w1) := (At(w, to), DeliverStep(w, to, i, drawn));
            && At(w1, to).epoch == (if Brings(w, Deliver(to, i, drawn), to, p.epoch + 1) then p.epoch + 2 else p.epoch)
            && At(w1, Other(to)).epoch == At(w, Other(to)).epoch
  {
    hide Inv, Decrypt, DeliverStep;
    DeliverFacts(w, to, i, drawn);
    DeliverParts(w, to, i, drawn);
    InvLinked(w, to);
    FrameInLog(w, Other(to), i);
    InvPeer(w, to);
    var (s, p) := (At(w, Other(to)), At(w, to));
    DhsNotDrawn(w, to, drawn);
    TurnsByCall(p.st, s.log[i].frame, drawn);
    NextChainExactly(w.eps, s, p, i);
  }

  lemma DhsNotDrawn(w: World, to: Party, drawn: KeyId)
    requires Inv(w) && drawn !in w.used
    ensures At(w, to).st.dhs != drawn
  {
    hide StoreOk, LogOk, GotOk, Balanced;
    assert PeerOk(w.eps, At(w, to));
  }

  lemma NextChainExactly(eps: seq<Epoch>, s: Peer, r: Peer, i: nat)
    requires Linked(eps, s, r) && i < |s.log| && i !in r.got
    ensures var (x, sl) := (s.log[i], SlotOf(s.log[i]));
            sl !in r.st.skipped && r.st.dhr != Some(sl.dh) <==> x.epoch == r.epoch + 1
  {
    FrameCases(eps, s, r, i);
    hide LogOk, GotOk, Balanced, Advance;
    var (x, sl) := (s.log[i], SlotOf(s.log[i]));
    assert SentOk(eps, s, x) && PeerOk(eps, r);
    if sl in r.st.skipped {
      assert KnownSlot(eps, r, sl);
      var j :| Receives(r, j) && eps[j].key == sl.dh;
      assert j == x.epoch;
    }
  }

  // ---- over runs ------------------------------------------------------------------------------

  lemma EpochStep(ws: seq<World>, acts: seq<Action>, k: nat, who: Party)
    requires Run(ws, acts) && k < |acts|
    ensures |ws| == |acts| + 1
    ensures var e := At(ws[k], who).epoch;
            At(ws[k + 1], who).epoch == if Brings(ws[k], acts[k], who, e + 1) then e + 2 else e
  {
    hide Run, Inv, DeliverStep, SendStep, Brings;
    RunLength(ws, acts);
    RunInv(ws, acts, k);
    RunStep(ws, acts, k);
    match acts[k]
    case Send(x, pt, cipher, nonce) =>
      SendParts(ws[k], x, pt, cipher, nonce);
      SendBringsNothing(ws[k], acts[k], who);
    case Deliver(to, i, drawn) =>
      TurnStep(ws[k], to, i, drawn);
      if who != to { BringsToOther(ws[k], acts[k], who); }
  }

  lemma SendBringsNothing(w: World, a: Action, who: Party)
    requires a.Send?
    ensures !Brings(w, a, who, At(w, who).epoch + 1)
  {}

  lemma BringsToOther(w: World, a: Action, who: Party)
    requires a.Deliver? && a.to != who
    ensures !Brings(w, a, who, At(w, who).epoch + 1)
  {}

  /** A frame in flight is of the receiver's next chain at most. */
  lemma BroughtBound(w: World, a: Action, who: Party, j: int)
    requires Inv(w) && Brings(w, a, who, j)
    ensures j <= At(w, who).epoch + 1
  {
    hide PartyOk, EpochsOk;
    FrameInLog(w, Other(who), a.i);
  }

  lemma ReachesStep(ws: seq<World>, acts: seq<Action>, k: nat, l: nat, who: Party, j: nat)
    requires Run(ws, acts) && k < l <= |acts| && |ws| == |acts| + 1
    requires At(ws[k], who).epoch < j && (j - At(ws[k], who).epoch) % 2 == 0
    ensures At(ws[l], who).epoch >= j <==> At(ws[l - 1], who).epoch >= j || Brings(ws[l - 1], acts[l - 1], who, j - 1)
  {
    hide Run, Brings, Inv;
    EpochStep(ws, acts, l - 1, who);
    EpochParity(ws, acts, k, l - 1, who);
    if Brings(ws[l - 1], acts[l - 1], who, j - 1) {
      RunInv(ws, acts, l - 1);
      BroughtBound(ws[l - 1], acts[l - 1], who, j - 1);
    }
  }

  /** A party reaches epoch j exactly by a delivery that brings it the chain before. */
  lemma {:induction false} ReachesExactly(ws: seq<World>, acts: seq<Action>, k: nat, l: nat, who: Party, j: nat)
    requires Run(ws, acts) && k <= l <= |acts| && |ws| == |acts| + 1
    requires At(ws[k], who).epoch < j && (j - At(ws[k], who).epoch) % 2 == 0
    ensures At(ws[l], who).epoch >= j <==> exists m :: k <= m < l && Brings(ws[m], acts[m], who, j - 1)
    decreases l
  {
    hide *;
    if k < l {
      ReachesExactly(ws, acts, k, l - 1, who, j);
      ReachesStep(ws, acts, k, l, who, j);
    }
  }

  /** When a captured party's channel is closed again, in frames: its own sending chain
      exactly once a frame of the peer's chain e + 1 was brought to it, the peer's exactly
      once a frame of the captured party's chain e + 2 was brought to the peer. */
  lemma HealsByFrames(ws: seq<World>, acts: seq<Action>, k: nat, l: nat, who: Party)
    requires Run(ws, acts) && k <= l <= |acts| && |ws| == |acts| + 1
    ensures var e, p, q := At(ws[k], who).epoch, At(ws[l], who), At(ws[l], Other(who));
            var kn := Snapshot(At(ws[k], who).st);
            && p.epoch < |ws[l].eps| && q.epoch < |ws[l].eps|
            && (p.epoch >= 1 ==>
                 (Healed(kn, ws[l], p) <==> exists m :: k <= m < l && Brings(ws[m], acts[m], who, e + 1)))
            && (q.epoch >= 1 ==>
                 (Healed(kn, ws[l], q) <==> exists m :: k <= m < l && Brings(ws[m], acts[m], Other(who), e + 2)))
  {
    hide Run, Brings, Healed;
    var e := At(ws[k], who).epoch;
    HealsExactly(ws, acts, k, l, who);
    EpochParity(ws, acts, k, k, who);
    ReachesExactly(ws, acts, k, l, who, e + 2);
    ReachesExactly(ws, acts, k, l, Other(who), e + 3);
  }

  // ---- one ping, one pong ---------------------------------------------------------------------------

  /** Party `who` sends, the peer reads it and answers, `who` reads the answer. */
  predicate PingPong(ws: seq<World>, acts: seq<Action>, k: nat, who: Party)
    requires |ws| == |acts| + 1
  {
    && k + 4 <= |acts|
    && acts[k].Send? && acts[k].who == who
    && acts[k + 1].Deliver? && acts[k + 1].to == Other(who) && acts[k + 1].i == |At(ws[k], who).log|
    && acts[k + 2].Send? && acts[k + 2].who == Other(who)
    && acts[k + 3].Deliver? && acts[k + 3].to == who && acts[k + 3].i == |At(ws[k], Other(who)).log|
  }

  /** The frame of a send that succeeded. */
  lemma SentIs(ws: seq<World>, acts: seq<Action>, k: nat)
    requires Run(ws, acts) && k < |acts| && acts[k].Send?
    ensures |ws| == |acts| + 1
    ensures var (p, p1, q, q1) := (At(ws[k], acts[k].who), At(ws[k + 1], acts[k].who),
                                   At(ws[k], Other(acts[k].who)), At(ws[k + 1], Other(acts[k].who)));
            && q1 == q && p1.epoch == p.epoch
            && (|p1.log| > |p.log| ==> |p1.log| == |p.log| + 1 && p1.log[|p.log|].epoch == p.epoch)
            && (|p1.log| <= |p.log| ==> p1.log == p.log)
  {
    hide Run, Encrypt;
    RunStep(ws, acts, k);
    SendParts(ws[k], acts[k].who, acts[k].plain, acts[k].cipher, acts[k].nonce);
  }

  /** A delivery leaves the logs alone; one that is not refused and is of the next chain
      turns the ratchet. */
  lemma ReadIs(ws: seq<World>, acts: seq<Action>, k: nat)
    requires Run(ws, acts) && k < |acts| && acts[k].Deliver?
    ensures |ws| == |acts| + 1 && Shaped(ws[k]) && Enabled(ws[k], acts[k])
    ensures var (to, i) := (acts[k].to, acts[k].i);
            var (p, s, p1, s1) := (At(ws[k], to), At(ws[k], Other(to)), At(ws[k + 1], to), At(ws[k + 1], Other(to)));
            && i < |s.log| && s1 == s && p1.log == p.log
            && (Outcome(ws[k], acts[k]).Ok? ==> p1.epoch == if s.log[i].epoch == p.epoch + 1 then p.epoch + 2 else p.epoch)
  {
    hide Run, Inv, Decrypt, DeliverStep, GapTooWide;
    RunStep(ws, acts, k);
    RunInv(ws, acts, k);
    var (to, i, drawn) := (acts[k].to, acts[k].i, acts[k].drawn);
    DeliverParts(ws[k], to, i, drawn);
    EpochStep(ws, acts, k, to);
    RefusedOnGap(ws[k], to, i, drawn);
    InvLinked(ws[k], to);
    NextChainExactly(ws[k].eps, At(ws[k], Other(to)), At(ws[k], to), i);
    OpenGap(At(ws[k], to).st, At(ws[k], Other(to)).log[i].frame.header);
  }

  lemma OpenGap(s: State, h: Header)
    ensures !GapTooWide(s, h) && Slot(h.dh, h.n) !in s.skipped && s.dhr != Some(h.dh) ==> h.pn <= s.nr + MAX_SKIP
  {}

  /** One ping and one pong after a capture, from any state whatever: the captured party's
      own chain is closed, and the peer's chain is still open to the captured session. */
  lemma OnePingOnePong(ws: seq<World>, acts: seq<Action>, k: nat, who: Party)
    requires Run(ws, acts) && |ws| == |acts| + 1 && PingPong(ws, acts, k, who)
    ensures forall m | m in {k + 1, k + 3} :: Shaped(ws[m]) && Enabled(ws[m], acts[m])
    ensures Outcome(ws[k + 1], acts[k + 1]).Ok? && Outcome(ws[k + 3], acts[k + 3]).Ok? ==>
              var w, kn := ws[k + 4], Snapshot(At(ws[k], who).st);
              && At(w, who).epoch < |w.eps| && At(w, Other(who)).epoch < |w.eps|
              && Healed(kn, w, At(w, who)) && !Healed(kn, w, At(w, Other(who)))
  {
    hide Run, Healed, Outcome, Enabled, Shaped;
    SentIs(ws, acts, k);
    ReadIs(ws, acts, k + 1);
    SentIs(ws, acts, k + 2);
    ReadIs(ws, acts, k + 3);
    EpochParity(ws, acts, k, k, who);
    HealsExactly(ws, acts, k, k + 4, who);
  }

  /** A frame that opens a new chain and leaves no gap. */
  lemma TurnNoGap(r: State, f: Frame, drawn: KeyId)
    requires WellFormed(r) && Encodable(f.header) && Slot(f.header.dh, f.header.n) !in r.skipped
    requires r.dhr != Some(f.header.dh) && f.header.pn <= r.nr && f.header.n == 0
    ensures var (st, t) := (Decrypt(r, f, drawn).0, DhRatchet(r, f.header.dh, drawn));
            && st == t.(ckr := Some(NextKey(t.ckr.value)), nr := 1)
            && !GapTooWide(r, f.header)
  {}

  lemma SendGoes(w: World, who: Party, pt: Plaintext)
    requires Inv(w) && At(w, who).st.cks.Some? && At(w, who).st.ns < TWO32 && At(w, who).st.pn < TWO32
    ensures Shaped(w)
    ensures var (p, w1) := (At(w, who), Step(w, Send(who, pt, XChaCha, 0)));
            var p1 := At(w1, who);
            && Inv(w1) && w1.used == w.used && At(w1, Other(who)) == At(w, Other(who))
            && p1.got == p.got && |p1.log| == |p.log| + 1
            && p1.log[|p.log|].frame.header == Header(XChaCha, p.st.dhs, p.st.pn, p.st.ns)
            && p1.st == p.st.(cks := p1.st.cks, ns := p.st.ns + 1)
  {
    hide Inv, SendStep;
    InvShaped(w);
    StepInv(w, Send(who, pt, XChaCha, 0));
    SendParts(w, who, pt, XChaCha, 0);
  }

  /** The first frame of the peer's new chain, with nothing missing before. */
  lemma DeliverGoes(w: World, to: Party, i: nat, drawn: KeyId)
    requires Inv(w) && Enabled(w, Deliver(to, i, drawn))
    requires var (p, h) := (At(w, to), At(w, Other(to)).log[i].frame.header);
             Slot(h.dh, h.n) !in p.st.skipped && p.st.dhr != Some(h.dh) && h.pn <= p.st.nr && h.n == 0
    ensures Shaped(w) && Outcome(w, Deliver(to, i, drawn)).Ok?
    ensures var (p, h, w1) := (At(w, to), At(w, Other(to)).log[i].frame.header, Step(w, Deliver(to, i, drawn)));
            var p1 := At(w1, to);
            && Inv(w1) && w1.used <= w.used + {drawn} && At(w1, Other(to)) == At(w, Other(to))
            && p1.log == p.log
            && p1.st == DhRatchet(p.st, h.dh, drawn).(ckr := p1.st.ckr, nr := 1)
  {
    hide Inv, DeliverStep, GapTooWide, Decrypt, DhRatchet;
    StepInv(w, Deliver(to, i, drawn));
    DeliverFacts(w, to, i, drawn);
    DeliverParts(w, to, i, drawn);
    FrameInLog(w, Other(to), i);
    TurnNoGap(At(w, to).st, At(w, Other(to)).log[i].frame, drawn);
    RefusedOnGap(w, to, i, drawn);
  }

  lemma FirstRun(idA: KeyId, idB: KeyId, d0: KeyId)
    requires idA != idB && d0 !in {idA, idB}
    ensures var w := Start(idA, idB, d0); Run([w], []) && Inv(w)
  {
    StartInv(idA, idB, d0);
    hide Inv;
  }

  /** What there is to know before the ping and before the pong. */
  predicate FirstFrame(w: World, who: Party, d: KeyId) {
    && d !in w.used
    && At(w, who).st.cks.Some? && At(w, who).st.ns == 0 && At(w, who).st.pn == 0
    && At(w, Other(who)).st.dhr != Some(At(w, who).st.dhs) && At(w, Other(who)).st.skipped == map[]
    && |At(w, who).log| == 0 && At(w, Other(who)).got == []
  }

  /** One frame from `who`, read by the peer. */
  lemma HalfRound(ws: seq<World>, acts: seq<Action>, who: Party, pt: Plaintext, d: KeyId)
      returns (vs: seq<World>, bs: seq<Action>)
    requires Run(ws, acts) && |ws| == |acts| + 1 && Inv(ws[|acts|]) && FirstFrame(ws[|acts|], who, d)
    ensures bs == acts + [Send(who, pt, XChaCha, 0), Deliver(Other(who), 0, d)] && |vs| == |ws| + 2 && vs[..|ws|] == ws
    ensures Run(vs, bs) && Shaped(vs[|ws|]) && Enabled(vs[|ws|], bs[|acts| + 1]) && Outcome(vs[|ws|], bs[|acts| + 1]).Ok?
    ensures var (w, w1) := (ws[|acts|], vs[|ws| + 1]);
            && Inv(w1) && w1.used <= w.used + {d}
            && At(w1, Other(who)).st == DhRatchet(At(w, Other(who)).st, At(w, who).st.dhs, d).(ckr := At(w1, Other(who)).st.ckr, nr := 1)
            && At(w1, Other(who)).log == At(w, Other(who)).log
            && At(w1, who).st == At(w, who).st.(cks := At(w1, who).st.cks, ns := 1)
            && At(w1, who).got == At(w, who).got
  {
    hide Run, Inv, Step, Shaped, Outcome, DhRatchet;
    var w := ws[|acts|];
    SendGoes(w, who, pt);
    var a := Send(who, pt, XChaCha, 0);
    var w1 := Step(w, a);
    RunExtend(ws, acts, a);
    DeliverGoes(w1, Other(who), 0, d);
    var b := Deliver(Other(who), 0, d);
    RunExtend(ws + [w1], acts + [a], b);
    vs, bs := ws + [w1] + [Step(w1, b)], acts + [a] + [b];
  }

  /** And this does happen: right from the start, say. */
  lemma PingPongHappens(idA: KeyId, idB: KeyId, d0: KeyId, d1: KeyId, d2: KeyId) returns (ws: seq<World>, acts: seq<Action>)
    requires idA != idB && d0 !in {idA, idB} && d1 !in {idA, idB, d0} && d2 !in {idA, idB, d0, d1}
    ensures Run(ws, acts) && |ws| == |acts| + 1 && PingPong(ws, acts, 0, Alice) && |acts| == 4
    ensures forall m | m in {1, 3} :: Shaped(ws[m]) && Enabled(ws[m], acts[m]) && Outcome(ws[m], acts[m]).Ok?
  {
    hide Run, Inv, Step, Shaped, Outcome;
    FirstRun(idA, idB, d0);
    var w := Start(idA, idB, d0);
    var vs, bs := HalfRound([w], [], Alice, "ping", d1);
    assert vs[0] == w;
    ws, acts := HalfRound(vs, bs, Bob, "pong", d2);
    assert ws[..3] == vs;
  }
}
