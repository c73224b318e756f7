/**
 What a send puts on the wire, over whole runs of two sessions: which sends go through, and
 what their frames carry.
 */
module Sending {
  import opened Wrappers
  import opened Bytes
  import opened Crypto
  import opened Ratchet
  import opened Protocol

  /** The frames of chain e in a log. */
  function FramesOf(log: seq<Sent>, e: int): nat {
    if log == [] then 0
    else FramesOf(log[..|log| - 1], e) + if log[|log| - 1].epoch == e then 1 else 0
  }

  /** Told by what the party sent: its epoch has a sending chain, as all have but Bob's first,
      and neither that chain nor its last one holds 2^32 frames. */
  predicate CanSend(p: Peer) {
    p.epoch >= 1 && FramesOf(p.log, p.epoch) < TWO32 && FramesOf(p.log, p.epoch - 2) < TWO32
  }

  predicate Sends(w: World, a: Action, who: Party) {
    a.Send? && a.who == who && CanSend(At(w, who))
  }

  /** The sends of one party that could go through, in order. */
  function SendsOf(ws: seq<World>, acts: seq<Action>, k: nat, who: Party): seq<Action>
    requires k <= |acts| <= |ws|
  {
    if k == 0 then []
    else SendsOf(ws, acts, k - 1, who) + if Sends(ws[k - 1], acts[k - 1], who) then [acts[k - 1]] else []
  }

  /** Frame i of a log is what `a` asked for, sealed under the cipher and nonce it names and
      numbered by the frames before it. */
  predicate Carries(log: seq<Sent>, i: nat, a: Action)
    requires i < |log|
  {
    var (x, f) := (log[i], log[i].frame);
    && a.Send? && x.plain == a.plain && f.nonce == a.nonce
    && f.header == Header(a.cipher, f.header.dh, FramesOf(log[..i], x.epoch - 2), FramesOf(log[..i], x.epoch))
    && f.ct == Sealed(a.cipher, f.ct.key, a.nonce, a.plain, f.header)
  }

  // ---- counting the frames of a chain ----------------------------------------------

  /** The counts kept with the epochs are those of the log. */
  ghost predicate CountsOk(eps: seq<Epoch>, p: Peer) {
    && p.epoch < |eps|
    && forall e :: 0 <= e < |eps| && (p.epoch - e) % 2 == 0 ==> FramesOf(p.log, e) == eps[e].sent
  }

  lemma FramesAppend(log: seq<Sent>, x: Sent, e: int)
    ensures FramesOf(log + [x], e) == FramesOf(log, e) + if x.epoch == e then 1 else 0
  {
    assert (log + [x])[..|log|] == log;
  }

  lemma {:induction false} NoFramesOutside(log: seq<Sent>, lo: int, hi: int, e: int)
    requires forall i :: 0 <= i < |log| ==> lo <= log[i].epoch <= hi
    requires e < lo || hi < e
    ensures FramesOf(log, e) == 0
  {
    if log != [] {
      NoFramesOutside(log[..|log| - 1], lo, hi, e);
    }
  }

  lemma LogEpochs(w: World, who: Party)
    requires Inv(w)
    ensures var p := At(w, who);
            p.epoch < |w.eps| && forall i :: 0 <= i < |p.log| ==> 1 <= p.log[i].epoch <= p.epoch
  {
    hide Inv;
    InvPeerLog(w, who);
  }

  lemma InvPeerLog(w: World, who: Party)
    requires Inv(w)
    ensures var p := At(w, who);
            && PeerOk(w.eps, p) && LogOk(w.eps, p)
            && forall i :: 0 <= i < |p.log| ==> SentOk(w.eps, p, p.log[i])
  {
    hide PeerOk, SentOk, StoreOk, GotOk, Balanced, EpochsOk;
  }

  lemma CountsAfterSend(eps: seq<Epoch>, p: Peer, st: State, f: Frame, pt: Plaintext)
    requires CountsOk(eps, p)
    ensures CountsOk(Counted(eps, p.epoch), AfterSend(p, st, f, pt))
  {
    var eps1 := Counted(eps, p.epoch);
    forall e | 0 <= e < |eps| && (p.epoch - e) % 2 == 0
      ensures FramesOf(AfterSend(p, st, f, pt).log, e) == eps1[e].sent
    {
      FramesAppend(p.log, Sent(f, pt, p.epoch), e);
    }
  }

  /** A step of the other party leaves the counts alone. */
  lemma CountsOfOther(eps: seq<Epoch>, q: Peer, e: nat)
    requires CountsOk(eps, q) && e < |eps| && (q.epoch - e) % 2 == 1
    ensures CountsOk(Counted(eps, e), q)
  {}

  lemma CountsWithNewEpoch(eps: seq<Epoch>, p: Peer, p1: Peer, x: Epoch)
    requires CountsOk(eps, p) && p1.log == p.log && x.sent == 0
    requires p1.epoch <= |eps| && (p1.epoch - p.epoch) % 2 == 0
    requires forall i :: 0 <= i < |p.log| ==> 1 <= p.log[i].epoch < |eps|
    ensures CountsOk(eps + [x], p1)
  {
    NoFramesOutside(p.log, 1, |eps| - 1, |eps|);
  }

  // ---- one step -----------------------------------------------------------------------------

  /** ratchet_encrypt goes through exactly if there is a sending chain and both counters still
      fit four bytes; then the frame is what was asked for, otherwise the error says which. */
  lemma EncryptExactly(s: State, pt: Plaintext, cipher: Cipher, nonce: Nonce)
    ensures var r := Encrypt(s, pt, cipher, nonce).1;
            && (r.Ok? <==> s.cks.Some? && s.ns < TWO32 && s.pn < TWO32)
            && (r.Err? ==> r.error == if s.cks.None? then NoSendingChain else CounterOverflow)
            && (r.Ok? ==> var (f, h) := (r.value, Header(cipher, s.dhs, s.pn, s.ns));
                          f == Frame(h, nonce, Sealed(cipher, f.ct.key, nonce, pt, h)))
  {}

  /** The counters of a session are those of its log. */
  lemma CanSendIsSession(w: World, who: Party)
    requires Inv(w) && CountsOk(w.eps, At(w, who))
    ensures var p := At(w, who);
            && (p.st.cks.Some? <==> p.epoch >= 1)
            && (CanSend(p) <==> p.st.cks.Some? && p.st.ns < TWO32 && p.st.pn < TWO32)
            && p.st.ns == FramesOf(p.log, p.epoch) && p.st.pn == FramesOf(p.log, p.epoch - 2)
  {
    hide Inv, LogOk, SentOk;
    InvPeerLog(w, who);
    LogEpochs(w, who);
    var p := At(w, who);
    if p.epoch < 2 {
      NoFramesOutside(p.log, 1, p.epoch, p.epoch - 2);
    }
  }

  lemma CountsAfterSends(w: World, x: Party, pt: Plaintext, cipher: Cipher, nonce: Nonce, who: Party)
    requires Inv(w) && Shaped(w) && CountsOk(w.eps, At(w, who))
    ensures var w1 := SendStep(w, x, pt, cipher, nonce); CountsOk(w1.eps, At(w1, who))
  {
    hide Inv, CountsOk, FramesOf, SendStep, Encrypt;
    InvNeighbours(w, who);
    SendParts(w, x, pt, cipher, nonce);
    var (st, r) := Encrypt(At(w, x).st, pt, cipher, nonce);
    if r.Err? {
      CountsSame(w, SendStep(w, x, pt, cipher, nonce), who);
    } else if x == who {
      CountsAfterSend(w.eps, At(w, who), st, r.value, pt);
    } else {
      CountsOfOther(w.eps, At(w, who), At(w, x).epoch);
    }
  }

  /** What a delivery does to what is counted. */
  lemma DeliveryLeaves(w: World, to: Party, i: nat, drawn: KeyId, who: Party)
    requires Shaped(w) && Enabled(w, Deliver(to, i, drawn))
    ensures var (w1, p, p1) := (DeliverStep(w, to, i, drawn), At(w, who), At(DeliverStep(w, to, i, drawn), who));
            && p1.log == p.log && (p1.epoch - p.epoch) % 2 == 0
            && (w1.eps == w.eps ==> p1.epoch == p.epoch)
            && (w1.eps != w.eps ==> |w1.eps| == |w.eps| + 1 && w1.eps[..|w.eps|] == w.eps && w1.eps[|w.eps|].sent == 0)
  {
    hide Decrypt, DeliverStep, Shaped, Enabled;
    DeliverParts(w, to, i, drawn);
  }

  lemma CountsAfterDelivery(w: World, to: Party, i: nat, drawn: KeyId, who: Party)
    requires Inv(w) && Shaped(w) && Enabled(w, Deliver(to, i, drawn)) && CountsOk(w.eps, At(w, who))
    ensures var w1 := DeliverStep(w, to, i, drawn); CountsOk(w1.eps, At(w1, who))
  {
    hide *;
    DeliverFacts(w, to, i, drawn);
    var w1 := DeliverStep(w, to, i, drawn);
    DeliveryLeaves(w, to, i, drawn, who);
    if w1.eps == w.eps {
      CountsSame(w, w1, who);
    } else {
      LogEpochs(w, who);
      DeliverInv(w, to, i, drawn);
      LogEpochs(w1, who);
      assert w1.eps == w.eps + [w1.eps[|w.eps|]];
      CountsWithNewEpoch(w.eps, At(w, who), At(w1, who), w1.eps[|w.eps|]);
    }
  }

  lemma CountsStep(w: World, a: Action, who: Party)
    requires Inv(w) && Enabled(w, a) && CountsOk(w.eps, At(w, who))
    ensures Shaped(w) && CountsOk(Step(w, a).eps, At(Step(w, a), who))
  {
    hide Inv, CountsOk, SendStep, DeliverStep;
    InvShaped(w);
    match a
    case Send(x, pt, cipher, nonce) => CountsAfterSends(w, x, pt, cipher, nonce, who);
    case Deliver(to, i, drawn) => CountsAfterDelivery(w, to, i, drawn, who);
  }

  lemma CountsSame(w: World, w1: World, who: Party)
    requires CountsOk(w.eps, At(w, who)) && w1.eps == w.eps
    requires At(w1, who).log == At(w, who).log && At(w1, who).epoch == At(w, who).epoch
    ensures CountsOk(w1.eps, At(w1, who))
  {}

  lemma InvNeighbours(w: World, who: Party)
    requires Inv(w)
    ensures (At(w, who).epoch - At(w, Other(who)).epoch) % 2 == 1
  {
    hide PartyOk, EpochsOk;
  }

  /** The log grows by exactly the frame of a send that can go through. */
  lemma LogStep(w: World, a: Action, who: Party)
    requires Inv(w) && Enabled(w, a) && CountsOk(w.eps, At(w, who))
    ensures Shaped(w)
    ensures var (log, log1) := (At(w, who).log, At(Step(w, a), who).log);
            if Sends(w, a, who) then |log1| == |log| + 1 && log1[..|log|] == log && Carries(log1, |log|, a)
            else log1 == log
  {
    hide Inv, CountsOk, FramesOf, CanSend, SendStep, DeliverStep, Encrypt, Decrypt;
    InvShaped(w);
    match a
    case Send(x, pt, cipher, nonce) =>
      SendParts(w, x, pt, cipher, nonce);
      if x == who {
        CanSendIsSession(w, who);
        EncryptExactly(At(w, who).st, pt, cipher, nonce);
      }
    case Deliver(to, i, drawn) =>
      DeliverParts(w, to, i, drawn);
  }

  // ---- over runs ------------------------------------------------------------------------------

  lemma StartCounts(ws: seq<World>, acts: seq<Action>, who: Party)
    requires Run(ws, acts)
    ensures CountsOk(ws[0].eps, At(ws[0], who)) && At(ws[0], who).log == []
  {}

  lemma {:induction false} RunCounts(ws: seq<World>, acts: seq<Action>, k: nat, who: Party)
    requires Run(ws, acts) && k <= |acts|
    ensures |ws| == |acts| + 1 && Inv(ws[k]) && CountsOk(ws[k].eps, At(ws[k], who))
  {
    hide *;
    RunLength(ws, acts);
    RunInv(ws, acts, k);
    if k == 0 {
      StartCounts(ws, acts, who);
    } else {
      RunCounts(ws, acts, k - 1, who);
      RunStep(ws, acts, k - 1);
      CountsStep(ws[k - 1], acts[k - 1], who);
    }
  }

  /** Over every run, each party's log is, in order and one for one, its sends that could go
      through, each with the text, cipher and nonce that were asked for, in the header, on the
      frame and under the seal, and numbered within its chain without gaps. */
  lemma {:induction false} LogIsSends(ws: seq<World>, acts: seq<Action>, k: nat, who: Party)
    requires Run(ws, acts) && k <= |acts|
    ensures |ws| == |acts| + 1
    ensures var (log, sends) := (At(ws[k], who).log, SendsOf(ws, acts, k, who));
            && |log| == |sends|
            && forall i :: 0 <= i < |log| ==> Carries(log, i, sends[i])
  {
    hide Run, Inv, CountsOk, CanSend, Carries, Step, At;
    RunLength(ws, acts);
    if k == 0 {
      StartCounts(ws, acts, who);
    } else {
      LogIsSends(ws, acts, k - 1, who);
      RunCounts(ws, acts, k - 1, who);
      RunStep(ws, acts, k - 1);
      LogStep(ws[k - 1], acts[k - 1], who);
      var (log, log1) := (At(ws[k - 1], who).log, At(ws[k], who).log);
      var sends := SendsOf(ws, acts, k, who);
      forall i | 0 <= i < |log1| ensures i < |sends| && Carries(log1, i, sends[i]) {
        if i < |log| { CarriesKept(log, log1, i, sends[i]); }
      }
    }
  }

  lemma CarriesKept(log: seq<Sent>, log1: seq<Sent>, i: nat, a: Action)
    requires i < |log| <= |log1| && log1[..|log|] == log && Carries(log, i, a)
    ensures Carries(log1, i, a)
  {
    assert log1[i] == log1[..|log|][i];
    assert log1[..i] == log1[..|log|][..i];
  }

  /** Over every run, a send is refused exactly if the party is Bob and his ratchet has not
      turned yet, so that he has no sending chain, or if 2^32 frames were sent on the party's
      chain or on the one before.  A refused send leaves the log as it was. */
  lemma SendRefusedExactly(ws: seq<World>, acts: seq<Action>, k: nat)
    requires Run(ws, acts) && k < |acts| && acts[k].Send?
    ensures |ws| == |acts| + 1
    ensures var (a, p) := (acts[k], At(ws[k], acts[k].who));
            && (Encrypt(p.st, a.plain, a.cipher, a.nonce).1.Ok? <==> CanSend(p))
            && (p.epoch == 0 ==> Encrypt(p.st, a.plain, a.cipher, a.nonce).1 == Err(NoSendingChain))
            && (p.epoch >= 1 && !CanSend(p) ==> Encrypt(p.st, a.plain, a.cipher, a.nonce).1 == Err(CounterOverflow))
            && (!CanSend(p) ==> At(ws[k + 1], a.who).log == p.log)
  {
    hide Run, Inv, CountsOk, CanSend, Carries, Step, Encrypt;
    RunCounts(ws, acts, k, acts[k].who);
    RunStep(ws, acts, k);
    CanSendIsSession(ws[k], acts[k].who);
    var (a, p) := (acts[k], At(ws[k], acts[k].who));
    EncryptExactly(p.st, a.plain, a.cipher, a.nonce);
    LogStep(ws[k], a, a.who);
  }
}
