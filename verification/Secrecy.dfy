/**
 What an attacker learns from a captured session: forward secrecy and post-compromise
 healing of the Double Ratchet.

 The attacker sees every public key, holds some keys and some private halves, and may
 apply every key-derivation function.  `Derivable` is that closure, stated by
 derivations; `CanDerive` decides it by recursion on the key, and the two agree.
 */
module Secrecy {
  import opened Wrappers
  import opened Crypto
  import opened Ratchet
  import opened Protocol

  datatype Knowledge = Knowledge(keys: set<Key>, privs: set<KeyId>)

  /** Every public half is known, so one private half gives the exchange. */
  predicate DhKnown(kn: Knowledge, d: Dh) {
    d.lo in kn.privs || d.hi in kn.privs
  }

  // ---- the closure, as derivations ------------------------------------------------

  predicate Rule(kn: Knowledge, have: seq<Key>, k: Key) {
    match k
    case SharedSecret(d) => DhKnown(kn, d)
    case RootKey(rk, d) => rk in have && DhKnown(kn, d)
    case ChainKey(rk, d) => rk in have && DhKnown(kn, d)
    case NextKey(ck) => ck in have
    case MessageKey(ck) => ck in have
  }

  ghost predicate Derivation(kn: Knowledge, t: seq<Key>) {
    forall i :: 0 <= i < |t| ==> t[i] in kn.keys || Rule(kn, t[..i], t[i])
  }

  ghost predicate Derivable(kn: Knowledge, k: Key) {
    exists t :: Derivation(kn, t) && k in t
  }

  // ---- and decided by recursion ----------------------------------------------------

  predicate CanDerive(kn: Knowledge, k: Key) {
    k in kn.keys ||
    match k
    case SharedSecret(d) => DhKnown(kn, d)
    case RootKey(rk, d) => CanDerive(kn, rk) && DhKnown(kn, d)
    case ChainKey(rk, d) => CanDerive(kn, rk) && DhKnown(kn, d)
    case NextKey(ck) => CanDerive(kn, ck)
    case MessageKey(ck) => CanDerive(kn, ck)
  }

  lemma {:induction false} DerivationSound(kn: Knowledge, t: seq<Key>, i: nat)
    requires Derivation(kn, t) && i < |t|
    ensures CanDerive(kn, t[i])
  {
    if t[i] !in kn.keys && !t[i].SharedSecret? {
      var below := match t[i]
        case RootKey(rk, _) => rk
        case ChainKey(rk, _) => rk
        case NextKey(ck) => ck
        case MessageKey(ck) => ck;
      assert Rule(kn, t[..i], t[i]);
      var j :| 0 <= j < i && t[..i][j] == below;
      DerivationSound(kn, t, j);
    }
  }

  lemma {:induction false} DerivationComplete(kn: Knowledge, k: Key) returns (t: seq<Key>)
    requires CanDerive(kn, k)
    ensures Derivation(kn, t) && |t| > 0 && t[|t| - 1] == k
  {
    if k in kn.keys || k.SharedSecret? {
      t := [k];
    } else {
      var below := match k
        case RootKey(rk, _) => rk
        case ChainKey(rk, _) => rk
        case NextKey(ck) => ck
        case MessageKey(ck) => ck;
      var t0 := DerivationComplete(kn, below);
      t := t0 + [k];
      forall i | 0 <= i < |t| ensures t[i] in kn.keys || Rule(kn, t[..i], t[i]) {
        if i < |t0| {
          assert t[..i] == t0[..i];
          assert t0[i] in kn.keys || Rule(kn, t0[..i], t0[i]);
        } else {
          assert t[..i] == t0;
        }
      }
    }
  }

  lemma ClosureDecided(kn: Knowledge, k: Key)
    ensures Derivable(kn, k) <==> CanDerive(kn, k)
  {
    if Derivable(kn, k) {
      var t :| Derivation(kn, t) && k in t;
      var i :| 0 <= i < |t| && t[i] == k;
      DerivationSound(kn, t, i);
    }
    if CanDerive(kn, k) {
      var t := DerivationComplete(kn, k);
    }
  }

  // ---- a captured session ---------------------------------------------------------

  /** `snapshot`: the root key, both chain keys, every stored message key and the
      private half of the current ratchet key. */
  function Snapshot(s: State): Knowledge {
    Knowledge({s.rk} + s.skipped.Values
              + (if s.cks.Some? then {s.cks.value} else {})
              + (if s.ckr.Some? then {s.ckr.value} else {}),
              {s.dhs})
  }

  /** `later` continues the history `eps`: same keys, roots and chains, maybe more. */
  ghost predicate Continues(eps: seq<Epoch>, later: seq<Epoch>) {
    && |eps| <= |later|
    && forall j :: 0 <= j < |eps| ==>
         later[j].key == eps[j].key && later[j].root == eps[j].root && later[j].chain == eps[j].chain
  }

  ghost predicate Rooted(eps: seq<Epoch>, idA: KeyId) {
    && |eps| >= 2
    && eps[0].root == SharedSecret(DhOf(idA, eps[0].key))
    && (forall j :: 1 <= j < |eps| ==>
         && eps[j].root == RootKey(eps[j - 1].root, DhOf(eps[j].key, eps[j - 1].key))
         && eps[j].chain == ChainKey(eps[j - 1].root, DhOf(eps[j].key, eps[j - 1].key)))
    && DistinctKeys(eps)
    && (forall j :: 0 <= j < |eps| ==> eps[j].key != idA)
  }

  /** A message key, by chain and position. */
  function KeyAt(eps: seq<Epoch>, j: nat, n: nat): Key
    requires j < |eps|
  {
    MessageKey(Advance(eps[j].chain, n))
  }

  /** What a snapshot at `p` exposes: the peer's next chain in full, the rest of the
      two current chains, and the stored keys. */
  predicate Exposed(eps: seq<Epoch>, p: Peer, j: nat, n: nat)
    requires j < |eps|
  {
    || j == p.epoch + 1
    || (j == p.epoch && p.steps <= n)
    || (j + 1 == p.epoch && p.st.nr <= n)
    || Slot(eps[j].key, n) in p.st.skipped
  }

  lemma RootsDistinct(eps: seq<Epoch>, idA: KeyId, j: nat, k: nat)
    requires Rooted(eps, idA) && j < |eps| && k < |eps|
    ensures eps[j].root.SharedSecret? || eps[j].root.RootKey?
    ensures eps[j].root == eps[k].root ==> j == k
  {
    assert j > 0 ==> eps[j].root == RootKey(eps[j - 1].root, DhOf(eps[j].key, eps[j - 1].key));
    assert k > 0 ==> eps[k].root == RootKey(eps[k - 1].root, DhOf(eps[k].key, eps[k - 1].key));
  }

  lemma ChainRootsDistinct(eps: seq<Epoch>, idA: KeyId, j: nat, k: nat)
    requires Rooted(eps, idA) && 1 <= j < |eps| && 1 <= k < |eps|
    ensures eps[j].chain.ChainKey?
    ensures eps[j].chain == eps[k].chain ==> j == k
  {
    assert eps[j].chain == ChainKey(eps[j - 1].root, DhOf(eps[j].key, eps[j - 1].key));
    assert eps[k].chain == ChainKey(eps[k - 1].root, DhOf(eps[k].key, eps[k - 1].key));
  }

  /** A captured session, in the terms of a later history. */
  ghost predicate Captured(eps: seq<Epoch>, later: seq<Epoch>, idA: KeyId, p: Peer) {
    && Rooted(later, idA) && Continues(eps, later)
    && PeerOk(eps, p) && StoreOk(eps, p)
  }

  lemma AdvanceShape(ck: Key, n: nat)
    requires ck.ChainKey?
    ensures Advance(ck, n).ChainKey? || Advance(ck, n).NextKey?
  {}

  lemma StoredShape(eps: seq<Epoch>, p: Peer, k: Key)
    requires p.epoch < |eps| && StoreOk(eps, p) && k in p.st.skipped.Values
    ensures exists j: nat, n: nat :: Receives(p, j) && Slot(eps[j].key, n) in p.st.skipped && k == KeyAt(eps, j, n)
  {
    var sl :| sl in p.st.skipped && p.st.skipped[sl] == k;
    assert KnownSlot(eps, p, sl);
    var j :| Receives(p, j) && eps[j].key == sl.dh;
    assert StoredAt(eps, p, j, sl.n);
    assert Slot(eps[j].key, sl.n) in p.st.skipped;
  }

  lemma RootCaptured(eps: seq<Epoch>, later: seq<Epoch>, idA: KeyId, p: Peer, j: nat)
    requires Captured(eps, later, idA, p) && j < |later|
    ensures later[j].root in Snapshot(p.st).keys <==> j == p.epoch
  {
    var k := later[j].root;
    var e := p.epoch;
    RootsDistinct(later, idA, j, e);
    assert p.st.rk == later[e].root;
    if e >= 1 { ChainRootsDistinct(later, idA, e, e); AdvanceShape(later[e].chain, p.steps); }
    if e >= 2 { ChainRootsDistinct(later, idA, e - 1, e - 1); AdvanceShape(later[e - 1].chain, p.st.nr); }
    if k in p.st.skipped.Values {
      StoredShape(eps, p, k);
      assert false;
    }
  }

  lemma ChainCaptured(eps: seq<Epoch>, later: seq<Epoch>, idA: KeyId, p: Peer, j: nat, n: nat)
    requires Captured(eps, later, idA, p) && 1 <= j < |later|
    ensures Advance(later[j].chain, n) in Snapshot(p.st).keys <==>
              (j == p.epoch && n == p.steps) || (j + 1 == p.epoch && n == p.st.nr)
  {
    var k := Advance(later[j].chain, n);
    var e := p.epoch;
    ChainRootsDistinct(later, idA, j, j);
    AdvanceShape(later[j].chain, n);
    assert p.st.rk == later[e].root && (later[e].root.SharedSecret? || later[e].root.RootKey?);
    if e >= 1 {
      ChainRootsDistinct(later, idA, j, e);
      assert p.st.cks == Some(Advance(later[e].chain, p.steps));
      if k == p.st.cks.value { AdvanceInjective(later[j].chain, n, later[e].chain, p.steps); }
    }
    if e >= 2 {
      ChainRootsDistinct(later, idA, j, e - 1);
      assert p.st.ckr == Some(Advance(later[e - 1].chain, p.st.nr));
      if k == p.st.ckr.value { AdvanceInjective(later[j].chain, n, later[e - 1].chain, p.st.nr); }
    }
    if k in p.st.skipped.Values {
      StoredShape(eps, p, k);
      assert false;
    }
  }

  lemma MessageCaptured(eps: seq<Epoch>, later: seq<Epoch>, idA: KeyId, p: Peer, j: nat, n: nat)
    requires Captured(eps, later, idA, p) && 1 <= j < |later|
    ensures KeyAt(later, j, n) in Snapshot(p.st).keys <==> Slot(later[j].key, n) in p.st.skipped
  {
    var k := KeyAt(later, j, n);
    var e := p.epoch;
    assert p.st.rk == later[e].root && (later[e].root.SharedSecret? || later[e].root.RootKey?);
    if e >= 1 { ChainRootsDistinct(later, idA, e, e); AdvanceShape(later[e].chain, p.steps); }
    if e >= 2 { ChainRootsDistinct(later, idA, e - 1, e - 1); AdvanceShape(later[e - 1].chain, p.st.nr); }
    if k in p.st.skipped.Values {
      StoredShape(eps, p, k);
      var i: nat, m: nat :| Receives(p, i) && Slot(eps[i].key, m) in p.st.skipped && k == KeyAt(eps, i, m);
      ChainRootsDistinct(later, idA, j, i);
      ChainRootsDistinct(later, idA, i, j);
      AdvanceInjective(later[j].chain, n, later[i].chain, m);
    }
    if Slot(later[j].key, n) in p.st.skipped {
      assert KnownSlot(eps, p, Slot(later[j].key, n));
      var i :| Receives(p, i) && eps[i].key == later[j].key;
      assert later[i].key == later[j].key;
      assert i == j;
      assert StoredAt(eps, p, i, n);
      assert p.st.skipped[Slot(later[j].key, n)] == k;
    }
  }

  /** Root keys an attacker can reach: the captured one and the next. */
  lemma {:induction false} RootsReached(eps: seq<Epoch>, later: seq<Epoch>, idA: KeyId, p: Peer, j: nat)
    requires Captured(eps, later, idA, p) && j < |later|
    ensures CanDerive(Snapshot(p.st), later[j].root) <==> j == p.epoch || j == p.epoch + 1
  {
    RootCaptured(eps, later, idA, p, j);
    assert p.st.dhs == later[p.epoch].key;
    if j > 0 {
      RootsReached(eps, later, idA, p, j - 1);
      assert later[j].root == RootKey(later[j - 1].root, DhOf(later[j].key, later[j - 1].key));
    } else {
      assert later[0].root == SharedSecret(DhOf(idA, later[0].key));
    }
  }

  lemma {:induction false} ChainsReached(eps: seq<Epoch>, later: seq<Epoch>, idA: KeyId, p: Peer, j: nat, n: nat)
    requires Captured(eps, later, idA, p) && 1 <= j < |later|
    ensures CanDerive(Snapshot(p.st), Advance(later[j].chain, n)) <==>
              j == p.epoch + 1 || (j == p.epoch && p.steps <= n) || (j + 1 == p.epoch && p.st.nr <= n)
  {
    ChainCaptured(eps, later, idA, p, j, n);
    if n > 0 {
      ChainsReached(eps, later, idA, p, j, n - 1);
    } else {
      assert p.st.dhs == later[p.epoch].key;
      RootsReached(eps, later, idA, p, j - 1);
      assert later[j].chain == ChainKey(later[j - 1].root, DhOf(later[j].key, later[j - 1].key));
    }
  }

  /** The exact reach of a compromise: for every chain and position, past or future,
      the message key is derivable if and only if it is Exposed. */
  lemma SnapshotReveals(eps: seq<Epoch>, later: seq<Epoch>, idA: KeyId, p: Peer, j: nat, n: nat)
    requires Captured(eps, later, idA, p) && 1 <= j < |later|
    ensures Derivable(Snapshot(p.st), KeyAt(later, j, n)) <==> Exposed(later, p, j, n)
  {
    MessageCaptured(eps, later, idA, p, j, n);
    ChainsReached(eps, later, idA, p, j, n);
    ClosureDecided(Snapshot(p.st), KeyAt(later, j, n));
  }

  // ---- over whole runs -------------------------------------------------------------

  lemma {:induction false} HistoryGrows(ws: seq<World>, acts: seq<Action>, k: nat, l: nat)
    requires Run(ws, acts) && k <= l <= |acts|
    ensures Continues(ws[k].eps, ws[l].eps) && ws[l].idA == ws[k].idA
    ensures ws[k].alice.epoch <= ws[l].alice.epoch && ws[k].bob.epoch <= ws[l].bob.epoch
    decreases l
  {
    hide *;
    RunLength(ws, acts);
    if k < l {
      HistoryGrows(ws, acts, k, l - 1);
      RunStep(ws, acts, l - 1);
      StepContinues(ws[l - 1], acts[l - 1]);
      ContinuesOn(ws[k].eps, ws[l - 1].eps, ws[l].eps);
    } else {
      ContinuesOn(ws[k].eps, ws[k].eps, ws[k].eps);
    }
  }

  lemma ContinuesOn(a: seq<Epoch>, b: seq<Epoch>, c: seq<Epoch>)
    ensures Continues(a, a)
    ensures Continues(a, b) && Continues(b, c) ==> Continues(a, c)
  {}

  lemma StepContinues(w: World, a: Action)
    requires Shaped(w) && Enabled(w, a)
    ensures var w1 := Step(w, a);
            && Continues(w.eps, w1.eps) && w1.idA == w.idA
            && w.alice.epoch <= w1.alice.epoch && w.bob.epoch <= w1.bob.epoch
  {
    match a
    case Send(who, pt, cipher, nonce) => SendParts(w, who, pt, cipher, nonce);
    case Deliver(to, i, drawn) => DeliverParts(w, to, i, drawn);
  }

  lemma RunCaptured(ws: seq<World>, acts: seq<Action>, k: nat, l: nat, who: Party)
    requires Run(ws, acts) && k <= l <= |acts|
    ensures Inv(ws[k]) && Inv(ws[l])
    ensures Captured(ws[k].eps, ws[l].eps, ws[l].idA, At(ws[k], who))
  {
    RunInv(ws, acts, k);
    RunInv(ws, acts, l);
    hide Run;
    HistoryGrows(ws, acts, k, l);
    InvRooted(ws[l]);
    InvPeer(ws[k], who);
  }

  lemma InvRooted(w: World)
    requires Inv(w)
    ensures Rooted(w.eps, w.idA)
  {
    hide PartyOk;
  }

  lemma InvPeer(w: World, who: Party)
    requires Inv(w)
    ensures PeerOk(w.eps, At(w, who)) && StoreOk(w.eps, At(w, who))
  {}

  lemma UsedKeySafe(eps: seq<Epoch>, later: seq<Epoch>, idA: KeyId, p: Peer, x: Sent)
    requires Captured(eps, later, idA, p) && 1 <= x.epoch < |eps|
    requires SlotOf(x) == Slot(eps[x.epoch].key, x.frame.header.n)
    requires x.frame.ct.key == MessageKey(Advance(eps[x.epoch].chain, x.frame.header.n))
    requires x.epoch <= p.epoch && SlotOf(x) !in p.st.skipped
    requires x.epoch == p.epoch ==> x.frame.header.n < p.steps
    requires x.epoch + 1 == p.epoch ==> x.frame.header.n < p.st.nr
    ensures !Derivable(Snapshot(p.st), x.frame.ct.key)
  {
    assert |eps| <= |later| && later[x.epoch].key == eps[x.epoch].key && later[x.epoch].chain == eps[x.epoch].chain;
    hide Captured, Snapshot, Derivable;
    SnapshotReveals(eps, later, idA, p, x.epoch, x.frame.header.n);
  }

  /** Forward secrecy, for what was sent: from a session captured at any moment, and all
      public keys, past and future, no message key already used to send is derivable. */
  lemma ForwardSecrecySent(ws: seq<World>, acts: seq<Action>, k: nat, who: Party, i: nat)
    requires Run(ws, acts) && k <= |acts| && i < |At(ws[k], who).log|
    ensures !Derivable(Snapshot(At(ws[k], who).st), At(ws[k], who).log[i].frame.ct.key)
  {
    hide *;
    RunLength(ws, acts);
    RunCaptured(ws, acts, k, k, who);
    FrameInLog(ws[k], who, i);
    OwnSlotNotStored(ws[k], who, i);
    UsedKeySafe(ws[k].eps, ws[k].eps, ws[k].idA, At(ws[k], who), At(ws[k], who).log[i]);
  }

  lemma OwnSlotNotStored(w: World, who: Party, i: nat)
    requires Inv(w) && i < |At(w, who).log|
    ensures var p, x := At(w, who), At(w, who).log[i];
            && x.epoch <= p.epoch && (p.epoch - x.epoch) % 2 == 0
            && (x.epoch == p.epoch ==> x.frame.header.n < p.steps)
            && SlotOf(x) !in p.st.skipped
  {
    hide PeerOk, StoreOk, LogOk, GotOk, Balanced;
    Take(w, who);
    OwnSlotApart(w.eps, At(w, who), i);
  }

  lemma OwnSlotApart(eps: seq<Epoch>, p: Peer, i: nat)
    requires PeerOk(eps, p) && StoreOk(eps, p) && LogOk(eps, p) && DistinctKeys(eps) && i < |p.log|
    ensures var x := p.log[i];
            && x.epoch <= p.epoch && (p.epoch - x.epoch) % 2 == 0
            && (x.epoch == p.epoch ==> x.frame.header.n < p.steps)
            && SlotOf(x) !in p.st.skipped
  {
    var x := p.log[i];
    assert SentOk(eps, p, x);
    assert SlotOf(x) in p.st.skipped ==> KnownSlot(eps, p, SlotOf(x));
    hide StoreOk, LogOk;
  }

  /** Forward secrecy, for what was read: nor is any message key already consumed in
      reading, in this chain or an earlier one. */
  lemma ForwardSecrecyRead(ws: seq<World>, acts: seq<Action>, k: nat, who: Party, i: nat)
    requires Run(ws, acts) && k <= |acts| && i in At(ws[k], who).got
    ensures i < |At(ws[k], Other(who)).log|
    ensures !Derivable(Snapshot(At(ws[k], who).st), At(ws[k], Other(who)).log[i].frame.ct.key)
  {
    hide Run, Inv, Captured, Snapshot, Derivable, Shaped;
    RunLength(ws, acts);
    RunCaptured(ws, acts, k, k, who);
    GotInLog(ws[k], who, i);
    FrameInLog(ws[k], Other(who), i);
    StoreIsPassedUnread(ws, acts, k, who, i);
    UsedKeySafe(ws[k].eps, ws[k].eps, ws[k].idA, At(ws[k], who), At(ws[k], Other(who)).log[i]);
  }

  lemma GotInLog(w: World, who: Party, i: nat)
    requires Inv(w) && i in At(w, who).got
    ensures i < |At(w, Other(who)).log|
  {}

  /** Post-compromise healing: whatever the run does after the capture, no message key
      is derivable on any chain rooted at or after the captured party's first new key
      pair, and every key of the peer's chain before that is. */
  lemma HealingBoundary(ws: seq<World>, acts: seq<Action>, k: nat, l: nat, who: Party, j: nat, n: nat)
    requires Run(ws, acts) && k <= l <= |acts|
    requires At(ws[k], who).epoch < j < |ws[l].eps|
    ensures Derivable(Snapshot(At(ws[k], who).st), KeyAt(ws[l].eps, j, n)) <==> j == At(ws[k], who).epoch + 1
  {
    hide Run, Inv, Captured, Snapshot, Derivable;
    RunLength(ws, acts);
    RunCaptured(ws, acts, k, l, who);
    var p := At(ws[k], who);
    SnapshotReveals(ws[k].eps, ws[l].eps, ws[l].idA, p, j, n);
    LaterSlotNotStored(ws[k].eps, ws[l].eps, ws[l].idA, p, j, n);
  }

  lemma LaterSlotNotStored(eps: seq<Epoch>, later: seq<Epoch>, idA: KeyId, p: Peer, j: nat, n: nat)
    requires Captured(eps, later, idA, p) && p.epoch <= j < |later|
    ensures Slot(later[j].key, n) !in p.st.skipped
  {
    assert Slot(later[j].key, n) in p.st.skipped ==> KnownSlot(eps, p, Slot(later[j].key, n));
    assert forall i :: Receives(p, i) ==> eps[i].key == later[i].key && later[i].key != later[j].key;
  }

  /** The sending chain party `x` is on in world `w` is closed to the captured session:
      no key it may still send under is derivable. */
  ghost predicate Healed(kn: Knowledge, w: World, x: Peer)
    requires x.epoch < |w.eps|
  {
    forall n :: x.steps <= n ==> !Derivable(kn, KeyAt(w.eps, x.epoch, n))
  }

  /** When a captured party's channel is closed again, exactly.  Its own sending chain
      heals when it first turns the ratchet after the capture, that is with the first
      answer it reads.  The peer's sending chain heals only one turn later, when the
      peer has in turn read a frame of that new chain: one ping and one pong leave the
      peer's chain exposed. */
  lemma HealsExactly(ws: seq<World>, acts: seq<Action>, k: nat, l: nat, who: Party)
    requires Run(ws, acts) && k <= l <= |acts|
    ensures var e, p, q := At(ws[k], who).epoch, At(ws[l], who), At(ws[l], Other(who));
            var kn := Snapshot(At(ws[k], who).st);
            && p.epoch < |ws[l].eps| && q.epoch < |ws[l].eps|
            && (p.epoch >= 1 ==> (Healed(kn, ws[l], p) <==> p.epoch >= e + 2))
            && (q.epoch >= 1 ==> (Healed(kn, ws[l], q) <==> q.epoch >= e + 3))
  {
    hide *;
    RunLength(ws, acts);
    RunCaptured(ws, acts, k, l, who);
    EpochParity(ws, acts, k, l, who);
    if At(ws[l], who).epoch >= 1 {
      HealedIff(ws[k].eps, ws[l], At(ws[k], who), At(ws[l], who));
    }
    if At(ws[l], Other(who)).epoch >= 1 {
      HealedIff(ws[k].eps, ws[l], At(ws[k], who), At(ws[l], Other(who)));
    }
  }

  lemma EpochParity(ws: seq<World>, acts: seq<Action>, k: nat, l: nat, who: Party)
    requires Run(ws, acts) && k <= l <= |acts|
    ensures var e, p, q := At(ws[k], who).epoch, At(ws[l], who), At(ws[l], Other(who));
            && p.epoch % 2 == e % 2 && q.epoch % 2 != e % 2
            && e <= p.epoch && (q.epoch == p.epoch + 1 || p.epoch == q.epoch + 1)
            && p.epoch < |ws[l].eps| && q.epoch < |ws[l].eps|
  {
    hide Run, PartyOk, EpochsOk;
    RunLength(ws, acts);
    RunInv(ws, acts, k);
    RunInv(ws, acts, l);
    HistoryGrows(ws, acts, k, l);
  }

  lemma HealedIff(eps: seq<Epoch>, w: World, p: Peer, x: Peer)
    requires Captured(eps, w.eps, w.idA, p) && x.epoch < |w.eps| && p.epoch <= x.epoch + 1
    requires 1 <= x.epoch
    ensures Healed(Snapshot(p.st), w, x) <==> x.epoch >= p.epoch + 2
  {
    var kn := Snapshot(p.st);
    if x.epoch >= p.epoch + 2 {
      forall n: nat | x.steps <= n ensures !Derivable(kn, KeyAt(w.eps, x.epoch, n)) {
        SnapshotReveals(eps, w.eps, w.idA, p, x.epoch, n);
        LaterSlotNotStored(eps, w.eps, w.idA, p, x.epoch, n);
      }
    } else {
      var n := x.steps + p.steps + p.st.nr;
      SnapshotReveals(eps, w.eps, w.idA, p, x.epoch, n);
      assert Exposed(w.eps, p, x.epoch, n);
    }
  }

  /** Route A's known limit, exactly: the two identity keys alone expose Alice's first
      chain, every message of it, and nothing after it. */
  lemma IdentityLeakExposesFirstChain(ws: seq<World>, acts: seq<Action>, k: nat, j: nat, n: nat)
    requires Run(ws, acts) && k <= |acts| && 1 <= j < |ws[k].eps|
    ensures Derivable(Knowledge({}, {ws[k].idA, ws[k].eps[0].key}), KeyAt(ws[k].eps, j, n)) <==> j == 1
  {
    hide Run, Inv;
    RunLength(ws, acts);
    RunInv(ws, acts, k);
    InvRooted(ws[k]);
    var kn := Knowledge({}, {ws[k].idA, ws[k].eps[0].key});
    IdentityChain(ws[k].eps, ws[k].idA, j, n);
    ClosureDecided(kn, KeyAt(ws[k].eps, j, n));
  }

  lemma {:induction false} IdentityChain(eps: seq<Epoch>, idA: KeyId, j: nat, n: nat)
    requires Rooted(eps, idA) && 1 <= j < |eps|
    ensures CanDerive(Knowledge({}, {idA, eps[0].key}), Advance(eps[j].chain, n)) <==> j == 1
  {
    if n > 0 {
      IdentityChain(eps, idA, j, n - 1);
    } else {
      assert eps[j].chain == ChainKey(eps[j - 1].root, DhOf(eps[j].key, eps[j - 1].key));
      assert eps[0].root == SharedSecret(DhOf(idA, eps[0].key));
    }
  }
}
