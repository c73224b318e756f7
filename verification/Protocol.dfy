/**
 Two ratchet sessions and the frames between them, as one transition system.

 The network may drop, delay and reorder frames and may offer a frame again until it
 has been read, but it neither alters a frame nor hands over one already read.
 Random choices (nonce, new key pair) are parameters of the step, and a new key pair
 is one never drawn before.

 Besides the two sessions a world keeps history variables: one `Epoch` per ratchet
 key ever introduced, in order.  Epoch 0 is Bob's identity key, odd epochs are
 Alice's keys and even epochs Bob's; epoch j >= 1 owns the sending chain rooted in
 the exchange of keys j-1 and j.
 */
module Protocol {
  import opened Wrappers
  import opened Bytes
  import opened Crypto
  import opened Ratchet

  datatype Party = Alice | Bob

  function Other(who: Party): Party {
    if who == Alice then Bob else Alice
  }

  /** `sent` counts the frames sent on the chain so far. */
  datatype Epoch = Epoch(key: KeyId, root: Key, chain: Key, sent: nat)

  datatype Sent = Sent(frame: Frame, plain: Plaintext, epoch: nat)

  /** One party: its session, the epoch of its own ratchet key, how often its sending
      chain was stepped, what it sent, which of the other's frames it has read (in
      reading order) and the positions of those. */
  datatype Peer = Peer(st: State, epoch: nat, steps: nat, log: seq<Sent>, got: seq<nat>, read: set<Slot>)

  datatype World = World(alice: Peer, bob: Peer, eps: seq<Epoch>, used: set<KeyId>, idA: KeyId)

  function At(w: World, who: Party): Peer {
    if who == Alice then w.alice else w.bob
  }

  function With(w: World, who: Party, p: Peer): World {
    if who == Alice then w.(alice := p) else w.(bob := p)
  }

  function SlotOf(x: Sent): Slot {
    Slot(x.frame.header.dh, x.frame.header.n)
  }

  // ---- behaviour ---------------------------------------------------------------

  /** Route A: the initial secret comes from the two identity keys and Bob's identity
      key is his first ratchet key. */
  function Start(idA: KeyId, idB: KeyId, drawn: KeyId): World {
    var sk := SharedSecret(DhOf(idA, idB));
    var d := DhOf(drawn, idB);
    World(Peer(InitAlice(sk, drawn, idB), 1, 0, [], [], {}),
          Peer(InitBob(sk, idB), 0, 0, [], [], {}),
          [Epoch(idB, sk, sk, 0), Epoch(drawn, RootKey(sk, d), ChainKey(sk, d), 0)],
          {idA, idB, drawn}, idA)
  }

  datatype Action =
    | Send(who: Party, plain: Plaintext, cipher: Cipher, nonce: Nonce)
    | Deliver(to: Party, i: nat, drawn: KeyId)

  predicate Shaped(w: World) {
    && WellFormed(w.alice.st) && WellFormed(w.bob.st)
    && w.alice.epoch < |w.eps| && w.bob.epoch < |w.eps|
  }

  predicate Enabled(w: World, a: Action) {
    a.Deliver? ==>
      && a.i < |At(w, Other(a.to)).log|
      && a.i !in At(w, a.to).got
      && a.drawn !in w.used
  }

  /** What the receiver's call returns for a delivery. */
  function Outcome(w: World, a: Action): Result<Plaintext, Error>
    requires Shaped(w) && Enabled(w, a) && a.Deliver?
  {
    Decrypt(At(w, a.to).st, At(w, Other(a.to)).log[a.i].frame, a.drawn).1
  }

  function SendStep(w: World, who: Party, pt: Plaintext, cipher: Cipher, nonce: Nonce): World
    requires Shaped(w)
  {
    var p := At(w, who);
    var (st, r) := Encrypt(p.st, pt, cipher, nonce);
    var p1 := p.(st := st, steps := if p.st.cks.Some? then p.steps + 1 else p.steps);
    if r.Err? then With(w, who, p1) else
    var e := w.eps[p.epoch];
    With(w, who, p1.(log := p.log + [Sent(r.value, pt, p.epoch)]))
      .(eps := w.eps[p.epoch := e.(sent := e.sent + 1)])
  }

  /** The epoch a party opens by answering the other's epoch `e + 1`. */
  function NextEpoch(st: State, theirs: KeyId, drawn: KeyId): Epoch {
    var root := RootKey(st.rk, DhOf(st.dhs, theirs));
    var d := DhOf(drawn, theirs);
    Epoch(drawn, RootKey(root, d), ChainKey(root, d), 0)
  }

  function DeliverStep(w: World, to: Party, i: nat, drawn: KeyId): World
    requires Shaped(w) && i < |At(w, Other(to)).log|
  {
    var p, x := At(w, to), At(w, Other(to)).log[i];
    var (st, r) := Decrypt(p.st, x.frame, drawn);
    var p1 := p.(st := st,
                 got := if r.Ok? then p.got + [i] else p.got,
                 read := if r.Ok? then p.read + {SlotOf(x)} else p.read);
    if st.dhs == p.st.dhs then With(w, to, p1) else
    With(w, to, p1.(epoch := p.epoch + 2, steps := 0))
      .(eps := w.eps + [NextEpoch(p.st, x.frame.header.dh, drawn)], used := w.used + {drawn})
  }

  function Step(w: World, a: Action): World
    requires Shaped(w) && Enabled(w, a)
  {
    match a
    case Send(who, pt, cipher, nonce) => SendStep(w, who, pt, cipher, nonce)
    case Deliver(to, i, drawn) => DeliverStep(w, to, i, drawn)
  }

  /** A finite run: ws[0] is an initial world and acts[k] leads from ws[k] to ws[k+1]. */
  ghost predicate Run(ws: seq<World>, acts: seq<Action>) {
    && |ws| == |acts| + 1
    && (exists idA, idB, drawn :: idA != idB && drawn != idA && drawn != idB && ws[0] == Start(idA, idB, drawn))
    && forall k :: 0 <= k < |acts| ==> Shaped(ws[k]) && Enabled(ws[k], acts[k]) && ws[k + 1] == Step(ws[k], acts[k])
  }

  // ---- the invariant --------------------------------------------------------------

  /** Keys are distinct and each epoch's root and chain come from its predecessor. */
  ghost predicate EpochsOk(eps: seq<Epoch>, used: set<KeyId>, idA: KeyId) {
    && |eps| >= 2
    && eps[0].sent == 0
    && eps[0].root == SharedSecret(DhOf(idA, eps[0].key))
    && (forall j :: 1 <= j < |eps| ==>
         && eps[j].root == RootKey(eps[j - 1].root, DhOf(eps[j].key, eps[j - 1].key))
         && eps[j].chain == ChainKey(eps[j - 1].root, DhOf(eps[j].key, eps[j - 1].key)))
    && (forall j, k :: 0 <= j < k < |eps| ==> eps[j].key != eps[k].key)
    && (forall j :: 0 <= j < |eps| ==> eps[j].key in used && eps[j].key != idA)
    && idA in used
  }

  function PrevSent(eps: seq<Epoch>, e: nat): nat
    requires e < |eps|
  {
    if e >= 2 then eps[e - 2].sent else 0
  }

  /** The session of the party at epoch e: own key e, peer key e-1, root key e, its
      sending chain e and the peer's chain e-1, each advanced as the counters say. */
  ghost predicate PeerOk(eps: seq<Epoch>, p: Peer) {
    var e, st := p.epoch, p.st;
    && e < |eps|
    && st.dhs == eps[e].key
    && st.dhr == (if e == 0 then None else Some(eps[e - 1].key))
    && st.rk == eps[e].root
    && st.cks == (if e == 0 then None else Some(Advance(eps[e].chain, p.steps)))
    && st.ckr == (if e < 2 then None else Some(Advance(eps[e - 1].chain, st.nr)))
    && st.nr <= (if e < 2 then 0 else eps[e - 1].sent)
    && st.ns == eps[e].sent
    && st.pn == PrevSent(eps, e)
    && st.ns <= p.steps
    && (st.ns < TWO32 && st.pn < TWO32 ==> p.steps == st.ns)
  }

  /** Chain j is one the party receives on, now or earlier. */
  predicate Receives(p: Peer, j: int) {
    1 <= j < p.epoch && (p.epoch - j) % 2 == 1
  }

  /** How far the party has moved along chain j. */
  function Passed(eps: seq<Epoch>, p: Peer, j: int): nat
    requires Receives(p, j) && p.epoch < |eps|
  {
    if j == p.epoch - 1 then p.st.nr else eps[j].sent
  }

  /** Position n of chain j has been passed and not read: exactly then its message key
      is in store. */
  ghost predicate StoredAt(eps: seq<Epoch>, p: Peer, j: int, n: nat)
    requires p.epoch < |eps|
  {
    Receives(p, j) ==>
      var sl := Slot(eps[j].key, n);
      && (sl in p.st.skipped <==> n < Passed(eps, p, j) && sl !in p.read)
      && (sl in p.st.skipped ==> p.st.skipped[sl] == MessageKey(Advance(eps[j].chain, n)))
      && (sl in p.read ==> n < Passed(eps, p, j))
  }

  ghost predicate KnownSlot(eps: seq<Epoch>, p: Peer, sl: Slot)
    requires p.epoch < |eps|
  {
    exists j :: Receives(p, j) && eps[j].key == sl.dh
  }

  ghost predicate StoreOk(eps: seq<Epoch>, p: Peer)
    requires p.epoch < |eps|
  {
    && (forall j, n: nat :: StoredAt(eps, p, j, n))
    && (forall sl :: sl in p.st.skipped || sl in p.read ==> KnownSlot(eps, p, sl))
  }

  ghost predicate SentOk(eps: seq<Epoch>, p: Peer, x: Sent) {
    var h := x.frame.header;
    && 1 <= x.epoch <= p.epoch < |eps| && (p.epoch - x.epoch) % 2 == 0
    && h.dh == eps[x.epoch].key
    && h.n < eps[x.epoch].sent
    && h.pn == PrevSent(eps, x.epoch)
    && Encodable(h)
    && x.frame.ct == Sealed(h.cipher, MessageKey(Advance(eps[x.epoch].chain, h.n)), x.frame.nonce, x.plain, h)
  }

  ghost predicate LogOk(eps: seq<Epoch>, p: Peer) {
    && (forall i :: 0 <= i < |p.log| ==> SentOk(eps, p, p.log[i]))
    && (forall i, k :: 0 <= i < k < |p.log| ==> SlotOf(p.log[i]) != SlotOf(p.log[k]))
  }

  /** `got` and `read` describe the same frames of the sender's log. */
  ghost predicate GotOk(s: Peer, r: Peer) {
    && (forall k :: 0 <= k < |r.got| ==> r.got[k] < |s.log|)
    && (forall k, l :: 0 <= k < l < |r.got| ==> r.got[k] != r.got[l])
    && (forall i :: 0 <= i < |s.log| ==> (i in r.got <==> SlotOf(s.log[i]) in r.read))
  }

  function SumSent(eps: seq<Epoch>, j: int): nat
    requires j < |eps|
    decreases j
  {
    if j < 1 then 0 else eps[j].sent + SumSent(eps, j - 2)
  }

  /** Receive positions advanced over all of the party's receiving chains. */
  function Advanced(eps: seq<Epoch>, p: Peer): nat
    requires p.epoch < |eps|
  {
    p.st.nr + SumSent(eps, p.epoch - 3)
  }

  /** Every position advanced is either read or in store. */
  predicate Balanced(eps: seq<Epoch>, p: Peer)
    requires p.epoch < |eps|
  {
    |p.got| + |p.st.skipped| == Advanced(eps, p)
  }

  ghost predicate PartyOk(eps: seq<Epoch>, me: Peer, other: Peer) {
    && PeerOk(eps, me) && StoreOk(eps, me) && LogOk(eps, me) && GotOk(other, me) && Balanced(eps, me)
  }

  ghost predicate Inv(w: World) {
    && EpochsOk(w.eps, w.used, w.idA)
    && w.alice.epoch % 2 == 1 && w.bob.epoch % 2 == 0
    && (w.alice.epoch == w.bob.epoch + 1 || w.bob.epoch == w.alice.epoch + 1)
    && |w.eps| == 1 + (if w.alice.epoch > w.bob.epoch then w.alice.epoch else w.bob.epoch)
    && PartyOk(w.eps, w.alice, w.bob)
    && PartyOk(w.eps, w.bob, w.alice)
  }

  lemma StartInv(idA: KeyId, idB: KeyId, drawn: KeyId)
    requires idA != idB && drawn != idA && drawn != idB
    ensures Inv(Start(idA, idB, drawn))
  {}

  lemma InvShaped(w: World)
    requires Inv(w)
    ensures Shaped(w) && w.alice.epoch % 2 == 1 && w.bob.epoch % 2 == 0
  {}

  // ---- sending keeps the invariant ---------------------------------------------

  lemma KnownKept(eps: seq<Epoch>, p: Peer, eps1: seq<Epoch>, p1: Peer, sl: Slot)
    requires p.epoch < |eps| <= |eps1| && (p1.epoch == p.epoch || p1.epoch == p.epoch + 2) && p1.epoch < |eps1|
    requires forall j :: 0 <= j < |eps| ==> eps1[j].key == eps[j].key
    requires KnownSlot(eps, p, sl)
    ensures KnownSlot(eps1, p1, sl)
  {
    var j :| Receives(p, j) && eps[j].key == sl.dh;
    assert Receives(p1, j) && eps1[j].key == sl.dh;
  }

  /** Raising the count of a chain that `p` neither owns nor has left behind. */
  lemma CountKeepsStore(eps: seq<Epoch>, p: Peer, e: nat)
    requires e < |eps| && p.epoch < |eps| && (e + 1 == p.epoch || e == p.epoch || e == p.epoch + 1) && StoreOk(eps, p)
    ensures StoreOk(Counted(eps, e), p)
  {
    var eps1 := Counted(eps, e);
    forall j, n: nat ensures StoredAt(eps1, p, j, n) {
      assert StoredAt(eps, p, j, n);
    }
    forall sl | sl in p.st.skipped || sl in p.read ensures KnownSlot(eps1, p, sl) {
      KnownKept(eps, p, eps1, p, sl);
    }
  }

  lemma CountKeepsPeer(eps: seq<Epoch>, p: Peer, e: nat)
    requires e < |eps| && p.epoch < |eps| && (e + 1 == p.epoch || e == p.epoch + 1)
    requires PeerOk(eps, p) && StoreOk(eps, p) && LogOk(eps, p) && Balanced(eps, p)
    ensures PeerOk(Counted(eps, e), p) && StoreOk(Counted(eps, e), p)
    ensures LogOk(Counted(eps, e), p) && Balanced(Counted(eps, e), p)
  {
    CountKeepsStore(eps, p, e);
    hide StoreOk;
    CountKeepsLog(eps, p, p, e);
    BalanceKept(eps, p, p, e);
  }

  lemma CountKeepsLog(eps: seq<Epoch>, p: Peer, p1: Peer, e: nat)
    requires e < |eps| && LogOk(eps, p) && p1.epoch == p.epoch && p1.log == p.log
    requires e == p.epoch || e + 1 == p.epoch || e == p.epoch + 1
    ensures LogOk(Counted(eps, e), p1)
  {
    forall i | 0 <= i < |p.log| ensures SentOk(Counted(eps, e), p1, p.log[i]) {
      assert SentOk(eps, p, p.log[i]);
    }
  }

  lemma {:induction false} SumIgnoresLater(eps: seq<Epoch>, eps1: seq<Epoch>, j: int)
    requires j < |eps| && j < |eps1|
    requires forall k :: 0 <= k <= j ==> eps[k].sent == eps1[k].sent
    ensures SumSent(eps, j) == SumSent(eps1, j)
    decreases j
  {
    if j >= 1 {
      SumIgnoresLater(eps, eps1, j - 2);
    }
  }

  /** What a successful call leaves: the session in step and the new frame well sealed. */
  lemma SentHere(eps: seq<Epoch>, p: Peer, pt: Plaintext, cipher: Cipher, nonce: Nonce)
    requires PeerOk(eps, p) && p.epoch >= 1 && Encodable(Header(cipher, p.st.dhs, p.st.pn, p.st.ns))
    ensures var (st, r) := Encrypt(p.st, pt, cipher, nonce);
            && r.Ok?
            && var x, p1 := Sent(r.value, pt, p.epoch), AfterSend(p, st, r.value, pt);
               && PeerOk(Counted(eps, p.epoch), p1) && SentOk(Counted(eps, p.epoch), p1, x)
               && SlotOf(x) == Slot(eps[p.epoch].key, eps[p.epoch].sent)
               && st.skipped == p.st.skipped && st.nr == p.st.nr
  {}

  lemma NewSlotInLog(eps: seq<Epoch>, p: Peer, x: Sent)
    requires LogOk(eps, p) && DistinctKeys(eps) && p.epoch < |eps|
    requires SlotOf(x) == Slot(eps[p.epoch].key, eps[p.epoch].sent)
    ensures forall i :: 0 <= i < |p.log| ==> SlotOf(p.log[i]) != SlotOf(x)
  {
    hide Advance;
    forall i | 0 <= i < |p.log| ensures SlotOf(p.log[i]) != SlotOf(x) {
      assert SentOk(eps, p, p.log[i]);
    }
  }

  lemma LogGrows(eps: seq<Epoch>, p: Peer, p1: Peer, x: Sent)
    requires LogOk(eps, p) && SentOk(eps, p1, x) && p1.epoch == p.epoch && p1.log == p.log + [x]
    requires forall i :: 0 <= i < |p.log| ==> SlotOf(p.log[i]) != SlotOf(x)
    ensures LogOk(eps, p1)
  {
    hide Advance;
    forall i | 0 <= i < |p.log| ensures SentOk(eps, p1, p.log[i]) {
      assert SentOk(eps, p, p.log[i]);
    }
  }

  lemma BalanceKept(eps: seq<Epoch>, p: Peer, p1: Peer, e: nat)
    requires p.epoch < |eps| && Balanced(eps, p) && e < |eps| && p.epoch <= e + 1
    requires p1.epoch == p.epoch && p1.got == p.got && p1.st.skipped == p.st.skipped && p1.st.nr == p.st.nr
    ensures Balanced(Counted(eps, e), p1)
  {
    SumIgnoresLater(eps, Counted(eps, e), p.epoch - 3);
  }

  lemma SenderKept(eps: seq<Epoch>, p: Peer, pt: Plaintext, cipher: Cipher, nonce: Nonce)
    requires PeerOk(eps, p) && StoreOk(eps, p) && LogOk(eps, p) && Balanced(eps, p)
    requires p.epoch >= 1 && Encodable(Header(cipher, p.st.dhs, p.st.pn, p.st.ns)) && DistinctKeys(eps)
    ensures var (st, r) := Encrypt(p.st, pt, cipher, nonce);
            && r.Ok?
            && var eps1, p1 := Counted(eps, p.epoch), AfterSend(p, st, r.value, pt);
               && PeerOk(eps1, p1) && StoreOk(eps1, p1) && LogOk(eps1, p1) && Balanced(eps1, p1)
               && (forall i :: 0 <= i < |p.log| ==> SlotOf(p.log[i]) != SlotOf(Sent(r.value, pt, p.epoch)))
  {
    assert p.epoch < |eps|;
    hide PeerOk, StoreOk, LogOk, Balanced, Encrypt, SentOk, SlotOf, Counted, DistinctKeys;
    SentHere(eps, p, pt, cipher, nonce);
    var (st, r) := Encrypt(p.st, pt, cipher, nonce);
    var x, p1 := Sent(r.value, pt, p.epoch), AfterSend(p, st, r.value, pt);
    SameStore(eps, p, p1);
    CountKeepsStore(eps, p1, p.epoch);
    NewSlotInLog(eps, p, x);
    CountKeepsLog(eps, p, p, p.epoch);
    LogGrows(Counted(eps, p.epoch), p, p1, x);
    BalanceKept(eps, p, p1, p.epoch);
  }

  /** A frame newly sent sits at a position nobody has read. */
  lemma NewSlotUnread(eps: seq<Epoch>, s: Peer, r: Peer, x: Sent)
    requires PeerOk(eps, r) && StoreOk(eps, r) && s.epoch < |eps|
    requires s.epoch + 1 == r.epoch || s.epoch == r.epoch + 1
    requires x.epoch == s.epoch >= 1 && SlotOf(x) == Slot(eps[s.epoch].key, eps[s.epoch].sent)
    requires forall j, k :: 0 <= j < k < |eps| ==> eps[j].key != eps[k].key
    ensures SlotOf(x) !in r.read
  {
    assert forall j :: Receives(r, j) && eps[j].key == SlotOf(x).dh ==> j == s.epoch;
    assert StoredAt(eps, r, s.epoch, SlotOf(x).n);
    assert SlotOf(x) in r.read ==> KnownSlot(eps, r, SlotOf(x));
  }

  // ---- receiving keeps the invariant: four moves --------------------------------
  //
  // ratchet_decrypt is one of: take a stored key; or advance within the receiving
  // chain and take its next key; or finish the receiving chain, turn the ratchet,
  // advance and take.  Each move is proved on its own.

  ghost predicate Receiving(eps: seq<Epoch>, p: Peer) {
    PeerOk(eps, p) && StoreOk(eps, p) && Balanced(eps, p)
  }

  ghost predicate DistinctKeys(eps: seq<Epoch>) {
    forall j, k :: 0 <= j < k < |eps| ==> eps[j].key != eps[k].key
  }

  /** The party after its receiving chain advanced from its current place to `until`. */
  function Skipped(eps: seq<Epoch>, p: Peer, until: nat): Peer
    requires 2 <= p.epoch <= |eps| && p.st.ckr.Some? && p.st.nr <= until
  {
    var dh, ck, lo := eps[p.epoch - 1].key, p.st.ckr.value, p.st.nr;
    p.(st := p.st.(ckr := Some(Advance(ck, until - lo)), nr := until,
                   skipped := p.st.skipped + StoredKeys(dh, ck, lo, until)))
  }

  lemma SkipStoresHere(eps: seq<Epoch>, p: Peer, until: nat, n: nat)
    requires PeerOk(eps, p) && p.epoch >= 2 && p.st.nr <= until
    requires StoredAt(eps, p, p.epoch - 1, n)
    ensures StoredAt(eps, Skipped(eps, p, until), p.epoch - 1, n)
  {
    var c, lo := p.epoch - 1, p.st.nr;
    assert p.st.ckr == Some(Advance(eps[c].chain, lo)) && p.epoch < |eps|;
    hide PeerOk;
    StoredKeysAt(eps[c].key, p.st.ckr.value, lo, until, Slot(eps[c].key, n));
    if lo <= n {
      AdvanceSum(eps[c].chain, lo, n - lo);
    }
    hide StoredKeys, Advance;
    assert Receives(p, c);
  }

  lemma SkipStores(eps: seq<Epoch>, p: Peer, until: nat, j: int, n: nat)
    requires PeerOk(eps, p) && StoreOk(eps, p) && DistinctKeys(eps)
    requires p.epoch >= 2 && p.st.nr <= until
    ensures StoredAt(eps, Skipped(eps, p, until), j, n)
  {
    assert StoredAt(eps, p, j, n);
    hide StoreOk;
    if j == p.epoch - 1 {
      SkipStoresHere(eps, p, until, n);
    } else if Receives(p, j) {
      StoredKeysAt(eps[p.epoch - 1].key, p.st.ckr.value, p.st.nr, until, Slot(eps[j].key, n));
      hide StoredKeys, Advance, PeerOk;
    }
  }

  lemma SkippedFields(eps: seq<Epoch>, p: Peer, until: nat)
    requires PeerOk(eps, p) && p.epoch >= 2 && p.st.nr <= until
    ensures p.epoch < |eps| && p.st.ckr.Some?
    ensures var q := Skipped(eps, p, until);
            && q.got == p.got && q.read == p.read && q.epoch == p.epoch && q.st.nr == until
            && q.st.skipped == p.st.skipped + StoredKeys(eps[p.epoch - 1].key, p.st.ckr.value, p.st.nr, until)
  {
    hide StoredKeys, Advance;
  }

  lemma SkipKnows(eps: seq<Epoch>, p: Peer, until: nat, sl: Slot)
    requires PeerOk(eps, p) && StoreOk(eps, p) && p.epoch >= 2 && p.st.nr <= until
    requires sl in Skipped(eps, p, until).st.skipped || sl in p.read
    ensures KnownSlot(eps, Skipped(eps, p, until), sl)
  {
    SkippedFields(eps, p, until);
    hide PeerOk, StoredKeys, StoredAt, Skipped;
    var p1 := Skipped(eps, p, until);
    if sl in p.st.skipped || sl in p.read {
      KnownKept(eps, p, eps, p1, sl);
    } else {
      StoredKeysAt(eps[p.epoch - 1].key, p.st.ckr.value, p.st.nr, until, sl);
      assert Receives(p1, p.epoch - 1);
    }
  }

  lemma SkippedStore(eps: seq<Epoch>, p: Peer, until: nat)
    requires Receiving(eps, p) && DistinctKeys(eps)
    requires p.epoch >= 2 && p.st.nr <= until
    ensures StoreOk(eps, Skipped(eps, p, until))
  {
    assert Skipped(eps, p, until).epoch == p.epoch < |eps|;
    assert Skipped(eps, p, until).read == p.read;
    hide PeerOk, Balanced, Skipped, Receiving;
    forall j, n: nat ensures StoredAt(eps, Skipped(eps, p, until), j, n) {
      SkipStores(eps, p, until, j, n);
    }
    forall sl | sl in Skipped(eps, p, until).st.skipped || sl in p.read
      ensures KnownSlot(eps, Skipped(eps, p, until), sl)
    {
      SkipKnows(eps, p, until, sl);
    }
  }

  lemma SkippedPeer(eps: seq<Epoch>, p: Peer, until: nat)
    requires PeerOk(eps, p) && p.epoch >= 2 && p.st.nr <= until <= eps[p.epoch - 1].sent
    ensures PeerOk(eps, Skipped(eps, p, until))
  {
    AdvanceSum(eps[p.epoch - 1].chain, p.st.nr, until - p.st.nr);
    hide StoredKeys, Advance;
  }

  lemma SkippedShape(eps: seq<Epoch>, p: Peer, until: nat)
    requires Receiving(eps, p) && p.epoch >= 2 && p.st.nr <= until
    ensures var q := Skipped(eps, p, until);
            && q.got == p.got && q.epoch == p.epoch < |eps| && q.st.nr == until
            && |q.st.skipped| == |p.st.skipped| + (until - p.st.nr)
  {
    hide PeerOk, StoreOk, Balanced, Skipped, StoredKeys;
    SkippedFields(eps, p, until);
    SkipStoresAll(eps, p, until);
  }

  lemma SkippedBalanced(eps: seq<Epoch>, p: Peer, until: nat)
    requires Receiving(eps, p) && p.epoch >= 2 && p.st.nr <= until && p.st.ckr.Some?
    ensures Skipped(eps, p, until).epoch < |eps|
    ensures Balanced(eps, Skipped(eps, p, until))
  {
    hide Skipped, PeerOk, StoreOk;
    SkippedShape(eps, p, until);
  }

  lemma SkippedReceiving(eps: seq<Epoch>, p: Peer, until: nat)
    requires Receiving(eps, p) && DistinctKeys(eps)
    requires p.epoch >= 2 && p.st.nr <= until <= eps[p.epoch - 1].sent
    ensures p.st.ckr.Some?
    ensures Receiving(eps, Skipped(eps, p, until))
  {
    assert p.epoch <= |eps| && p.st.ckr.Some?;
    assert PeerOk(eps, p);
    hide PeerOk, StoreOk, Balanced, DistinctKeys, Skipped;
    SkippedPeer(eps, p, until);
    SkippedStore(eps, p, until);
    SkippedBalanced(eps, p, until);
  }

  /** Advance the receiving chain to `until`, storing the keys on the way. */
  lemma SkipMove(eps: seq<Epoch>, p: Peer, until: nat)
    requires Receiving(eps, p) && DistinctKeys(eps)
    requires Skip(p.st, until).Some?
    requires p.epoch >= 2 ==> until <= eps[p.epoch - 1].sent
    ensures var p1 := p.(st := Skip(p.st, until).value);
            && Receiving(eps, p1)
            && (p.epoch >= 2 && p.st.nr <= until ==> p1.st.nr == until)
  {
    hide StoreOk, Balanced, LogOk, StoredKeys, Advance, DistinctKeys;
    if p.epoch >= 2 && p.st.nr < until {
      SkippedReceiving(eps, p, until);
      assert Skipped(eps, p, until) == p.(st := Skip(p.st, until).value);
    } else {
      assert p.(st := Skip(p.st, until).value) == p;
    }
  }

  lemma SkipStoresAll(eps: seq<Epoch>, p: Peer, until: nat)
    requires Receiving(eps, p) && p.epoch >= 2 && p.st.nr <= until
    ensures |p.st.skipped + StoredKeys(eps[p.epoch - 1].key, p.st.ckr.value, p.st.nr, until)|
         == |p.st.skipped| + (until - p.st.nr)
  {
    var dh, ck, lo := eps[p.epoch - 1].key, p.st.ckr.value, p.st.nr;
    var more := StoredKeys(dh, ck, lo, until);
    forall sl | sl in more ensures sl !in p.st.skipped {
      StoredKeysAt(dh, ck, lo, until, sl);
      assert Receives(p, p.epoch - 1);
      assert StoredAt(eps, p, p.epoch - 1, sl.n);
    }
    StoredKeysSize(dh, ck, lo, until);
    UnionSize(p.st.skipped, more);
  }

  /** The party after answering epoch `p.epoch + 1`. */
  function Answered(p: Peer, dh: KeyId, drawn: KeyId): Peer {
    p.(st := DhRatchet(p.st, dh, drawn), epoch := p.epoch + 2, steps := 0)
  }

  lemma TurnStores(eps: seq<Epoch>, p: Peer, drawn: KeyId, e: Epoch)
    requires p.epoch + 2 == |eps| && StoreOk(eps, p)
    requires p.epoch >= 2 ==> p.st.nr == eps[p.epoch - 1].sent
    requires forall sl :: sl in p.st.skipped || sl in p.read ==> sl.dh != eps[p.epoch + 1].key
    ensures StoreOk(eps + [e], Answered(p, eps[p.epoch + 1].key, drawn))
  {
    var eps1, p1 := eps + [e], Answered(p, eps[p.epoch + 1].key, drawn);
    forall j, n: nat ensures StoredAt(eps1, p1, j, n) {
      assert StoredAt(eps, p, j, n);
    }
    forall sl | sl in p1.st.skipped || sl in p1.read ensures KnownSlot(eps1, p1, sl) {
      KnownKept(eps, p, eps1, p1, sl);
    }
  }

  lemma TurnPeer(eps: seq<Epoch>, p: Peer, drawn: KeyId)
    requires PeerOk(eps, p) && p.epoch + 2 == |eps|
    requires eps[p.epoch + 1].root == RootKey(eps[p.epoch].root, DhOf(eps[p.epoch + 1].key, eps[p.epoch].key))
    requires eps[p.epoch + 1].chain == ChainKey(eps[p.epoch].root, DhOf(eps[p.epoch + 1].key, eps[p.epoch].key))
    ensures var dh := eps[p.epoch + 1].key;
            var e := NextEpoch(p.st, dh, drawn);
            && PeerOk(eps + [e], Answered(p, dh, drawn))
            && e.root == RootKey(eps[p.epoch + 1].root, DhOf(drawn, dh))
            && e.chain == ChainKey(eps[p.epoch + 1].root, DhOf(drawn, dh))
  {}

  lemma TurnBalance(eps: seq<Epoch>, p: Peer, drawn: KeyId, e: Epoch)
    requires p.epoch + 2 == |eps| && Balanced(eps, p)
    requires p.st.nr == if p.epoch >= 2 then eps[p.epoch - 1].sent else 0
    ensures Balanced(eps + [e], Answered(p, eps[p.epoch + 1].key, drawn))
  {
    SumIgnoresLater(eps, eps + [e], p.epoch - 1);
  }

  /** Answer the peer's new ratchet key, the old receiving chain being fully passed. */
  lemma TurnMove(eps: seq<Epoch>, p: Peer, drawn: KeyId)
    requires Receiving(eps, p) && p.epoch + 2 == |eps|
    requires p.epoch >= 2 ==> p.st.nr == eps[p.epoch - 1].sent
    requires eps[p.epoch + 1].root == RootKey(eps[p.epoch].root, DhOf(eps[p.epoch + 1].key, eps[p.epoch].key))
    requires eps[p.epoch + 1].chain == ChainKey(eps[p.epoch].root, DhOf(eps[p.epoch + 1].key, eps[p.epoch].key))
    requires forall sl :: sl in p.st.skipped || sl in p.read ==> sl.dh != eps[p.epoch + 1].key
    ensures var dh := eps[p.epoch + 1].key;
            var e := NextEpoch(p.st, dh, drawn);
            && Receiving(eps + [e], Answered(p, dh, drawn))
            && e.root == RootKey(eps[p.epoch + 1].root, DhOf(drawn, dh))
            && e.chain == ChainKey(eps[p.epoch + 1].root, DhOf(drawn, dh))
  {
    assert p.st.nr == if p.epoch >= 2 then eps[p.epoch - 1].sent else 0;
    hide PeerOk, StoreOk, Balanced, NextEpoch;
    var e := NextEpoch(p.st, eps[p.epoch + 1].key, drawn);
    TurnPeer(eps, p, drawn);
    TurnStores(eps, p, drawn, e);
    TurnBalance(eps, p, drawn, e);
  }

  /** Take the next key of the receiving chain and read a frame with it. */
  lemma TakeMove(eps: seq<Epoch>, p: Peer, i: nat)
    requires Receiving(eps, p) && DistinctKeys(eps)
    requires p.epoch >= 2 && p.st.nr < eps[p.epoch - 1].sent
    ensures var sl := Slot(eps[p.epoch - 1].key, p.st.nr);
            var st1 := p.st.(ckr := Some(NextKey(p.st.ckr.value)), nr := p.st.nr + 1);
            var p1 := p.(st := st1, got := p.got + [i], read := p.read + {sl});
            Receiving(eps, p1)
  {
    var c := p.epoch - 1;
    var sl := Slot(eps[c].key, p.st.nr);
    var st1 := p.st.(ckr := Some(NextKey(p.st.ckr.value)), nr := p.st.nr + 1);
    var p1 := p.(st := st1, got := p.got + [i], read := p.read + {sl});
    assert Receives(p, c);
    forall j, n: nat ensures StoredAt(eps, p1, j, n) {
      assert StoredAt(eps, p, j, n);
      assert Receives(p1, j) == Receives(p, j);
    }
    forall s | s in p1.st.skipped || s in p1.read ensures KnownSlot(eps, p1, s) {
      if s == sl {
        assert Receives(p1, c) && eps[c].key == s.dh;
      } else {
        KnownKept(eps, p, eps, p1, s);
      }
    }
  }

  function Popped(p: Peer, sl: Slot, i: nat): Peer {
    p.(st := p.st.(skipped := p.st.skipped - {sl}), got := p.got + [i], read := p.read + {sl})
  }

  lemma PopStores(eps: seq<Epoch>, p: Peer, sl: Slot, i: nat, j: int, n: nat)
    requires Receiving(eps, p) && DistinctKeys(eps)
    requires sl in p.st.skipped
    ensures StoredAt(eps, Popped(p, sl, i), j, n)
  {
    assert StoredAt(eps, p, j, n);
    assert Receives(Popped(p, sl, i), j) == Receives(p, j);
  }

  lemma PopStore(eps: seq<Epoch>, p: Peer, sl: Slot, i: nat)
    requires Receiving(eps, p) && DistinctKeys(eps)
    requires sl in p.st.skipped
    ensures StoreOk(eps, Popped(p, sl, i))
  {
    assert p.epoch < |eps| && StoreOk(eps, p);
    hide Receiving, PeerOk, Balanced, DistinctKeys;
    forall j, n: nat ensures StoredAt(eps, Popped(p, sl, i), j, n) {
      PopStores(eps, p, sl, i, j, n);
    }
    hide StoredAt;
    forall s | s in Popped(p, sl, i).st.skipped || s in Popped(p, sl, i).read
      ensures KnownSlot(eps, Popped(p, sl, i), s)
    {
      KnownKept(eps, p, eps, Popped(p, sl, i), s);
    }
  }

  lemma PopBalance(eps: seq<Epoch>, p: Peer, sl: Slot, i: nat)
    requires p.epoch < |eps| && Balanced(eps, p) && sl in p.st.skipped
    ensures Balanced(eps, Popped(p, sl, i))
  {
    hide SumSent;
    MapRemoveSize(p.st.skipped, sl);
  }

  lemma PopPeer(eps: seq<Epoch>, p: Peer, sl: Slot, i: nat)
    requires PeerOk(eps, p)
    ensures PeerOk(eps, Popped(p, sl, i))
  {
    hide Advance;
  }

  /** Read a frame with a stored key. */
  lemma PopMove(eps: seq<Epoch>, p: Peer, sl: Slot, i: nat)
    requires Receiving(eps, p) && DistinctKeys(eps)
    requires sl in p.st.skipped
    ensures Receiving(eps, Popped(p, sl, i))
  {
    hide StoreOk, Balanced, DistinctKeys;
    PopPeer(eps, p, sl, i);
    hide PeerOk, Popped;
    PopStore(eps, p, sl, i);
    PopBalance(eps, p, sl, i);
  }

  // ---- one delivery ---------------------------------------------------------------

  ghost predicate Linked(eps: seq<Epoch>, s: Peer, r: Peer) {
    && Receiving(eps, r) && LogOk(eps, s) && GotOk(s, r) && DistinctKeys(eps)
    && s.epoch < |eps|
    && (s.epoch + 1 == r.epoch || s.epoch == r.epoch + 1)
    && |eps| == 1 + (if s.epoch > r.epoch then s.epoch else r.epoch)
    && (forall j :: 1 <= j < |eps| ==>
         && eps[j].root == RootKey(eps[j - 1].root, DhOf(eps[j].key, eps[j - 1].key))
         && eps[j].chain == ChainKey(eps[j - 1].root, DhOf(eps[j].key, eps[j - 1].key)))
  }

  lemma SenderFrame(eps: seq<Epoch>, s: Peer, r: Peer, i: nat)
    requires Linked(eps, s, r) && i < |s.log| && i !in r.got
    ensures var x, sl := s.log[i], SlotOf(s.log[i]);
            && SentOk(eps, s, x) && sl !in r.read && 1 <= x.epoch < |eps|
            && sl.dh == eps[x.epoch].key && sl.n < eps[x.epoch].sent && (r.epoch - x.epoch) % 2 != 0
            && (x.epoch < r.epoch || x.epoch == r.epoch + 1 == |eps| - 1)
  {
    hide StoreOk, PeerOk, Balanced, Advance, DistinctKeys;
    assert SentOk(eps, s, s.log[i]);
  }

  lemma StoredHere(eps: seq<Epoch>, r: Peer, j: nat, sl: Slot)
    requires r.epoch < |eps| && StoreOk(eps, r) && j < |eps| && sl.dh == eps[j].key
    ensures Receives(r, j) ==>
              && (sl in r.st.skipped <==> sl.n < Passed(eps, r, j) && sl !in r.read)
              && (sl in r.st.skipped ==> r.st.skipped[sl] == MessageKey(Advance(eps[j].chain, sl.n)))
  {
    hide Advance;
    assert StoredAt(eps, r, j, sl.n);
  }

  /** An unread frame is either stored, or ahead on the receiving chain, or the first
      news of the sender's next chain: a chain is never missed as a whole. */
  lemma FrameCases(eps: seq<Epoch>, s: Peer, r: Peer, i: nat)
    requires Linked(eps, s, r) && i < |s.log| && i !in r.got
    ensures var x, sl := s.log[i], SlotOf(s.log[i]);
            && SentOk(eps, s, x) && sl !in r.read
            && (if sl in r.st.skipped then r.st.skipped[sl] == MessageKey(Advance(eps[x.epoch].chain, sl.n))
                else if r.st.dhr == Some(sl.dh) then r.epoch >= 2 && x.epoch == r.epoch - 1 && r.st.nr <= sl.n
                else x.epoch == r.epoch + 1 == |eps| - 1)
  {
    SenderFrame(eps, s, r, i);
    hide LogOk, SentOk, GotOk, Balanced, Advance, DistinctKeys;
    var x, sl := s.log[i], SlotOf(s.log[i]);
    StoredHere(eps, r, x.epoch, sl);
    hide StoreOk;
    assert x.epoch < r.epoch ==> Receives(r, x.epoch);
  }

  /** Keys of the sender's next chain are new to the receiver. */
  lemma NewKeyUnknown(eps: seq<Epoch>, r: Peer)
    requires Receiving(eps, r) && DistinctKeys(eps) && r.epoch + 2 == |eps|
    ensures forall sl :: sl in r.st.skipped || sl in r.read ==> sl.dh != eps[r.epoch + 1].key
  {
    hide PeerOk, Balanced;
    forall sl | sl in r.st.skipped || sl in r.read ensures sl.dh != eps[r.epoch + 1].key {
      assert KnownSlot(eps, r, sl);
    }
  }

  /** The frame `x` of the receiving chain, met at or ahead of the current place. */
  lemma OnChain(eps: seq<Epoch>, p: Peer, s: Peer, x: Sent, i: nat)
    requires Receiving(eps, p) && DistinctKeys(eps) && SentOk(eps, s, x)
    requires p.epoch >= 2 && x.epoch == p.epoch - 1 && p.st.nr <= x.frame.header.n
    ensures var (st, r) := DecryptOnChain(p.st, x.frame);
            if r.Ok? then
              && r.value == x.plain
              && Receiving(eps, p.(st := st, got := p.got + [i], read := p.read + {SlotOf(x)}))
            else
              r.error == TooManySkipped && st == p.st
    ensures DecryptOnChain(p.st, x.frame).0.dhs == p.st.dhs
  {
    hide PeerOk, StoreOk, Balanced, StoredKeys, DistinctKeys, SentOk;
    var n := x.frame.header.n;
    ChainAhead(eps, p, s, x);
    if Skip(p.st, n).Some? {
      SkipMove(eps, p, n);
      var q := p.(st := Skip(p.st, n).value);
      NextKeyOpens(eps, q, s, x);
      TakeMove(eps, q, i);
    }
  }

  lemma ChainAhead(eps: seq<Epoch>, p: Peer, s: Peer, x: Sent)
    requires PeerOk(eps, p) && SentOk(eps, s, x) && x.epoch + 1 == p.epoch
    ensures WellFormed(p.st) && p.epoch < |eps| && p.st.ckr.Some?
    ensures x.frame.header.n < eps[p.epoch - 1].sent
    ensures SlotOf(x) == Slot(eps[p.epoch - 1].key, x.frame.header.n)
  {}

  lemma NextKeyOpens(eps: seq<Epoch>, p: Peer, s: Peer, x: Sent)
    requires PeerOk(eps, p) && SentOk(eps, s, x) && x.epoch + 1 == p.epoch
    requires p.st.nr == x.frame.header.n
    ensures p.st.ckr.Some? && Opened(x.frame, MessageKey(p.st.ckr.value)) == Ok(x.plain)
  {}

  /** The receiver once it finished its receiving chain and turned to the next. */
  function Turned(eps: seq<Epoch>, r: Peer, pn: nat, drawn: KeyId): Peer
    requires WellFormed(r.st) && r.epoch + 2 == |eps| && Skip(r.st, pn).Some?
  {
    Answered(r.(st := Skip(r.st, pn).value), eps[r.epoch + 1].key, drawn)
  }

  lemma TurnedReceiving(eps: seq<Epoch>, r: Peer, pn: nat, drawn: KeyId)
    requires Receiving(eps, r) && DistinctKeys(eps) && r.epoch + 2 == |eps|
    requires eps[r.epoch + 1].root == RootKey(eps[r.epoch].root, DhOf(eps[r.epoch + 1].key, eps[r.epoch].key))
    requires eps[r.epoch + 1].chain == ChainKey(eps[r.epoch].root, DhOf(eps[r.epoch + 1].key, eps[r.epoch].key))
    requires pn == PrevSent(eps, r.epoch + 1) && Skip(r.st, pn).Some?
    ensures var dh := eps[r.epoch + 1].key;
            var eps1 := eps + [NextEpoch(r.st, dh, drawn)];
            && Receiving(eps1, Turned(eps, r, pn, drawn))
            && eps1[r.epoch + 2].root == RootKey(eps[r.epoch + 1].root, DhOf(drawn, dh))
            && eps1[r.epoch + 2].chain == ChainKey(eps[r.epoch + 1].root, DhOf(drawn, dh))
  {
    assert r.epoch >= 2 ==> r.st.nr <= pn;
    SkipMove(eps, r, pn);
    hide PeerOk, StoreOk, Balanced, StoredKeys, DistinctKeys;
    var r1 := r.(st := Skip(r.st, pn).value);
    NewKeyUnknown(eps, r1);
    TurnMove(eps, r1, drawn);
    assert NextEpoch(r1.st, eps[r.epoch + 1].key, drawn) == NextEpoch(r.st, eps[r.epoch + 1].key, drawn);
  }

  lemma NextChainFacts(eps: seq<Epoch>, s: Peer, r: Peer, i: nat, e: Epoch)
    requires Linked(eps, s, r) && i < |s.log|
    requires s.log[i].epoch == r.epoch + 1 == |eps| - 1
    ensures var x := s.log[i];
            && Receiving(eps, r) && DistinctKeys(eps) && WellFormed(r.st) && Encodable(x.frame.header)
            && SentOk(eps + [e], s, x)
            && x.frame.header.dh == eps[r.epoch + 1].key && x.frame.header.pn == PrevSent(eps, r.epoch + 1)
            && eps[r.epoch + 1].root == RootKey(eps[r.epoch].root, DhOf(eps[r.epoch + 1].key, eps[r.epoch].key))
            && eps[r.epoch + 1].chain == ChainKey(eps[r.epoch].root, DhOf(eps[r.epoch + 1].key, eps[r.epoch].key))
  {
    assert SentOk(eps, s, s.log[i]);
    hide StoreOk, Balanced, GotOk;
  }

  /** ratchet_decrypt for a header that names a new ratchet key. */
  lemma NextChainCall(r: State, f: Frame, drawn: KeyId)
    requires WellFormed(r) && Encodable(f.header)
    requires Slot(f.header.dh, f.header.n) !in r.skipped && r.dhr != Some(f.header.dh)
    ensures var turned := if Skip(r, f.header.pn).Some? then Some(DhRatchet(Skip(r, f.header.pn).value, f.header.dh, drawn))
                          else None;
            Decrypt(r, f, drawn) == if turned.None? then (r, Err(TooManySkipped)) else DecryptOnChain(turned.value, f)
  {
    hide DecryptOnChain, StoredKeys, Advance;
  }

  lemma AppendKeepsDistinct(eps: seq<Epoch>, e: Epoch)
    requires DistinctKeys(eps) && forall j :: 0 <= j < |eps| ==> eps[j].key != e.key
    ensures DistinctKeys(eps + [e])
  {}

  /** The first frame of the sender's next chain to arrive. */
  lemma OnNextChain(eps: seq<Epoch>, s: Peer, r: Peer, i: nat, drawn: KeyId)
    requires Linked(eps, s, r) && i < |s.log|
    requires s.log[i].epoch == r.epoch + 1 == |eps| - 1
    requires SlotOf(s.log[i]) !in r.st.skipped && r.st.dhr != Some(SlotOf(s.log[i]).dh)
    requires forall j :: 0 <= j < |eps| ==> eps[j].key != drawn
    ensures var x := s.log[i];
            var (st, res) := Decrypt(r.st, x.frame, drawn);
            var eps1 := eps + [NextEpoch(r.st, x.frame.header.dh, drawn)];
            && (res.Ok? ==>
                 && res.value == x.plain && st.dhs == drawn
                 && Receiving(eps1, r.(st := st, epoch := r.epoch + 2, steps := 0,
                                       got := r.got + [i], read := r.read + {SlotOf(x)})))
            && (res.Err? ==>
                 && res.error == TooManySkipped
                 && (st == r.st
                     || (st.dhs == drawn && Receiving(eps1, r.(st := st, epoch := r.epoch + 2, steps := 0)))))
  {
    hide Linked, Receiving, DistinctKeys, SentOk, DecryptOnChain, Decrypt, Skip, PrevSent;
    var x := s.log[i];
    var e := NextEpoch(r.st, x.frame.header.dh, drawn);
    var pn := x.frame.header.pn;
    NextChainFacts(eps, s, r, i, e);
    NextChainCall(r.st, x.frame, drawn);
    if Skip(r.st, pn).Some? {
      TurnedReceiving(eps, r, pn, drawn);
      AppendKeepsDistinct(eps, e);
      OnChain(eps + [e], Turned(eps, r, pn, drawn), s, x, i);
    }
  }

  /** The receiver after a call that returned `ok` for frame i. */
  function AfterCall(r: Peer, st: State, x: Sent, i: nat, ok: bool): Peer {
    r.(st := st, got := if ok then r.got + [i] else r.got, read := if ok then r.read + {SlotOf(x)} else r.read)
  }

  lemma OwnKeyOf(eps: seq<Epoch>, s: Peer, r: Peer)
    requires Linked(eps, s, r)
    ensures WellFormed(r.st) && r.epoch < |eps| && r.st.dhs == eps[r.epoch].key
  {
    hide StoreOk, Balanced, LogOk, GotOk, DistinctKeys, Advance;
  }

  /** The call that finds the frame's key in store. */
  lemma StoredCall(eps: seq<Epoch>, s: Peer, r: Peer, i: nat, drawn: KeyId)
    requires Linked(eps, s, r) && i < |s.log| && WellFormed(r.st)
    requires var x, sl := s.log[i], SlotOf(s.log[i]);
             && SentOk(eps, s, x)
             && sl in r.st.skipped && r.st.skipped[sl] == MessageKey(Advance(eps[x.epoch].chain, sl.n))
    ensures var x := s.log[i];
            var (st, res) := Decrypt(r.st, x.frame, drawn);
            res == Ok(x.plain) && st.dhs == r.st.dhs && Receiving(eps, AfterCall(r, st, x, i, true))
  {
    hide Receiving, LogOk, GotOk, Advance, Skip;
    PopMove(eps, r, SlotOf(s.log[i]), i);
  }

  /** The call for a frame of the current receiving chain. */
  lemma ChainCall(eps: seq<Epoch>, s: Peer, r: Peer, i: nat, drawn: KeyId)
    requires Linked(eps, s, r) && i < |s.log| && WellFormed(r.st) && SentOk(eps, s, s.log[i])
    requires var x, sl := s.log[i], SlotOf(s.log[i]);
             && sl !in r.st.skipped && r.st.dhr == Some(sl.dh)
             && r.epoch >= 2 && x.epoch == r.epoch - 1 && r.st.nr <= sl.n
    ensures var x := s.log[i];
            var (st, res) := Decrypt(r.st, x.frame, drawn);
            && (res == Ok(x.plain) || res == Err(TooManySkipped))
            && st.dhs == r.st.dhs && Receiving(eps, AfterCall(r, st, x, i, res.Ok?))
  {
    hide Receiving, LogOk, GotOk, Advance, Skip, DecryptOnChain;
    OnChain(eps, r, s, s.log[i], i);
  }

  /** The call for the first frame to arrive of the sender's next chain. */
  lemma TurnCall(eps: seq<Epoch>, s: Peer, r: Peer, i: nat, drawn: KeyId)
    requires Linked(eps, s, r) && i < |s.log| && WellFormed(r.st)
    requires s.log[i].epoch == r.epoch + 1 == |eps| - 1
    requires SlotOf(s.log[i]) !in r.st.skipped && r.st.dhr != Some(SlotOf(s.log[i]).dh)
    requires forall j :: 0 <= j < |eps| ==> eps[j].key != drawn
    ensures var x := s.log[i];
            var (st, res) := Decrypt(r.st, x.frame, drawn);
            var p1 := AfterCall(r, st, x, i, res.Ok?);
            var eps1 := eps + [NextEpoch(r.st, x.frame.header.dh, drawn)];
            && (res == Ok(x.plain) || res == Err(TooManySkipped))
            && (st.dhs == r.st.dhs ==> Receiving(eps, p1))
            && (st.dhs != r.st.dhs ==>
                 && st.dhs == drawn && x.frame.header.dh == eps[r.epoch + 1].key
                 && Receiving(eps1, p1.(epoch := r.epoch + 2, steps := 0))
                 && eps1[r.epoch + 2].root == RootKey(eps[r.epoch + 1].root, DhOf(drawn, eps[r.epoch + 1].key))
                 && eps1[r.epoch + 2].chain == ChainKey(eps[r.epoch + 1].root, DhOf(drawn, eps[r.epoch + 1].key)))
  {
    hide Linked, Receiving, DistinctKeys, SentOk, Decrypt, PrevSent, NextEpoch, PeerOk;
    var e := NextEpoch(r.st, s.log[i].frame.header.dh, drawn);
    OwnKeyOf(eps, s, r);
    NextChainFacts(eps, s, r, i, e);
    OnNextChain(eps, s, r, i, drawn);
    NextEpochKeys(eps, r, drawn);
  }

  lemma NextEpochKeys(eps: seq<Epoch>, r: Peer, drawn: KeyId)
    requires Receiving(eps, r) && r.epoch + 2 == |eps|
    requires eps[r.epoch + 1].root == RootKey(eps[r.epoch].root, DhOf(eps[r.epoch + 1].key, eps[r.epoch].key))
    requires eps[r.epoch + 1].chain == ChainKey(eps[r.epoch].root, DhOf(eps[r.epoch + 1].key, eps[r.epoch].key))
    ensures var e := NextEpoch(r.st, eps[r.epoch + 1].key, drawn);
            && e.root == RootKey(eps[r.epoch + 1].root, DhOf(drawn, eps[r.epoch + 1].key))
            && e.chain == ChainKey(eps[r.epoch + 1].root, DhOf(drawn, eps[r.epoch + 1].key))
  {
    assert PeerOk(eps, r);
    hide StoreOk, Balanced;
    TurnPeer(eps, r, drawn);
  }

  lemma DeliverReceiving(eps: seq<Epoch>, s: Peer, r: Peer, i: nat, drawn: KeyId)
    requires Linked(eps, s, r) && i < |s.log| && i !in r.got
    requires forall j :: 0 <= j < |eps| ==> eps[j].key != drawn
    ensures var x := s.log[i];
            var (st, res) := Decrypt(r.st, x.frame, drawn);
            var p1 := AfterCall(r, st, x, i, res.Ok?);
            var eps1 := eps + [NextEpoch(r.st, x.frame.header.dh, drawn)];
            && (res == Ok(x.plain) || res == Err(TooManySkipped))
            && SlotOf(x) !in r.read
            && (st.dhs == r.st.dhs ==> Receiving(eps, p1))
            && (st.dhs != r.st.dhs ==>
                 && st.dhs == drawn && r.epoch + 2 == |eps| && x.frame.header.dh == eps[r.epoch + 1].key
                 && Receiving(eps1, p1.(epoch := r.epoch + 2, steps := 0))
                 && eps1[r.epoch + 2].root == RootKey(eps[r.epoch + 1].root, DhOf(drawn, eps[r.epoch + 1].key))
                 && eps1[r.epoch + 2].chain == ChainKey(eps[r.epoch + 1].root, DhOf(drawn, eps[r.epoch + 1].key)))
  {
    hide *;
    OwnKeyOf(eps, s, r);
    FrameCases(eps, s, r, i);
    if SlotOf(s.log[i]) in r.st.skipped {
      StoredCall(eps, s, r, i, drawn);
    } else if r.st.dhr == Some(SlotOf(s.log[i]).dh) {
      ChainCall(eps, s, r, i, drawn);
    } else {
      TurnCall(eps, s, r, i, drawn);
    }
  }

  /** A new epoch changes nothing for a party that is not part of opening it. */
  lemma AppendKeepsPeer(eps: seq<Epoch>, p: Peer, e: Epoch)
    requires PeerOk(eps, p) && StoreOk(eps, p) && Balanced(eps, p)
    ensures var eps1 := eps + [e];
            PeerOk(eps1, p) && StoreOk(eps1, p) && Balanced(eps1, p)
  {
    var eps1 := eps + [e];
    forall j, n: nat ensures StoredAt(eps1, p, j, n) {
      assert StoredAt(eps, p, j, n);
    }
    forall sl | sl in p.st.skipped || sl in p.read ensures KnownSlot(eps1, p, sl) {
      KnownKept(eps, p, eps1, p, sl);
    }
    SumIgnoresLater(eps, eps1, p.epoch - 3);
  }

  lemma AppendKeepsLog(eps: seq<Epoch>, p: Peer, p1: Peer, e: Epoch)
    requires LogOk(eps, p) && p1.log == p.log
    requires p1.epoch == p.epoch || p1.epoch == p.epoch + 2
    requires p1.epoch <= |eps|
    ensures LogOk(eps + [e], p1)
  {
    forall i | 0 <= i < |p.log| ensures SentOk(eps + [e], p1, p.log[i]) {
      assert SentOk(eps, p, p.log[i]);
    }
  }

  /** Reading frame i adds exactly its position. */
  lemma GotGrows(eps: seq<Epoch>, s: Peer, r: Peer, i: nat)
    requires LogOk(eps, s) && GotOk(s, r) && i < |s.log| && i !in r.got
    ensures GotOk(s, r.(got := r.got + [i], read := r.read + {SlotOf(s.log[i])}))
  {
    var r1 := r.(got := r.got + [i], read := r.read + {SlotOf(s.log[i])});
    forall k | 0 <= k < |s.log| ensures k in r1.got <==> SlotOf(s.log[k]) in r1.read {
      assert k in r1.got <==> k in r.got || k == i;
    }
  }

  lemma EpochsGrow(eps: seq<Epoch>, used: set<KeyId>, idA: KeyId, e: Epoch)
    requires EpochsOk(eps, used, idA) && e.key !in used
    requires e.root == RootKey(eps[|eps| - 1].root, DhOf(e.key, eps[|eps| - 1].key))
    requires e.chain == ChainKey(eps[|eps| - 1].root, DhOf(e.key, eps[|eps| - 1].key))
    ensures EpochsOk(eps + [e], used + {e.key}, idA)
  {}

  lemma InvLinked(w: World, to: Party)
    requires Inv(w)
    ensures Linked(w.eps, At(w, Other(to)), At(w, to))
  {}

  /** The receiver kept its epoch. */
  lemma SameEpochParties(eps: seq<Epoch>, s: Peer, r: Peer, st: State, i: nat, ok: bool)
    requires Linked(eps, s, r) && PartyOk(eps, s, r) && PartyOk(eps, r, s)
    requires i < |s.log| && i !in r.got
    requires Receiving(eps, AfterCall(r, st, s.log[i], i, ok))
    ensures var r1 := AfterCall(r, st, s.log[i], i, ok);
            PartyOk(eps, s, r1) && PartyOk(eps, r1, s)
  {
    hide PeerOk, StoreOk, Balanced, LogOk;
    var r1 := AfterCall(r, st, s.log[i], i, ok);
    assert Receiving(eps, r1) && LogOk(eps, r);
    SameLog(eps, r, r1);
    GotGrows(eps, s, r, i);
    assert GotOk(s, r1) && GotOk(r1, s);
    hide GotOk;
  }

  lemma SameLog(eps: seq<Epoch>, p: Peer, p1: Peer)
    requires LogOk(eps, p) && p1.log == p.log && p1.epoch == p.epoch
    ensures LogOk(eps, p1)
  {
    forall i | 0 <= i < |p.log| ensures SentOk(eps, p1, p.log[i]) {
      assert SentOk(eps, p, p.log[i]);
    }
  }

  /** The receiver opened a new epoch. */
  lemma NewEpochParties(eps: seq<Epoch>, s: Peer, r: Peer, st: State, i: nat, ok: bool, e: Epoch)
    requires Linked(eps, s, r) && PartyOk(eps, s, r) && PartyOk(eps, r, s)
    requires i < |s.log| && i !in r.got && r.epoch + 2 == |eps|
    requires Receiving(eps + [e], AfterCall(r, st, s.log[i], i, ok).(epoch := r.epoch + 2, steps := 0))
    ensures var r1 := AfterCall(r, st, s.log[i], i, ok).(epoch := r.epoch + 2, steps := 0);
            PartyOk(eps + [e], s, r1) && PartyOk(eps + [e], r1, s)
  {
    hide PeerOk, StoreOk, Balanced, LogOk;
    var r1 := AfterCall(r, st, s.log[i], i, ok).(epoch := r.epoch + 2, steps := 0);
    assert r.epoch + 2 <= |eps| && s.epoch <= |eps|;
    AppendKeepsPeer(eps, s, e);
    AppendKeepsLog(eps, s, s, e);
    AppendKeepsLog(eps, r, r1, e);
    GotGrows(eps, s, r, i);
    assert GotOk(s, r1) && GotOk(r1, s);
    hide GotOk;
  }

  predicate Neighbours(eps: seq<Epoch>, a: nat, b: nat) {
    && (a == b + 1 || b == a + 1)
    && |eps| == 1 + (if a > b then a else b)
  }

  /** The invariant, put together from one party's point of view. */
  lemma Assemble(w: World, who: Party)
    requires EpochsOk(w.eps, w.used, w.idA) && w.alice.epoch % 2 == 1 && w.bob.epoch % 2 == 0
    requires Neighbours(w.eps, At(w, who).epoch, At(w, Other(who)).epoch)
    requires PartyOk(w.eps, At(w, who), At(w, Other(who))) && PartyOk(w.eps, At(w, Other(who)), At(w, who))
    ensures Inv(w)
  {
    hide PartyOk, EpochsOk;
  }

  lemma Take(w: World, who: Party)
    requires Inv(w)
    ensures EpochsOk(w.eps, w.used, w.idA)
    ensures Neighbours(w.eps, At(w, who).epoch, At(w, Other(who)).epoch)
    ensures PartyOk(w.eps, At(w, who), At(w, Other(who))) && PartyOk(w.eps, At(w, Other(who)), At(w, who))
  {
    hide PartyOk, EpochsOk;
  }

  /** The parts of the world after a delivery. */
  lemma DeliverParts(w: World, to: Party, i: nat, drawn: KeyId)
    requires Shaped(w) && Enabled(w, Deliver(to, i, drawn))
    ensures var s, r, w1 := At(w, Other(to)), At(w, to), DeliverStep(w, to, i, drawn);
            var (st, res) := Decrypt(r.st, s.log[i].frame, drawn);
            var p1 := AfterCall(r, st, s.log[i], i, res.Ok?);
            && At(w1, Other(to)) == s && w1.idA == w.idA
            && w1.alice.epoch % 2 == w.alice.epoch % 2 && w1.bob.epoch % 2 == w.bob.epoch % 2
            && (if st.dhs == r.st.dhs then At(w1, to) == p1 && w1.eps == w.eps && w1.used == w.used
                else
                  && At(w1, to) == p1.(epoch := r.epoch + 2, steps := 0)
                  && w1.eps == w.eps + [NextEpoch(r.st, s.log[i].frame.header.dh, drawn)]
                  && w1.used == w.used + {drawn})
  {
    hide Decrypt;
  }

  lemma SameEpochInv(w: World, w1: World, to: Party, st: State, i: nat, ok: bool)
    requires EpochsOk(w.eps, w.used, w.idA) && w1.alice.epoch % 2 == 1 && w1.bob.epoch % 2 == 0
    requires var s, r := At(w, Other(to)), At(w, to);
             && Neighbours(w.eps, r.epoch, s.epoch) && Linked(w.eps, s, r)
             && PartyOk(w.eps, s, r) && PartyOk(w.eps, r, s)
             && i < |s.log| && i !in r.got && Receiving(w.eps, AfterCall(r, st, s.log[i], i, ok))
             && At(w1, to) == AfterCall(r, st, s.log[i], i, ok) && At(w1, Other(to)) == s
             && w1.eps == w.eps && w1.used == w.used && w1.idA == w.idA
    ensures Inv(w1)
  {
    hide PartyOk, PeerOk, StoreOk, LogOk, GotOk, Balanced, Linked, Receiving, EpochsOk, Inv, At, Other;
    SameEpochParties(w.eps, At(w, Other(to)), At(w, to), st, i, ok);
    Assemble(w1, to);
  }

  lemma NewEpochInv(w: World, w1: World, to: Party, st: State, i: nat, ok: bool, e: Epoch)
    requires EpochsOk(w.eps, w.used, w.idA) && w1.alice.epoch % 2 == 1 && w1.bob.epoch % 2 == 0
    requires var s, r := At(w, Other(to)), At(w, to);
             && Neighbours(w.eps, r.epoch, s.epoch) && Linked(w.eps, s, r)
             && PartyOk(w.eps, s, r) && PartyOk(w.eps, r, s)
             && i < |s.log| && i !in r.got && r.epoch + 2 == |w.eps|
             && Receiving(w.eps + [e], AfterCall(r, st, s.log[i], i, ok).(epoch := r.epoch + 2, steps := 0))
             && At(w1, to) == AfterCall(r, st, s.log[i], i, ok).(epoch := r.epoch + 2, steps := 0)
             && At(w1, Other(to)) == s
             && w1.eps == w.eps + [e] && w1.used == w.used + {e.key} && w1.idA == w.idA
             && e.key !in w.used
             && e.root == RootKey(w.eps[r.epoch + 1].root, DhOf(e.key, w.eps[r.epoch + 1].key))
             && e.chain == ChainKey(w.eps[r.epoch + 1].root, DhOf(e.key, w.eps[r.epoch + 1].key))
    ensures Inv(w1)
  {
    hide PartyOk, PeerOk, StoreOk, LogOk, GotOk, Balanced, Linked, Receiving, EpochsOk, Inv, At, Other;
    EpochsGrow(w.eps, w.used, w.idA, e);
    NewEpochParties(w.eps, At(w, Other(to)), At(w, to), st, i, ok, e);
    Assemble(w1, to);
  }

  lemma DeliverFacts(w: World, to: Party, i: nat, drawn: KeyId)
    requires Inv(w) && Enabled(w, Deliver(to, i, drawn))
    ensures Shaped(w) && w.alice.epoch % 2 == 1 && w.bob.epoch % 2 == 0
    ensures var s, r := At(w, Other(to)), At(w, to);
            && WellFormed(r.st) && i < |s.log| && i !in r.got && drawn !in w.used
            && Neighbours(w.eps, r.epoch, s.epoch)
    ensures forall j :: 0 <= j < |w.eps| ==> w.eps[j].key != drawn
  {
    hide PartyOk;
    InvShaped(w);
  }

  lemma DeliverInv(w: World, to: Party, i: nat, drawn: KeyId)
    requires Inv(w) && Enabled(w, Deliver(to, i, drawn))
    ensures Shaped(w)
    ensures Inv(DeliverStep(w, to, i, drawn))
    ensures var r := Decrypt(At(w, to).st, At(w, Other(to)).log[i].frame, drawn).1;
            r == Ok(At(w, Other(to)).log[i].plain) || r == Err(TooManySkipped)
  {
    hide *;
    DeliverFacts(w, to, i, drawn);
    Take(w, to);
    InvLinked(w, to);
    DeliverParts(w, to, i, drawn);
    var s, r, w1 := At(w, Other(to)), At(w, to), DeliverStep(w, to, i, drawn);
    DeliverReceiving(w.eps, s, r, i, drawn);
    var (st, res) := Decrypt(r.st, s.log[i].frame, drawn);
    if st.dhs == r.st.dhs {
      SameEpochInv(w, w1, to, st, i, res.Ok?);
    } else {
      NextEpochKey(r.st, s.log[i].frame.header.dh, drawn);
      NewEpochInv(w, w1, to, st, i, res.Ok?, NextEpoch(r.st, s.log[i].frame.header.dh, drawn));
    }
  }

  lemma NextEpochKey(st: State, theirs: KeyId, drawn: KeyId)
    ensures NextEpoch(st, theirs, drawn).key == drawn
  {}

  /** A call that raises leaves the party in order: it sent nothing. */
  lemma FailedSendKept(eps: seq<Epoch>, p: Peer, q: Peer, pt: Plaintext, cipher: Cipher, nonce: Nonce)
    requires PartyOk(eps, p, q) && PartyOk(eps, q, p)
    requires Encrypt(p.st, pt, cipher, nonce).1.Err?
    ensures var p1 := p.(st := Encrypt(p.st, pt, cipher, nonce).0,
                         steps := if p.st.cks.Some? then p.steps + 1 else p.steps);
            PartyOk(eps, p1, q) && PartyOk(eps, q, p1)
  {
    var p1 := p.(st := Encrypt(p.st, pt, cipher, nonce).0,
                 steps := if p.st.cks.Some? then p.steps + 1 else p.steps);
    assert PeerOk(eps, p1) && GotOk(q, p1) && GotOk(p1, q);
    assert p1.st.skipped == p.st.skipped && p1.st.nr == p.st.nr;
    hide PeerOk, GotOk, Encrypt, StoreOk, LogOk;
    SameStore(eps, p, p1);
    SameLog(eps, p, p1);
  }

  lemma SameStore(eps: seq<Epoch>, p: Peer, p1: Peer)
    requires p.epoch < |eps| && StoreOk(eps, p)
    requires p1.epoch == p.epoch && p1.st.skipped == p.st.skipped && p1.st.nr == p.st.nr && p1.read == p.read
    ensures StoreOk(eps, p1)
  {
    forall j, n: nat ensures StoredAt(eps, p1, j, n) {
      assert StoredAt(eps, p, j, n);
      assert Receives(p1, j) == Receives(p, j);
    }
    forall sl | sl in p1.st.skipped || sl in p1.read ensures KnownSlot(eps, p1, sl) {
      KnownKept(eps, p, eps, p1, sl);
    }
  }

  /** The sender and its log after a successful call. */
  function AfterSend(p: Peer, st: State, f: Frame, pt: Plaintext): Peer {
    p.(st := st, steps := p.steps + 1, log := p.log + [Sent(f, pt, p.epoch)])
  }

  function Counted(eps: seq<Epoch>, e: nat): seq<Epoch>
    requires e < |eps|
  {
    eps[e := eps[e].(sent := eps[e].sent + 1)]
  }

  lemma SendFacts(eps: seq<Epoch>, p: Peer, pt: Plaintext, cipher: Cipher, nonce: Nonce)
    requires PeerOk(eps, p) && Encrypt(p.st, pt, cipher, nonce).1.Ok?
    ensures p.epoch >= 1 && Encodable(Header(cipher, p.st.dhs, p.st.pn, p.st.ns))
    ensures SlotOf(Sent(Encrypt(p.st, pt, cipher, nonce).1.value, pt, p.epoch))
         == Slot(eps[p.epoch].key, eps[p.epoch].sent)
  {}

  lemma SentGot(eps: seq<Epoch>, p: Peer, q: Peer, p1: Peer, x: Sent)
    requires GotOk(p, q) && GotOk(q, p) && SlotOf(x) !in q.read
    requires p1.log == p.log + [x] && p1.got == p.got && p1.read == p.read
    ensures GotOk(p1, q) && GotOk(q, p1)
  {}

  lemma SentParties(eps: seq<Epoch>, p: Peer, q: Peer, pt: Plaintext, cipher: Cipher, nonce: Nonce)
    requires PartyOk(eps, p, q) && PartyOk(eps, q, p) && DistinctKeys(eps) && Neighbours(eps, p.epoch, q.epoch)
    requires Encrypt(p.st, pt, cipher, nonce).1.Ok?
    ensures var (st, r) := Encrypt(p.st, pt, cipher, nonce);
            && p.epoch < |eps|
            && PartyOk(Counted(eps, p.epoch), AfterSend(p, st, r.value, pt), q)
            && PartyOk(Counted(eps, p.epoch), q, AfterSend(p, st, r.value, pt))
  {
    hide PeerOk, StoreOk, Balanced, LogOk, GotOk;
    SendFacts(eps, p, pt, cipher, nonce);
    SenderKept(eps, p, pt, cipher, nonce);
    CountKeepsPeer(eps, q, p.epoch);
    hide Encrypt;
    var (st, r) := Encrypt(p.st, pt, cipher, nonce);
    var x := Sent(r.value, pt, p.epoch);
    NewSlotUnread(eps, p, q, x);
    SentGot(eps, p, q, AfterSend(p, st, r.value, pt), x);
  }

  /** The parts of the world after a successful call. */
  lemma SendParts(w: World, who: Party, pt: Plaintext, cipher: Cipher, nonce: Nonce)
    requires Shaped(w)
    ensures var p, q, w1 := At(w, who), At(w, Other(who)), SendStep(w, who, pt, cipher, nonce);
            var (st, r) := Encrypt(p.st, pt, cipher, nonce);
            && At(w1, Other(who)) == q && w1.used == w.used && w1.idA == w.idA
            && w1.alice.epoch == w.alice.epoch && w1.bob.epoch == w.bob.epoch
            && (if r.Ok? then
                  && p.st.cks.Some?
                  && p.epoch < |w.eps|
                  && At(w1, who) == AfterSend(p, st, r.value, pt)
                  && w1.eps == Counted(w.eps, p.epoch)
                else
                  && At(w1, who) == p.(st := st, steps := if p.st.cks.Some? then p.steps + 1 else p.steps)
                  && w1.eps == w.eps)
  {}

  lemma EpochsCount(eps: seq<Epoch>, used: set<KeyId>, idA: KeyId, e: nat)
    requires EpochsOk(eps, used, idA) && 1 <= e < |eps|
    ensures EpochsOk(Counted(eps, e), used, idA)
  {}

  lemma SentInv(w: World, w1: World, who: Party, pt: Plaintext, cipher: Cipher, nonce: Nonce)
    requires EpochsOk(w.eps, w.used, w.idA) && w1.alice.epoch % 2 == 1 && w1.bob.epoch % 2 == 0
    requires var p, q := At(w, who), At(w, Other(who));
             && Neighbours(w.eps, p.epoch, q.epoch) && PartyOk(w.eps, p, q) && PartyOk(w.eps, q, p)
             && Encrypt(p.st, pt, cipher, nonce).1.Ok?
             && p.epoch < |w.eps|
             && At(w1, who) == AfterSend(p, Encrypt(p.st, pt, cipher, nonce).0, Encrypt(p.st, pt, cipher, nonce).1.value, pt)
             && At(w1, Other(who)) == q
             && w1.eps == Counted(w.eps, p.epoch) && w1.used == w.used && w1.idA == w.idA
    ensures Inv(w1)
  {
    assert DistinctKeys(w.eps);
    hide PartyOk, EpochsOk, Inv, At, Other, Encrypt, DistinctKeys;
    var p := At(w, who);
    SentParties(w.eps, p, At(w, Other(who)), pt, cipher, nonce);
    NoChainAtStart(w.eps, p, At(w, Other(who)), pt, cipher, nonce);
    EpochsCount(w.eps, w.used, w.idA, p.epoch);
    Assemble(w1, who);
  }

  lemma SendInv(w: World, who: Party, pt: Plaintext, cipher: Cipher, nonce: Nonce)
    requires Inv(w)
    ensures Shaped(w)
    ensures Inv(SendStep(w, who, pt, cipher, nonce))
  {
    hide *;
    InvShaped(w);
    Take(w, who);
    SendParts(w, who, pt, cipher, nonce);
    var p, q, w1 := At(w, who), At(w, Other(who)), SendStep(w, who, pt, cipher, nonce);
    if Encrypt(p.st, pt, cipher, nonce).1.Ok? {
      SentInv(w, w1, who, pt, cipher, nonce);
    } else {
      FailedSendKept(w.eps, p, q, pt, cipher, nonce);
      SameEpochs(w, w1, who);
      Assemble(w1, who);
    }
  }

  lemma SameEpochs(w: World, w1: World, who: Party)
    requires Neighbours(w.eps, At(w, who).epoch, At(w, Other(who)).epoch)
    requires w1.eps == w.eps && w1.alice.epoch == w.alice.epoch && w1.bob.epoch == w.bob.epoch
    ensures Neighbours(w1.eps, At(w1, who).epoch, At(w1, Other(who)).epoch)
  {}

  lemma NoChainAtStart(eps: seq<Epoch>, p: Peer, q: Peer, pt: Plaintext, cipher: Cipher, nonce: Nonce)
    requires PartyOk(eps, p, q) && Encrypt(p.st, pt, cipher, nonce).1.Ok?
    ensures p.epoch >= 1
  {}

  /** Every step keeps the invariant, and a delivery either returns exactly the text
      that was sent or raises the skip limit. */
  lemma StepInv(w: World, a: Action)
    requires Inv(w) && Enabled(w, a)
    ensures Shaped(w)
    ensures Inv(Step(w, a))
    ensures a.Deliver? ==>
              Outcome(w, a) == Ok(At(w, Other(a.to)).log[a.i].plain) || Outcome(w, a) == Err(TooManySkipped)
  {
    hide Inv;
    match a
    case Send(who, pt, cipher, nonce) => SendInv(w, who, pt, cipher, nonce);
    case Deliver(to, i, drawn) => DeliverInv(w, to, i, drawn);
  }

  // ---- whole runs --------------------------------------------------------------------

  lemma RunLength(ws: seq<World>, acts: seq<Action>)
    requires Run(ws, acts)
    ensures |ws| == |acts| + 1
  {}

  lemma RunStep(ws: seq<World>, acts: seq<Action>, k: nat)
    requires Run(ws, acts) && k < |acts|
    ensures |ws| == |acts| + 1
    ensures Shaped(ws[k]) && Enabled(ws[k], acts[k]) && ws[k + 1] == Step(ws[k], acts[k])
  {}

  lemma RunStart(ws: seq<World>, acts: seq<Action>)
    requires Run(ws, acts)
    ensures Inv(ws[0])
  {
    var idA, idB, drawn :| idA != idB && drawn != idA && drawn != idB && ws[0] == Start(idA, idB, drawn);
    StartInv(idA, idB, drawn);
  }

  lemma {:induction false} RunInv(ws: seq<World>, acts: seq<Action>, k: nat)
    requires Run(ws, acts) && k <= |acts|
    ensures Inv(ws[k])
  {
    hide *;
    RunLength(ws, acts);
    if k == 0 {
      RunStart(ws, acts);
    } else {
      RunInv(ws, acts, k - 1);
      RunStep(ws, acts, k - 1);
      StepInv(ws[k - 1], acts[k - 1]);
    }
  }

  lemma RunExtend(ws: seq<World>, acts: seq<Action>, a: Action)
    requires Run(ws, acts) && |ws| == |acts| + 1
    requires Shaped(ws[|acts|]) && Enabled(ws[|acts|], a)
    ensures Run(ws + [Step(ws[|acts|], a)], acts + [a])
  {
    hide Step, Shaped, Enabled, Start;
  }

  /** Agreement over every run: with drops, delays and reordering, every delivery
      returns exactly the plaintext its sender encrypted or raises the skip limit;
      nothing else ever comes out. */
  lemma Agreement(ws: seq<World>, acts: seq<Action>, k: nat)
    requires Run(ws, acts) && k < |acts| && acts[k].Deliver?
    ensures Shaped(ws[k]) && Enabled(ws[k], acts[k])
    ensures Outcome(ws[k], acts[k]) == Ok(At(ws[k], Other(acts[k].to)).log[acts[k].i].plain)
         || Outcome(ws[k], acts[k]) == Err(TooManySkipped)
  {
    hide *;
    RunStep(ws, acts, k);
    RunInv(ws, acts, k);
    StepInv(ws[k], acts[k]);
  }

  /** The ratchet epochs of the two sides are always neighbours, so a sending chain is
      never missed as a whole. */
  lemma EpochsAlternate(ws: seq<World>, acts: seq<Action>, k: nat)
    requires Run(ws, acts) && k <= |acts|
    ensures ws[k].alice.epoch == ws[k].bob.epoch + 1 || ws[k].bob.epoch == ws[k].alice.epoch + 1
  {
    RunInv(ws, acts, k);
  }

  /** Skipped-key conservation: frames read plus keys in store is exactly the number of
      positions the receiver has advanced over all chains. */
  lemma SkippedKeysConserved(ws: seq<World>, acts: seq<Action>, k: nat, who: Party)
    requires Run(ws, acts) && k <= |acts|
    ensures var w, p := ws[k], At(ws[k], who);
            p.epoch < |w.eps| && |p.got| + |p.st.skipped| == Advanced(w.eps, p)
  {
    RunInv(ws, acts, k);
  }

  /** MKSKIPPED holds exactly the sent frames that were passed and not read. */
  lemma StoreIsPassedUnread(ws: seq<World>, acts: seq<Action>, k: nat, who: Party, i: nat)
    requires Run(ws, acts) && k <= |acts| && i < |At(ws[k], Other(who)).log|
    ensures var w, p, x := ws[k], At(ws[k], who), At(ws[k], Other(who)).log[i];
            && p.epoch < |w.eps|
            && (SlotOf(x) in p.st.skipped <==>
                 Receives(p, x.epoch) && SlotOf(x).n < Passed(w.eps, p, x.epoch) && i !in p.got)
            && (i in p.got ==> Receives(p, x.epoch) && SlotOf(x).n < Passed(w.eps, p, x.epoch))
  {
    RunInv(ws, acts, k);
    var w, p, s := ws[k], At(ws[k], who), At(ws[k], Other(who));
    assert PartyOk(w.eps, p, s) && PartyOk(w.eps, s, p);
    hide Inv, PeerOk, Balanced;
    var x := s.log[i];
    assert SentOk(w.eps, s, x) && StoredAt(w.eps, p, x.epoch, SlotOf(x).n);
    if SlotOf(x) in p.st.skipped || SlotOf(x) in p.read {
      assert KnownSlot(w.eps, p, SlotOf(x));
      var j :| Receives(p, j) && w.eps[j].key == SlotOf(x).dh;
      assert j == x.epoch by { SameKeySameEpoch(w, j, x.epoch); }
    }
  }

  lemma SameKeySameEpoch(w: World, j: nat, k: nat)
    requires Inv(w) && j < |w.eps| && k < |w.eps| && w.eps[j].key == w.eps[k].key
    ensures j == k
  {}

  lemma ChainsDistinct(w: World, j: nat, k: nat)
    requires Inv(w) && 1 <= j < |w.eps| && 1 <= k < |w.eps|
    ensures w.eps[j].chain == w.eps[k].chain ==> j == k
  {
    hide PartyOk;
    assert w.eps[j].chain == ChainKey(w.eps[j - 1].root, DhOf(w.eps[j].key, w.eps[j - 1].key));
    assert w.eps[k].chain == ChainKey(w.eps[k - 1].root, DhOf(w.eps[k].key, w.eps[k - 1].key));
  }

  /** The gap a frame opens is too wide, as the receiver and the frame's header show it:
      the key is not in store, and the gap exceeds the limit, where a header that names
      another ratchet key counts the gap left on the old chain and the one on the new
      chain separately. */
  predicate GapTooWide(s: State, h: Header) {
    && Slot(h.dh, h.n) !in s.skipped
    && (if s.dhr == Some(h.dh) then s.nr + MAX_SKIP < h.n else s.nr + MAX_SKIP < h.pn || MAX_SKIP < h.n)
  }

  lemma SkipLimit(s: State, f: Frame, drawn: KeyId)
    requires WellFormed(s) && Encodable(f.header)
    ensures Decrypt(s, f, drawn).1 == Err(TooManySkipped) <==> GapTooWide(s, f.header)
  {
    hide StoredKeys, Advance;
  }

  /** The skip limit refuses a delivery if and only if its gap is too wide. */
  lemma RefusedExactlyOnWideGap(ws: seq<World>, acts: seq<Action>, k: nat)
    requires Run(ws, acts) && k < |acts| && acts[k].Deliver?
    ensures Shaped(ws[k]) && Enabled(ws[k], acts[k])
    ensures Outcome(ws[k], acts[k]).Err? <==>
              GapTooWide(At(ws[k], acts[k].to).st, At(ws[k], Other(acts[k].to)).log[acts[k].i].frame.header)
  {
    hide *;
    RunStep(ws, acts, k);
    RunInv(ws, acts, k);
    RefusedOnGap(ws[k], acts[k].to, acts[k].i, acts[k].drawn);
  }

  lemma RefusedOnGap(w: World, to: Party, i: nat, drawn: KeyId)
    requires Inv(w) && Enabled(w, Deliver(to, i, drawn))
    ensures Shaped(w)
    ensures Outcome(w, Deliver(to, i, drawn)).Err? <==>
              GapTooWide(At(w, to).st, At(w, Other(to)).log[i].frame.header)
  {
    hide Inv, Decrypt, PartyOk, EpochsOk, GapTooWide;
    StepInv(w, Deliver(to, i, drawn));
    FrameInLog(w, Other(to), i);
    SkipLimit(At(w, to).st, At(w, Other(to)).log[i].frame, drawn);
  }

  /** No message key seals two frames, over both parties and all chains. */
  lemma MessageKeysUsedOnce(ws: seq<World>, acts: seq<Action>, k: nat, p1: Party, i1: nat, p2: Party, i2: nat)
    requires Run(ws, acts) && k <= |acts|
    requires i1 < |At(ws[k], p1).log| && i2 < |At(ws[k], p2).log|
    requires At(ws[k], p1).log[i1].frame.ct.key == At(ws[k], p2).log[i2].frame.ct.key
    ensures p1 == p2 && i1 == i2
  {
    RunInv(ws, acts, k);
    var w, x1, x2 := ws[k], At(ws[k], p1).log[i1], At(ws[k], p2).log[i2];
    FrameInLog(w, p1, i1);
    FrameInLog(w, p2, i2);
    hide SentOk, Inv, Run;
    AdvanceInjective(w.eps[x1.epoch].chain, x1.frame.header.n, w.eps[x2.epoch].chain, x2.frame.header.n);
    ChainsDistinct(w, x1.epoch, x2.epoch);
    SlotsDistinct(w, p1, i1, i2);
  }

  lemma FrameInLog(w: World, who: Party, i: nat)
    requires Inv(w) && i < |At(w, who).log|
    ensures var x := At(w, who).log[i];
            && 1 <= x.epoch < |w.eps| && (x.epoch % 2 == 1 <==> who == Alice)
            && w.eps[x.epoch].chain.ChainKey?
            && SlotOf(x) == Slot(w.eps[x.epoch].key, x.frame.header.n)
            && x.frame.ct.key == MessageKey(Advance(w.eps[x.epoch].chain, x.frame.header.n))
            && Encodable(x.frame.header)
  {
    hide PartyOk;
    LoggedFrame(w, who, i);
    hide Advance;
    var x := At(w, who).log[i];
    assert w.eps[x.epoch].chain == ChainKey(w.eps[x.epoch - 1].root, DhOf(w.eps[x.epoch].key, w.eps[x.epoch - 1].key));
  }

  lemma LoggedFrame(w: World, who: Party, i: nat)
    requires Inv(w) && i < |At(w, who).log|
    ensures var (p, x) := (At(w, who), At(w, who).log[i]);
            && 1 <= x.epoch <= p.epoch < |w.eps| && (p.epoch - x.epoch) % 2 == 0
            && SlotOf(x) == Slot(w.eps[x.epoch].key, x.frame.header.n)
            && x.frame.ct.key == MessageKey(Advance(w.eps[x.epoch].chain, x.frame.header.n))
            && Encodable(x.frame.header)
  {
    hide EpochsOk, PeerOk, StoreOk, GotOk, Balanced, Advance;
    Take(w, who);
    hide Inv;
    assert LogOk(w.eps, At(w, who));
    assert SentOk(w.eps, At(w, who), At(w, who).log[i]);
    hide LogOk;
  }

  lemma SlotsDistinct(w: World, who: Party, i1: nat, i2: nat)
    requires Inv(w) && i1 < |At(w, who).log| && i2 < |At(w, who).log|
    ensures SlotOf(At(w, who).log[i1]) == SlotOf(At(w, who).log[i2]) ==> i1 == i2
  {
    hide PeerOk, StoreOk, GotOk, Balanced, EpochsOk;
  }

  /** No message key opens two frames: a receiver reads every frame at most once, and
      different frames are sealed under different keys. */
  lemma MessageKeysReadOnce(ws: seq<World>, acts: seq<Action>, k: nat, who: Party, a: nat, b: nat)
    requires Run(ws, acts) && k <= |acts| && a < b < |At(ws[k], who).got|
    ensures var s, p := At(ws[k], Other(who)), At(ws[k], who);
            && p.got[a] < |s.log| && p.got[b] < |s.log|
            && s.log[p.got[a]].frame.ct.key != s.log[p.got[b]].frame.ct.key
  {
    RunInv(ws, acts, k);
    var s, p := At(ws[k], Other(who)), At(ws[k], who);
    assert GotOk(s, p);
    hide Inv;
    if s.log[p.got[a]].frame.ct.key == s.log[p.got[b]].frame.ct.key {
      MessageKeysUsedOnce(ws, acts, k, Other(who), p.got[a], Other(who), p.got[b]);
      assert false;
    }
  }
}
