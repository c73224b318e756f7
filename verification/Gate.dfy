/**
 The both-parties-verified send gate of client/src/chatclient.cpp, for one client and
 one of its peers.

 `Side` is everything the client keeps about the peer, and the functions below are its
 handlers.  GateClient is the object that keeps these records for all peers at once,
 and GateSystem puts two such sides together.
 */
module Gate {
  import opened Wrappers

  type Id = nat

  /** A verifyack: the sender's own identity and the identity it verified.  None stands
      for an absent or empty field. */
  datatype Ack = Ack(ik: Option<Id>, peerIk: Option<Id>)

  datatype Msg = VerifyAck(ack: Ack) | VerifyResync

  datatype Side = Side(
    me: Id,                  // m_crypto.publicKeyHex()
    held: Option<Id>,        // m_peerKeys
    stamp: Option<Id>,       // m_crypto.peerIdentityHex
    flagged: bool,           // m_unverifiedKeyChange
    pending: bool,           // m_pendingBilateral
    peerVerified: bool,      // m_peerVerified
    attested: Option<Id>,    // m_peerVerifiedForIdentity
    verified: Option<Id>,    // m_verifiedPeerIdentity
    resend: bool,            // m_verifyAckResend
    connected: bool,         // socket state
    queue: seq<Option<Id>>,  // verifyack entries of m_outbox, each with the identity it attests
    stash: seq<Ack>)         // verifyack frames in m_pendingFrames

  /** conversationBlocked */
  predicate Blocked(s: Side) {
    s.flagged || s.pending
  }

  /** The state at the start of a session.  A ratchet session restored from disk may already be
      stamped with an identity, and the history restores which key the user confirmed and which
      identity the peer attested.  The peer's half is in if it attested `mine`, the identity in
      memory when the history opens; a client that was logged out has none then. */
  function Fresh(me: Id, mine: Option<Id>, stamp: Option<Id>, verified: Option<Id>, attested: Option<Id>, connected: bool): Side {
    Side(me, None, stamp, false, false, attested.Some? && attested == mine, attested, verified, false, connected, [], [])
  }

  /** A session starts so, in memory being no identity or the one the user logs in with. */
  predicate Starts(s: Side) {
    || s == Fresh(s.me, None, s.stamp, s.verified, s.attested, s.connected)
    || s == Fresh(s.me, Some(s.me), s.stamp, s.verified, s.attested, s.connected)
  }

  // ---- the handlers ------------------------------------------------------------------

  function SendOrQueueAck(s: Side): (Side, seq<Msg>) {
    if s.connected then (s, [VerifyAck(Ack(Some(s.me), s.held))])
    else (s.(queue := s.queue + [s.held]), [])
  }

  function TryResolve(s: Side): Side {
    if !s.pending || s.flagged || !s.peerVerified then s
    else s.(pending := false, resend := false,
            verified := if s.held.Some? then s.held else s.verified,
            attested := Some(s.me))
  }

  /** flagKeyChange; `throttled` says that a resync went out within the last seconds. */
  function Flag(s: Side, throttled: bool): (Side, seq<Msg>) {
    var s1 := s.(flagged := true, pending := true);
    if s.attested == Some(s.me) then (s1, [])
    else (s1.(peerVerified := false), if s.connected && !throttled then [VerifyResync] else [])
  }

  function MaybeResend(s: Side): (Side, seq<Msg>) {
    if s.resend && s.pending && !s.flagged && !s.peerVerified && s.held.Some? then SendOrQueueAck(s)
    else (s, [])
  }

  predicate Accepts(s: Side, a: Ack) {
    a.ik.Some? && a.ik == s.held && a.peerIk == Some(s.me)
  }

  /** The verifyack branch. */
  function AckArrives(s: Side, a: Ack): Side {
    if s.held.None? then s.(stash := s.stash + [a])
    else if !Accepts(s, a) then s
    else TryResolve(s.(peerVerified := true, attested := Some(s.me)))
  }

  /** replayPendingFrames, for the stashed acks. */
  function Replay(s: Side, acks: seq<Ack>): Side
    decreases |acks|
  {
    if acks == [] then s else Replay(AckArrives(s, acks[0]), acks[1..])
  }

  /** The detection part of the `keys`, `key` and `key_update` branches: is the key that
      just arrived a change, a new contact, or one already confirmed? */
  function DetectChange(s: Side, pub: Id, hadSession: bool, persisted: bool, throttled: bool): (Side, seq<Msg>) {
    var s1 := s.(held := Some(pub), stamp := Some(pub));
    var keyChanged := s.stamp.Some? && s.stamp.value != pub;       // ensureSharedKey
    var stale := hadSession && s.stamp.Some? && s.stamp.value != pub;
    var newPeer := !hadSession && s.stamp.None? && !persisted && !s.flagged;
    if s.verified == Some(pub) && !keyChanged && !stale then (s1, [])
    else if keyChanged || stale then Flag(s1.(attested := None, verified := None), throttled)
    else if newPeer then Flag(s1, throttled)
    else (s1, [])
  }

  /** What a key in force for the peer changes before anything stashed is replayed. */
  function AdoptKey(s: Side, pub: Id, hadSession: bool, persisted: bool, throttled: bool): (Side, seq<Msg>) {
    var (s1, m) := DetectChange(s, pub, hadSession, persisted, throttled);
    var (s2, m') := MaybeResend(s1);
    (s2, m + m')
  }

  function KeyArrives(s: Side, pub: Id, hadSession: bool, persisted: bool, throttled: bool): (Side, seq<Msg>) {
    var (s1, m) := AdoptKey(s, pub, hadSession, persisted, throttled);
    (Replay(s1.(stash := []), s1.stash), m)
  }

  /** The verify_resync branch. */
  function ResyncArrives(s: Side): (Side, seq<Msg>) {
    if s.held.Some? && !s.flagged && !s.pending then SendOrQueueAck(s) else (s, [])
  }

  /** acknowledgeKeyChange */
  function Confirm(s: Side): (Side, seq<Msg>) {
    if !s.flagged then (TryResolve(s), []) else
    var (s1, m) := SendOrQueueAck(s.(flagged := false));
    (TryResolve(s1.(resend := !s.peerVerified)), m)
  }

  /** The verifyack entries flushOutbox may transmit; others wait or are dropped. */
  function FlushSends(s: Side, queue: seq<Option<Id>>): seq<Msg> {
    if queue == [] then []
    else if queue[0].Some? && queue[0] == s.held then [VerifyAck(Ack(Some(s.me), queue[0]))] + FlushSends(s, queue[1..])
    else FlushSends(s, queue[1..])
  }

  /** flushOutbox, for verifyack entries: offline or without a key everything waits,
      otherwise an entry attesting the key in force is sent and any other dropped. */
  function Flush(s: Side): (Side, seq<Msg>) {
    if !s.connected || s.held.None? then (s, [])
    else (s.(queue := []), FlushSends(s, s.queue))
  }

  // ---- one side against an arbitrary environment ---------------------------------------

  datatype Event =
    | Key(pub: Id, hadSession: bool, persisted: bool, throttled: bool)
    | Acked(ack: Ack)
    | Resync
    | Confirms
    | Reflag(throttled: bool)     // flagKeyChange without a change of key
    | Flushes
    | Online
    | Offline

  function Handle(s: Side, e: Event): (Side, seq<Msg>) {
    match e
    case Key(pub, had, persisted, throttled) => KeyArrives(s, pub, had, persisted, throttled)
    case Acked(a) => (AckArrives(s, a), [])
    case Resync => ResyncArrives(s)
    case Confirms => Confirm(s)
    case Reflag(throttled) => if s.held.Some? then Flag(s, throttled) else (s, [])
    case Flushes => Flush(s)
    case Online => (s.(connected := true), [])
    case Offline => (s.(connected := false), [])
  }

  ghost predicate History(ss: seq<Side>, es: seq<Event>) {
    && |ss| == |es| + 1
    && Starts(ss[0])
    && forall k :: 0 <= k < |es| ==> ss[k + 1] == Handle(ss[k], es[k]).0
  }

  /** The bookkeeping every history keeps. */
  predicate Sound(s: Side) {
    && (s.flagged ==> s.pending && s.held.Some?)
    && (s.peerVerified ==> s.attested == Some(s.me))
    && (s.pending && s.peerVerified ==> s.flagged)
    && (s.held.Some? ==> s.stamp == s.held && s.stash == [])
  }

  lemma {:induction false} ReplaySound(s: Side, acks: seq<Ack>)
    requires Sound(s) && s.held.Some?
    ensures Sound(Replay(s, acks))
    ensures Replay(s, acks).held == s.held && Replay(s, acks).flagged == s.flagged
    ensures Replay(s, acks).me == s.me && Replay(s, acks).connected == s.connected && Replay(s, acks).queue == s.queue
    decreases |acks|
  {
    if acks != [] {
      ReplaySound(AckArrives(s, acks[0]), acks[1..]);
    }
  }

  lemma AdoptSound(s: Side, pub: Id, had: bool, persisted: bool, throttled: bool)
    requires Sound(s)
    ensures Sound(AdoptKey(s, pub, had, persisted, throttled).0.(stash := []))
  {}

  lemma KeySound(s: Side, pub: Id, had: bool, persisted: bool, throttled: bool)
    requires Sound(s)
    ensures Sound(KeyArrives(s, pub, had, persisted, throttled).0)
    ensures KeyArrives(s, pub, had, persisted, throttled).0.me == s.me
  {
    hide AckArrives, Flag, MaybeResend;
    AdoptSound(s, pub, had, persisted, throttled);
    var s1 := AdoptKey(s, pub, had, persisted, throttled).0;
    AdoptKeeps(s, pub, had, persisted, throttled);
    ReplaySound(s1.(stash := []), s1.stash);
  }

  lemma AdoptKeeps(s: Side, pub: Id, had: bool, persisted: bool, throttled: bool)
    ensures var s1 := AdoptKey(s, pub, had, persisted, throttled).0;
            s1.me == s.me && s1.held == Some(pub) && s1.stash == s.stash && s1.connected == s.connected
  {}

  lemma AckSound(s: Side, a: Ack)
    requires Sound(s)
    ensures Sound(AckArrives(s, a)) && AckArrives(s, a).me == s.me
  {}

  lemma ConfirmSound(s: Side)
    requires Sound(s)
    ensures Sound(Confirm(s).0) && Confirm(s).0.me == s.me
  {}

  lemma ReflagSound(s: Side, throttled: bool)
    requires Sound(s) && s.held.Some?
    ensures Sound(Flag(s, throttled).0) && Flag(s, throttled).0.me == s.me
  {}

  lemma PlainSound(s: Side, e: Event)
    requires Sound(s) && (e.Resync? || e.Flushes? || e.Online? || e.Offline?)
    ensures Sound(Handle(s, e).0) && Handle(s, e).0.me == s.me
  {
    hide KeyArrives, AckArrives, Confirm, Flag, FlushSends;
  }

  lemma HandleSound(s: Side, e: Event)
    requires Sound(s)
    ensures Sound(Handle(s, e).0)
    ensures Handle(s, e).0.me == s.me
  {
    hide Sound, KeyArrives, AckArrives, Confirm, Flag, ResyncArrives, Flush;
    match e
    case Key(pub, had, persisted, throttled) => KeySound(s, pub, had, persisted, throttled);
    case Acked(a) => AckSound(s, a);
    case Confirms => ConfirmSound(s);
    case Reflag(throttled) =>
      if s.held.Some? { ReflagSound(s, throttled); }
    case _ => PlainSound(s, e);
  }

  /** Over every history: an unverified peer is always pending, and a peer counted as
      having verified us attested the identity we hold now. */
  lemma {:induction false} GateBookkeeping(ss: seq<Side>, es: seq<Event>, k: nat)
    requires History(ss, es) && k <= |es|
    ensures Sound(ss[k])
    ensures ss[k].flagged ==> ss[k].pending
    ensures ss[k].peerVerified ==> ss[k].attested == Some(ss[k].me)
  {
    if k > 0 {
      GateBookkeeping(ss, es, k - 1);
      HandleSound(ss[k - 1], es[k - 1]);
    }
  }

  /** A key frame that states another key than the one the client knew for the peer. */
  predicate ChangesKey(s: Side, e: Event) {
    e.Key? && s.stamp.Some? && s.stamp.value != e.pub
  }

  /** The event makes the client accept a verifyack from key `key`. */
  ghost predicate AcceptsFrom(s: Side, e: Event, key: Id) {
    var good := Ack(Some(key), Some(s.me));
    || (e == Acked(good) && s.held == Some(key))
    || (e.Key? && e.pub == key && good in s.stash)
  }

  lemma {:induction false} ReplayAccepts(s: Side, acks: seq<Ack>)
    requires Sound(s) && s.held.Some? && s.pending && !s.peerVerified
    requires Ack(s.held, Some(s.me)) !in acks
    ensures Replay(s, acks) == s
    decreases |acks|
  {
    if acks != [] {
      assert !Accepts(s, acks[0]);
      assert AckArrives(s, acks[0]) == s;
      ReplayAccepts(s, acks[1..]);
    }
  }

  /** Right after a change of key the gate is shut and nothing counts as confirmed,
      unless a matching verifyack was already waiting. */
  lemma ChangeShuts(s: Side, e: Event)
    requires Sound(s) && ChangesKey(s, e)
    ensures var s1 := Handle(s, e).0;
            && s1.flagged && s1.pending && s1.held == Some(e.pub)
            && (AcceptsFrom(s, e, e.pub) || !s1.peerVerified)
  {
    AdoptSound(s, e.pub, e.hadSession, e.persisted, e.throttled);
    var s1 := AdoptKey(s, e.pub, e.hadSession, e.persisted, e.throttled).0;
    assert s1.flagged && s1.pending && !s1.peerVerified && s1.stash == s.stash;
    ReplaySound(s1.(stash := []), s1.stash);
    if Ack(Some(e.pub), Some(s.me)) !in s.stash {
      ReplayAccepts(s1.(stash := []), s1.stash);
    }
  }

  /** While the key stays the same, only a user confirmation clears the flag and only an
      accepted verifyack records the peer's half. */
  lemma NothingElseOpens(s: Side, e: Event, key: Id)
    requires Sound(s) && s.held == Some(key) && !ChangesKey(s, e)
    ensures var s1 := Handle(s, e).0;
            && s1.held == Some(key)
            && (s.flagged && e != Confirms ==> s1.flagged)
            && (s.pending && !s.peerVerified && !AcceptsFrom(s, e, key) ==> s1.pending && !s1.peerVerified)
  {
    if e.Key? {
      AdoptSound(s, e.pub, e.hadSession, e.persisted, e.throttled);
      assert s.stash == [];
    }
  }

  /** Gate safety.  After a key change at step c, as long as the key does not change
      again, the gate is open only if the user has confirmed since and a verifyack
      from exactly the new key has been accepted since. */
  lemma {:induction false} GateSafety(ss: seq<Side>, es: seq<Event>, c: nat, k: nat)
    requires History(ss, es) && c < k <= |es|
    requires ChangesKey(ss[c], es[c])
    requires forall i :: c < i < k ==> !ChangesKey(ss[i], es[i])
    ensures ss[k].held == Some(es[c].pub)
    ensures ss[k].flagged || exists i :: c < i < k && es[i] == Confirms
    ensures (ss[k].pending && !ss[k].peerVerified)
         || exists j :: c <= j < k && AcceptsFrom(ss[j], es[j], es[c].pub)
    ensures !Blocked(ss[k]) ==>
              && (exists i :: c < i < k && es[i] == Confirms)
              && (exists j :: c <= j < k && AcceptsFrom(ss[j], es[j], es[c].pub))
  {
    GateBookkeeping(ss, es, k - 1);
    if k == c + 1 {
      ChangeShuts(ss[c], es[c]);
    } else {
      GateSafety(ss, es, c, k - 1);
      NothingElseOpens(ss[k - 1], es[k - 1], es[c].pub);
    }
  }
}
