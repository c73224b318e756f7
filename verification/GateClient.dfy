/**
 The gate as the client object keeps it: sets and maps over all peers, changed in place.

 `Client.SideOf(p)` is the record of module Gate for peer p.  Every method is proved to
 do to that record exactly what the handler of module Gate does, to send exactly its
 frames, and to leave every other peer's record alone.
 */
module GateClient {
  import opened Wrappers
  import opened Gate

  type Peer = nat

  /** A verifyack entry of the outbox: who it is for and the identity it attests. */
  datatype Queued = Queued(peer: Peer, attests: Option<Id>)

  /** A frame handed to the socket. */
  datatype Sent = Sent(peer: Peer, msg: Msg)

  function Lookup(m: map<Peer, Id>, p: Peer): Option<Id> {
    if p in m then Some(m[p]) else None
  }

  function QueueFor(outbox: seq<Queued>, p: Peer): seq<Option<Id>> {
    if outbox == [] then []
    else if outbox[0].peer == p then [outbox[0].attests] + QueueFor(outbox[1..], p)
    else QueueFor(outbox[1..], p)
  }

  function SentTo(wire: seq<Sent>, p: Peer): seq<Msg> {
    if wire == [] then []
    else if wire[0].peer == p then [wire[0].msg] + SentTo(wire[1..], p)
    else SentTo(wire[1..], p)
  }

  function Addressed(p: Peer, ms: seq<Msg>): seq<Sent> {
    seq(|ms|, i requires 0 <= i < |ms| => Sent(p, ms[i]))
  }

  lemma AddressedParts(p: Peer, ms: seq<Msg>, ns: seq<Msg>)
    ensures Addressed(p, ms + ns) == Addressed(p, ms) + Addressed(p, ns)
    ensures Addressed(p, []) == []
  {}

  lemma {:induction false} QueueForAppend(outbox: seq<Queued>, q: Queued, p: Peer)
    ensures QueueFor(outbox + [q], p) == QueueFor(outbox, p) + (if q.peer == p then [q.attests] else [])
  {
    if outbox == [] {
      assert [q][1..] == [];
    } else {
      assert (outbox + [q])[1..] == outbox[1..] + [q];
      QueueForAppend(outbox[1..], q, p);
    }
  }

  predicate Waits(connected: bool, keys: map<Peer, Id>, m: Queued) {
    !connected || m.peer !in keys
  }

  predicate Goes(connected: bool, keys: map<Peer, Id>, m: Queued) {
    !Waits(connected, keys, m) && m.attests == Some(keys[m.peer])
  }

  /** What a drain of `pending` puts back. */
  function KeptBack(connected: bool, keys: map<Peer, Id>, pending: seq<Queued>): seq<Queued> {
    if pending == [] then []
    else if Waits(connected, keys, pending[0]) then [pending[0]] + KeptBack(connected, keys, pending[1..])
    else KeptBack(connected, keys, pending[1..])
  }

  function AckFrame(me: Id, m: Queued): Sent {
    Sent(m.peer, VerifyAck(Ack(Some(me), m.attests)))
  }

  /** What a drain of `pending` transmits. */
  function Transmitted(me: Id, connected: bool, keys: map<Peer, Id>, pending: seq<Queued>): seq<Sent> {
    if pending == [] then []
    else if Goes(connected, keys, pending[0])
    then [AckFrame(me, pending[0])] + Transmitted(me, connected, keys, pending[1..])
    else Transmitted(me, connected, keys, pending[1..])
  }

  /** The key requests a drain of `pending` sends. */
  function Requested(connected: bool, keys: map<Peer, Id>, pending: seq<Queued>): seq<Peer> {
    if pending == [] then []
    else if connected && pending[0].peer !in keys then [pending[0].peer] + Requested(connected, keys, pending[1..])
    else Requested(connected, keys, pending[1..])
  }

  lemma {:induction false} SentToParts(a: seq<Sent>, b: seq<Sent>, p: Peer)
    ensures SentTo(a + b, p) == SentTo(a, p) + SentTo(b, p)
  {
    if a == [] {
      assert a + b == b;
    } else {
      assert (a + b)[1..] == a[1..] + b;
      SentToParts(a[1..], b, p);
    }
  }

  lemma {:induction false} SentToAddressed(p: Peer, ms: seq<Msg>, q: Peer)
    ensures SentTo(Addressed(p, ms), q) == if q == p then ms else []
    decreases |ms|
  {
    if ms != [] {
      assert Addressed(p, ms)[1..] == Addressed(p, ms[1..]);
      SentToAddressed(p, ms[1..], q);
    }
  }

  lemma {:induction false} DrainPerPeer(s: Side, keys: map<Peer, Id>, pending: seq<Queued>, p: Peer)
    requires s.held == Lookup(keys, p)
    ensures var free := s.connected && p in keys;
            && QueueFor(KeptBack(s.connected, keys, pending), p) == (if free then [] else QueueFor(pending, p))
            && SentTo(Transmitted(s.me, s.connected, keys, pending), p)
                 == (if free then FlushSends(s, QueueFor(pending, p)) else [])
  {
    if pending != [] {
      DrainPerPeer(s, keys, pending[1..], p);
      var m := pending[0];
      if Waits(s.connected, keys, m) {
        QueueForCons(m, KeptBack(s.connected, keys, pending[1..]), p);
      }
      if Goes(s.connected, keys, m) {
        SentToCons(AckFrame(s.me, m), Transmitted(s.me, s.connected, keys, pending[1..]), p);
      }
    }
  }

  /** How often p is asked for. */
  function AsksFor(requests: seq<Peer>, p: Peer): nat {
    if requests == [] then 0 else (if requests[0] == p then 1 else 0) + AsksFor(requests[1..], p)
  }

  lemma AsksForCons(x: Peer, rest: seq<Peer>, p: Peer)
    ensures AsksFor([x] + rest, p) == (if x == p then 1 else 0) + AsksFor(rest, p)
  {
    assert ([x] + rest)[1..] == rest;
  }

  /** A drain asks for a peer's key once for every entry that waits for it, if the socket is up,
      and for no other. */
  lemma {:induction false} AsksForMissingKeys(connected: bool, keys: map<Peer, Id>, pending: seq<Queued>, p: Peer)
    ensures AsksFor(Requested(connected, keys, pending), p)
         == if connected && p !in keys then |QueueFor(pending, p)| else 0
  {
    if pending != [] {
      AsksForMissingKeys(connected, keys, pending[1..], p);
      AsksForCons(pending[0].peer, Requested(connected, keys, pending[1..]), p);
    }
  }

  lemma QueueForCons(m: Queued, rest: seq<Queued>, p: Peer)
    ensures QueueFor([m] + rest, p) == (if m.peer == p then [m.attests] else []) + QueueFor(rest, p)
  {
    assert ([m] + rest)[1..] == rest;
  }

  lemma SentToCons(x: Sent, rest: seq<Sent>, p: Peer)
    ensures SentTo([x] + rest, p) == (if x.peer == p then [x.msg] else []) + SentTo(rest, p)
  {
    assert ([x] + rest)[1..] == rest;
  }

  class Client {
    const me: Id
    var connected: bool
    var peerKeys: map<Peer, Id>
    var stamps: map<Peer, Id>
    var unverifiedKeyChange: set<Peer>
    var pendingBilateral: set<Peer>
    var peerVerified: set<Peer>
    var peerVerifiedForIdentity: map<Peer, Id>
    var verifiedPeerIdentity: map<Peer, Id>
    var verifyAckResend: set<Peer>
    var outbox: seq<Queued>
    var pendingFrames: map<Peer, seq<Ack>>
    var wire: seq<Sent>
    var requests: seq<Peer>      // getkey frames, by the peer asked for

    ghost function SideOf(p: Peer): Side
      reads this
    {
      Side(me, Lookup(peerKeys, p), Lookup(stamps, p), p in unverifiedKeyChange, p in pendingBilateral,
           p in peerVerified, Lookup(peerVerifiedForIdentity, p), Lookup(verifiedPeerIdentity, p),
           p in verifyAckResend, connected, QueueFor(outbox, p),
           if p in pendingFrames then pendingFrames[p] else [])
    }

    /** The fields behind the record, for callers that do not unfold it. */
    lemma SideFields(p: Peer)
      ensures var s := SideOf(p);
              && s.stamp == Lookup(stamps, p) && s.verified == Lookup(verifiedPeerIdentity, p)
              && s.flagged == (p in unverifiedKeyChange) && s.peerVerified == (p in peerVerified)
              && s.me == me && s.held == Lookup(peerKeys, p) && s.connected == connected
    {}

    /** A login: the history restores the keys the user confirmed and the identities the peers
        attested, `mine` being the identity in memory at that moment, and the sessions come back
        with their stamps. */
    constructor (me: Id, mine: Option<Id>, stamps: map<Peer, Id>, confirmed: map<Peer, Id>, attestations: map<Peer, Id>)
      ensures this.me == me && wire == [] && requests == []
      ensures forall p :: SideOf(p) == Fresh(me, mine, Lookup(stamps, p), Lookup(confirmed, p),
                                             Lookup(attestations, p), false)
    {
      this.me, this.stamps, connected := me, stamps, false;
      peerKeys, peerVerifiedForIdentity, verifiedPeerIdentity := map[], attestations, confirmed;
      unverifiedKeyChange, pendingBilateral, verifyAckResend := {}, {}, {};
      peerVerified := set p | p in attestations && mine == Some(attestations[p]);
      outbox, pendingFrames, wire, requests := [], map[], [], [];
    }

    method SendOrQueueVerifyAck(p: Peer)
      modifies this`outbox, this`wire
      ensures var (s, out) := SendOrQueueAck(old(SideOf(p)));
              SideOf(p) == s && wire == old(wire) + Addressed(p, out)
      ensures forall q :: q != p ==> SideOf(q) == old(SideOf(q))
    {
      var verifiedIdentity := Lookup(peerKeys, p);
      if !connected {
        forall q ensures QueueFor(outbox + [Queued(p, verifiedIdentity)], q)
                      == QueueFor(outbox, q) + (if p == q then [verifiedIdentity] else [])
        {
          QueueForAppend(outbox, Queued(p, verifiedIdentity), q);
        }
        outbox := outbox + [Queued(p, verifiedIdentity)];
      } else {
        wire := wire + [Sent(p, VerifyAck(Ack(Some(me), verifiedIdentity)))];
      }
    }

    method SendVerifyResync(p: Peer, throttled: bool)
      modifies this`wire
      ensures wire == old(wire) + (if connected && !throttled then [Sent(p, VerifyResync)] else [])
    {
      if connected && !throttled {
        wire := wire + [Sent(p, VerifyResync)];
      }
    }

    method TryResolveBilateral(p: Peer)
      modifies this`pendingBilateral, this`verifyAckResend, this`verifiedPeerIdentity, this`peerVerifiedForIdentity
      ensures SideOf(p) == TryResolve(old(SideOf(p)))
      ensures forall q :: q != p ==> SideOf(q) == old(SideOf(q))
    {
      if p !in pendingBilateral { return; }
      if p in unverifiedKeyChange { return; }
      if p !in peerVerified { return; }
      pendingBilateral := pendingBilateral - {p};
      verifyAckResend := verifyAckResend - {p};
      if p in peerKeys {
        verifiedPeerIdentity := verifiedPeerIdentity[p := peerKeys[p]];
      }
      peerVerifiedForIdentity := peerVerifiedForIdentity[p := me];
    }

    method FlagKeyChange(p: Peer, throttled: bool)
      modifies this`unverifiedKeyChange, this`pendingBilateral, this`peerVerified, this`wire
      ensures var (s, out) := Flag(old(SideOf(p)), throttled);
              SideOf(p) == s && wire == old(wire) + Addressed(p, out)
      ensures forall q :: q != p ==> SideOf(q) == old(SideOf(q))
    {
      unverifiedKeyChange := unverifiedKeyChange + {p};
      pendingBilateral := pendingBilateral + {p};
      if Lookup(peerVerifiedForIdentity, p) != Some(me) {
        peerVerified := peerVerified - {p};
        SendVerifyResync(p, throttled);
      }
    }

    method MaybeResendVerifyAck(p: Peer)
      modifies this`outbox, this`wire
      ensures var (s, out) := MaybeResend(old(SideOf(p)));
              SideOf(p) == s && wire == old(wire) + Addressed(p, out)
      ensures forall q :: q != p ==> SideOf(q) == old(SideOf(q))
    {
      if p !in verifyAckResend { return; }
      if p !in pendingBilateral { return; }
      if p in unverifiedKeyChange { return; }
      if p in peerVerified { return; }
      if p !in peerKeys { return; }
      SendOrQueueVerifyAck(p);
    }

    /** Moves p in or out of the set of unconfirmed key changes. */
    method SetFlag(p: Peer, flagged: bool)
      modifies this`unverifiedKeyChange
      ensures SideOf(p) == old(SideOf(p)).(flagged := flagged)
      ensures forall q :: q != p ==> SideOf(q) == old(SideOf(q))
    {
      unverifiedKeyChange := if flagged then unverifiedKeyChange + {p} else unverifiedKeyChange - {p};
    }

    /** Moves p in or out of the set of peers owed another verifyack. */
    method SetResend(p: Peer, owed: bool)
      modifies this`verifyAckResend
      ensures SideOf(p) == old(SideOf(p)).(resend := owed)
      ensures forall q :: q != p ==> SideOf(q) == old(SideOf(q))
    {
      verifyAckResend := if owed then verifyAckResend + {p} else verifyAckResend - {p};
    }

    /** Clears the flag and attests: acknowledgeKeyChange up to its drain. */
    method ConfirmPeer(p: Peer)
      requires p in unverifiedKeyChange
      modifies this`unverifiedKeyChange, this`verifyAckResend, this`outbox, this`wire
      ensures var (s, out) := SendOrQueueAck(old(SideOf(p)).(flagged := false));
              SideOf(p) == s.(resend := !s.peerVerified) && wire == old(wire) + Addressed(p, out)
      ensures forall q :: q != p ==> SideOf(q) == old(SideOf(q))
    {
      SideFields(p);
      hide SideOf, SendOrQueueAck, Addressed;
      SetFlag(p, false);
      SendOrQueueVerifyAck(p);
      SideFields(p);
      SetResend(p, p !in peerVerified);
    }

    /** acknowledgeKeyChange, as far as it concerns the gate: on every peer's record it is
        `Confirm` for p, then, if p was flagged and the socket is up, a drain. */
    method AcknowledgeKeyChange(p: Peer)
      modifies this`unverifiedKeyChange, this`pendingBilateral, this`verifyAckResend, this`verifiedPeerIdentity,
               this`peerVerifiedForIdentity, this`outbox, this`wire, this`requests
      ensures var drains := p in old(unverifiedKeyChange) && connected;
              && SideOf(p) == (if drains then Flush(Confirm(old(SideOf(p))).0).0 else Confirm(old(SideOf(p))).0)
              && (forall q :: q != p ==>
                   SideOf(q) == if drains then Flush(old(SideOf(q))).0 else old(SideOf(q)))
              && old(wire) <= wire
              && (forall q :: SentTo(wire[|old(wire)|..], q) ==
                   (if q == p then Confirm(old(SideOf(p))).1 else [])
                   + (if !drains then [] else if q == p then Flush(Confirm(old(SideOf(p))).0).1
                      else Flush(old(SideOf(q))).1))
    {
      SideFields(p);
      ghost var wire0 := wire;
      hide SideOf, TryResolve, Flush, Addressed, SentTo;
      if p !in unverifiedKeyChange {
        TryResolveBilateral(p);
        assert wire[|wire0|..] == [];
        SentNothing();
        return;
      }
      ConfirmPeer(p);
      ghost var side, wire1, out := SideOf(p), wire, SendOrQueueAck(old(SideOf(p)).(flagged := false)).1;
      assert wire1 == wire0 + Addressed(p, out);
      FlushResolves(side);
      if connected {
        FlushAcks();
      }
      TryResolveBilateral(p);
      assert wire[|wire0|..] == Addressed(p, out) + wire[|wire1|..];
      SentNothing();
      forall q ensures SentTo(wire[|wire0|..], q) == (if q == p then out else []) + SentTo(wire[|wire1|..], q) {
        SentToParts(Addressed(p, out), wire[|wire1|..], q);
        SentToAddressed(p, out, q);
      }
    }

    /** Stashes an ack whose sender's key is not held, and asks for the key. */
    method StashFrame(p: Peer, a: Ack)
      modifies this`pendingFrames, this`requests
      ensures requests == old(requests) + [p]
      ensures SideOf(p) == old(SideOf(p)).(stash := old(SideOf(p)).stash + [a])
      ensures forall q :: q != p ==> SideOf(q) == old(SideOf(q))
    {
      pendingFrames := pendingFrames[p := (if p in pendingFrames then pendingFrames[p] else []) + [a]];
      requests := requests + [p];
    }

    /** Records that p verified our identity. */
    method RecordPeerVerified(p: Peer)
      modifies this`peerVerified, this`peerVerifiedForIdentity
      ensures SideOf(p) == old(SideOf(p)).(peerVerified := true, attested := Some(me))
      ensures forall q :: q != p ==> SideOf(q) == old(SideOf(q))
    {
      peerVerified := peerVerified + {p};
      peerVerifiedForIdentity := peerVerifiedForIdentity[p := me];
    }

    /** The verifyack branch. */
    method OnVerifyAck(p: Peer, a: Ack)
      modifies this`pendingFrames, this`requests, this`peerVerified, this`peerVerifiedForIdentity,
               this`pendingBilateral, this`verifyAckResend, this`verifiedPeerIdentity
      ensures SideOf(p) == AckArrives(old(SideOf(p)), a)
      ensures requests == old(requests) + if p in peerKeys then [] else [p]
      ensures forall q :: q != p ==> SideOf(q) == old(SideOf(q))
    {
      SideFields(p);
      hide SideOf, TryResolve;
      if p !in peerKeys {
        StashFrame(p, a);
        return;
      }
      if a.ik.None? || a.ik != Some(peerKeys[p]) || a.peerIk.None? || a.peerIk != Some(me) {
        return;
      }
      RecordPeerVerified(p);
      TryResolveBilateral(p);
    }

    method OnVerifyResync(p: Peer)
      modifies this`outbox, this`wire
      ensures var (s, out) := ResyncArrives(old(SideOf(p)));
              SideOf(p) == s && wire == old(wire) + Addressed(p, out)
      ensures forall q :: q != p ==> SideOf(q) == old(SideOf(q))
    {
      if p in peerKeys && p !in unverifiedKeyChange && p !in pendingBilateral {
        SendOrQueueVerifyAck(p);
      }
    }

    /** Takes the stash for p. */
    method TakeFrames(p: Peer) returns (frames: seq<Ack>)
      modifies this`pendingFrames
      ensures frames == old(SideOf(p)).stash && SideOf(p) == old(SideOf(p)).(stash := [])
      ensures forall q :: q != p ==> SideOf(q) == old(SideOf(q))
    {
      if p !in pendingFrames { return []; }
      frames := pendingFrames[p];
      pendingFrames := pendingFrames - {p};
    }

    /** replayPendingFrames: the stash is taken first, then every frame is fed back. */
    method ReplayPendingFrames(p: Peer)
      modifies this`pendingFrames, this`requests, this`peerVerified, this`peerVerifiedForIdentity,
               this`pendingBilateral, this`verifyAckResend, this`verifiedPeerIdentity
      ensures var s := old(SideOf(p)); SideOf(p) == Replay(s.(stash := []), s.stash)
      ensures p in peerKeys ==> requests == old(requests)
      ensures forall q :: q != p ==> SideOf(q) == old(SideOf(q))
    {
      hide SideOf, AckArrives;
      ghost var s := SideOf(p);
      var frames := TakeFrames(p);
      for i := 0 to |frames|
        invariant Replay(SideOf(p), frames[i..]) == Replay(s.(stash := []), frames)
        invariant forall q :: q != p ==> SideOf(q) == old(SideOf(q))
        invariant p in peerKeys ==> requests == old(requests)
      {
        assert frames[i..][0] == frames[i] && frames[i..][1..] == frames[i + 1..];
        OnVerifyAck(p, frames[i]);
      }
    }

    /** Stores the key in force; ensureSharedKey also stamps it on the session. */
    method RecordKey(p: Peer, pub: Id)
      modifies this`peerKeys, this`stamps
      ensures SideOf(p) == old(SideOf(p)).(held := Some(pub), stamp := Some(pub))
      ensures forall q :: q != p ==> SideOf(q) == old(SideOf(q))
    {
      peerKeys := peerKeys[p := pub];
      stamps := stamps[p := pub];
    }

    /** The attestations given for or by the old key no longer count. */
    method VoidAttestations(p: Peer)
      modifies this`peerVerifiedForIdentity, this`verifiedPeerIdentity
      ensures SideOf(p) == old(SideOf(p)).(attested := None, verified := None)
      ensures forall q :: q != p ==> SideOf(q) == old(SideOf(q))
    {
      peerVerifiedForIdentity := peerVerifiedForIdentity - {p};
      verifiedPeerIdentity := verifiedPeerIdentity - {p};
    }

    /** The detection part of the `keys`, `key` and `key_update` branches. */
    method DetectKeyChange(p: Peer, pub: Id, hadSession: bool, persisted: bool, throttled: bool)
      modifies this`peerKeys, this`stamps, this`unverifiedKeyChange, this`pendingBilateral, this`peerVerified,
               this`peerVerifiedForIdentity, this`verifiedPeerIdentity, this`wire
      ensures var (s, out) := DetectChange(old(SideOf(p)), pub, hadSession, persisted, throttled);
              SideOf(p) == s && wire == old(wire) + Addressed(p, out)
      ensures forall q :: q != p ==> SideOf(q) == old(SideOf(q))
    {
      AddressedParts(p, [], []);
      SideFields(p);
      hide SideOf, Flag, Addressed;
      var prior := Lookup(stamps, p);
      RecordKey(p, pub);
      var keyChanged := prior.Some? && prior.value != pub;
      var stale := hadSession && prior.Some? && prior.value != pub;
      var newPeer := !hadSession && prior.None? && !persisted && p !in unverifiedKeyChange;
      if Lookup(verifiedPeerIdentity, p) == Some(pub) && !keyChanged && !stale {
      } else if keyChanged || stale || newPeer {
        if keyChanged || stale {
          VoidAttestations(p);
        }
        FlagKeyChange(p, throttled);
      }
    }

    method AdoptPeerKey(p: Peer, pub: Id, hadSession: bool, persisted: bool, throttled: bool)
      modifies this`peerKeys, this`stamps, this`unverifiedKeyChange, this`pendingBilateral, this`peerVerified,
               this`peerVerifiedForIdentity, this`verifiedPeerIdentity, this`wire, this`outbox
      ensures var (s, out) := AdoptKey(old(SideOf(p)), pub, hadSession, persisted, throttled);
              SideOf(p) == s && wire == old(wire) + Addressed(p, out)
      ensures forall q :: q != p ==> SideOf(q) == old(SideOf(q))
    {
      hide SideOf, DetectChange, MaybeResend, Addressed;
      DetectKeyChange(p, pub, hadSession, persisted, throttled);
      ghost var s1 := SideOf(p);
      MaybeResendVerifyAck(p);
      AddressedParts(p, DetectChange(old(SideOf(p)), pub, hadSession, persisted, throttled).1, MaybeResend(s1).1);
    }

    method OnKey(p: Peer, pub: Id, hadSession: bool, persisted: bool, throttled: bool)
      modifies this`peerKeys, this`stamps, this`unverifiedKeyChange, this`pendingBilateral, this`peerVerified,
               this`peerVerifiedForIdentity, this`verifiedPeerIdentity, this`wire, this`outbox,
               this`pendingFrames, this`requests, this`verifyAckResend
      ensures var (s, out) := KeyArrives(old(SideOf(p)), pub, hadSession, persisted, throttled);
              SideOf(p) == s && wire == old(wire) + Addressed(p, out)
      ensures forall q :: q != p ==> SideOf(q) == old(SideOf(q))
      ensures requests == old(requests)
    {
      hide SideOf, DetectChange, MaybeResend, Replay, Addressed;
      AdoptPeerKey(p, pub, hadSession, persisted, throttled);
      AdoptHolds(old(SideOf(p)), pub, hadSession, persisted, throttled);
      SideFields(p);
      ReplayPendingFrames(p);
    }

    /** The loop of flushOutbox over its verifyack entries. */
    method DrainAcks()
      modifies this`outbox, this`wire, this`requests
      ensures outbox == KeptBack(connected, peerKeys, old(outbox))
      ensures wire == old(wire) + Transmitted(me, connected, peerKeys, old(outbox))
      ensures requests == old(requests) + Requested(connected, peerKeys, old(outbox))
    {
      hide KeptBack, Transmitted, Requested;
      var pending := outbox;
      outbox := [];
      for i := 0 to |pending|
        invariant outbox + KeptBack(connected, peerKeys, pending[i..]) == KeptBack(connected, peerKeys, pending)
        invariant wire + Transmitted(me, connected, peerKeys, pending[i..])
               == old(wire) + Transmitted(me, connected, peerKeys, pending)
        invariant requests + Requested(connected, peerKeys, pending[i..])
               == old(requests) + Requested(connected, peerKeys, pending)
      {
        var m := pending[i];
        assert pending[i..] == [m] + pending[i + 1..];
        DrainHead(me, connected, peerKeys, m, pending[i + 1..], outbox, wire, requests);
        if !connected {
          outbox := outbox + [m];
        } else if m.peer !in peerKeys {
          requests := requests + [m.peer];
          outbox := outbox + [m];
        } else if m.attests.None? || m.attests != Some(peerKeys[m.peer]) {
        } else {
          wire := wire + [AckFrame(me, m)];
        }
      }
      DrainEnd(me, connected, peerKeys, pending[|pending|..]);
    }

    /** flushOutbox, for its verifyack entries, over all peers at once. */
    method FlushAcks()
      modifies this`outbox, this`wire, this`requests
      ensures forall p :: SideOf(p) == Flush(old(SideOf(p))).0
      ensures old(wire) <= wire
      ensures forall p :: SentTo(wire[|old(wire)|..], p) == Flush(old(SideOf(p))).1
      ensures requests == old(requests) + Requested(connected, peerKeys, old(outbox))
    {
      hide FlushSends, QueueFor, SentTo, KeptBack, Transmitted, Requested;
      DrainAcks();
      assert wire[|old(wire)|..] == Transmitted(me, connected, peerKeys, old(outbox));
      forall p
        ensures SideOf(p) == Flush(old(SideOf(p))).0
        ensures SentTo(wire[|old(wire)|..], p) == Flush(old(SideOf(p))).1
      {
        DrainPerPeer(old(SideOf(p)), peerKeys, old(outbox), p);
      }
    }
  }

  lemma AdoptHolds(s: Side, pub: Id, hadSession: bool, persisted: bool, throttled: bool)
    ensures AdoptKey(s, pub, hadSession, persisted, throttled).0.held == Some(pub)
  {}

  /** One entry's share of what a drain puts back, transmits and asks for, after what the
      entries before it left. */
  lemma DrainHead(me: Id, connected: bool, keys: map<Peer, Id>, m: Queued, rest: seq<Queued>,
                  kept: seq<Queued>, wire: seq<Sent>, requests: seq<Peer>)
    ensures kept + KeptBack(connected, keys, [m] + rest)
         == (if Waits(connected, keys, m) then kept + [m] else kept) + KeptBack(connected, keys, rest)
    ensures wire + Transmitted(me, connected, keys, [m] + rest)
         == (if Goes(connected, keys, m) then wire + [AckFrame(me, m)] else wire) + Transmitted(me, connected, keys, rest)
    ensures requests + Requested(connected, keys, [m] + rest)
         == (if connected && m.peer !in keys then requests + [m.peer] else requests) + Requested(connected, keys, rest)
  {
    assert ([m] + rest)[1..] == rest;
  }

  lemma DrainEnd(me: Id, connected: bool, keys: map<Peer, Id>, rest: seq<Queued>)
    requires rest == []
    ensures KeptBack(connected, keys, rest) == [] && Transmitted(me, connected, keys, rest) == []
    ensures Requested(connected, keys, rest) == []
  {}

  lemma SentNothing()
    ensures forall p :: SentTo([], p) == []
  {}

  /** Resolving an episode and draining verifyacks do not disturb each other. */
  lemma FlushResolves(s: Side)
    ensures TryResolve(Flush(s).0) == Flush(TryResolve(s)).0
    ensures Flush(TryResolve(s)).1 == Flush(s).1
  {
    FlushSendsAlike(s, TryResolve(s), s.queue);
  }

  lemma {:induction false} FlushSendsAlike(s: Side, t: Side, queue: seq<Option<Id>>)
    requires s.me == t.me && s.held == t.held
    ensures FlushSends(s, queue) == FlushSends(t, queue)
  {
    if queue != [] {
      FlushSendsAlike(s, t, queue[1..]);
    }
  }
}
