/**
 The send gate told by what happened to it.  Which key is in force, whether the flag is up,
 whether the peer's half is in, whether messages may go out and what is sent are stated about
 the list of events and the state the session began with, and proved of module Gate's handlers
 over every history.
 */
module GateHistory {
  import opened Wrappers
  import opened Gate

  // ---- what happened ----------------------------------------------------------------

  /** The key in force after the first k events: the last one the relay stated. */
  function KeyAt(es: seq<Event>, k: nat): Option<Id>
    requires k <= |es|
  {
    if k == 0 then None else if es[k - 1].Key? then Some(es[k - 1].pub) else KeyAt(es, k - 1)
  }

  /** The identity the client knows the peer by.  Before the first key of a session it is the
      stamp on a ratchet session restored from disk, if any. */
  function KnownAt(s0: Side, es: seq<Event>, k: nat): Option<Id>
    requires k <= |es|
  {
    if KeyAt(es, k).Some? then KeyAt(es, k) else s0.stamp
  }

  function OnlineAt(s0: Side, es: seq<Event>, k: nat): bool
    requires k <= |es|
  {
    if k == 0 then s0.connected
    else es[k - 1].Online? || (!es[k - 1].Offline? && OnlineAt(s0, es, k - 1))
  }

  /** Event k states another key than the one the client knows the peer by. */
  predicate Changes(s0: Side, es: seq<Event>, k: nat)
    requires k < |es|
  {
    es[k].Key? && KnownAt(s0, es, k).Some? && KnownAt(s0, es, k) != Some(es[k].pub)
  }

  /** Event k asks the user to verify: the key changes, or the peer was never met (nothing known
      of it, no session in memory, none on disk, and this key not confirmed in an earlier
      session), or it is flagged again. */
  predicate Raises(s0: Side, es: seq<Event>, k: nat)
    requires k < |es|
  {
    var e := es[k];
    match e
    case Key(pub, had, persisted, _) =>
      Changes(s0, es, k) || (KnownAt(s0, es, k).None? && !had && !persisted && s0.verified != Some(pub))
    case Reflag(_) => KeyAt(es, k).Some?
    case _ => false
  }

  ghost predicate Raised(s0: Side, es: seq<Event>, k: nat)
    requires k <= |es|
  {
    exists c :: 0 <= c < k && Raises(s0, es, c)
  }

  /** The user was asked and has not confirmed since. */
  ghost predicate FlagUp(s0: Side, es: seq<Event>, k: nat)
    requires k <= |es|
  {
    exists c :: 0 <= c < k && Raises(s0, es, c) && forall i :: c < i < k ==> es[i] != Confirms
  }

  /** The verifyack by which the holder of `key` attests our identity. */
  function Attestation(s0: Side, key: Option<Id>): Event {
    Acked(Ack(key, Some(s0.me)))
  }

  /** The holder of the key in force attested our identity, and no other key was in force
      from then on. */
  ghost predicate Attested(s0: Side, es: seq<Event>, k: nat)
    requires k <= |es|
  {
    && KeyAt(es, k).Some?
    && exists j :: 0 <= j < k && es[j] == Attestation(s0, KeyAt(es, k)) && NoOtherKey(es, j, k, KeyAt(es, k))
  }

  predicate OnlyKey(es: seq<Event>, i: nat, key: Option<Id>)
    requires i <= |es|
  {
    KeyAt(es, i).None? || KeyAt(es, i) == key
  }

  ghost predicate NoOtherKey(es: seq<Event>, j: nat, k: nat, key: Option<Id>)
    requires k <= |es|
  {
    forall i :: j <= i < k ==> OnlyKey(es, i, key)
  }

  /** The history restored an attestation of our identity, and the key has not changed since. */
  ghost predicate Restored(s0: Side, es: seq<Event>, k: nat)
    requires k <= |es|
  {
    s0.attested == Some(s0.me) && forall i :: 0 <= i < k ==> !Changes(s0, es, i)
  }

  /** Our identity is on record as attested. */
  ghost predicate Vouched(s0: Side, es: seq<Event>, k: nat)
    requires k <= |es|
  {
    Attested(s0, es, k) || Restored(s0, es, k)
  }

  /** The peer's half is in.  A restored attestation counts if the session began with it. */
  ghost predicate PeerIn(s0: Side, es: seq<Event>, k: nat)
    requires k <= |es|
  {
    Attested(s0, es, k) || (s0.peerVerified && Restored(s0, es, k))
  }

  /** The user has confirmed, the peer has not. */
  ghost predicate Waiting(s0: Side, es: seq<Event>, k: nat)
    requires k <= |es|
  {
    Raised(s0, es, k) && !FlagUp(s0, es, k) && !PeerIn(s0, es, k)
  }

  ghost predicate Open(s0: Side, es: seq<Event>, k: nat)
    requires k <= |es|
  {
    Raised(s0, es, k) ==> !FlagUp(s0, es, k) && PeerIn(s0, es, k)
  }

  /** The user has confirmed since the gate was shut, and it is shut still: should the key arrive
      again, the attestation is repeated. */
  ghost predicate Confirmed(s0: Side, es: seq<Event>, k: nat)
    requires k <= |es|
  {
    k > 0 && !Open(s0, es, k) && ((es[k - 1] == Confirms && FlagUp(s0, es, k - 1)) || Confirmed(s0, es, k - 1))
  }

  /** The key on record as confirmed by both, which a later session restores: that of the last
      opening of a shut gate, if the key has not changed since. */
  ghost function ConfirmedKey(s0: Side, es: seq<Event>, k: nat): Option<Id>
    requires k <= |es|
  {
    if k == 0 then s0.verified
    else if Changes(s0, es, k - 1) then None
    else if !Open(s0, es, k - 1) && Open(s0, es, k) then KeyAt(es, k)
    else ConfirmedKey(s0, es, k - 1)
  }

  // ---- how that changes with one more event ---------------------------------------------

  lemma RaisedNext(s0: Side, es: seq<Event>, k: nat)
    requires k < |es|
    ensures Raised(s0, es, k + 1) <==> Raised(s0, es, k) || Raises(s0, es, k)
    ensures FlagUp(s0, es, k + 1) <==> Raises(s0, es, k) || (FlagUp(s0, es, k) && es[k] != Confirms)
  {
    hide Raises;
  }

  function AcksBefore(es: seq<Event>, k: nat): seq<Ack>
    requires k <= |es|
  {
    if k == 0 then [] else AcksBefore(es, k - 1) + if es[k - 1].Acked? then [es[k - 1].ack] else []
  }

  lemma {:induction false} AcksBeforeHolds(es: seq<Event>, k: nat, a: Ack)
    requires k <= |es|
    ensures a in AcksBefore(es, k) <==> exists j :: 0 <= j < k && es[j] == Acked(a)
  {
    if k > 0 {
      AcksBeforeHolds(es, k - 1, a);
    }
  }

  lemma {:induction false} NoKeyBefore(es: seq<Event>, j: nat, k: nat)
    requires j <= k <= |es| && KeyAt(es, k).None?
    ensures KeyAt(es, j).None?
    decreases k
  {
    if j < k {
      NoKeyBefore(es, j, k - 1);
    }
  }

  /** The attestation once event k has happened. */
  predicate AttestedNext(s0: Side, es: seq<Event>, k: nat, before: bool)
    requires k < |es|
  {
    match es[k]
    case Key(pub, _, _, _) =>
      if KeyAt(es, k).None? then Ack(Some(pub), Some(s0.me)) in AcksBefore(es, k)
      else KeyAt(es, k) == Some(pub) && before
    case Acked(a) => before || (KeyAt(es, k).Some? && es[k] == Attestation(s0, KeyAt(es, k)))
    case _ => before
  }

  lemma AttestedSame(s0: Side, es: seq<Event>, k: nat)
    requires k < |es| && KeyAt(es, k + 1) == KeyAt(es, k)
    ensures Attested(s0, es, k + 1)
       <==> Attested(s0, es, k) || (KeyAt(es, k).Some? && es[k] == Attestation(s0, KeyAt(es, k)))
  {
    assert OnlyKey(es, k, KeyAt(es, k));
    var key := KeyAt(es, k);
    hide KeyAt;
    if Attested(s0, es, k) {
      var j :| 0 <= j < k && es[j] == Attestation(s0, key) && NoOtherKey(es, j, k, key);
      assert NoOtherKey(es, j, k + 1, key);
    }
    if Attested(s0, es, k + 1) && es[k] != Attestation(s0, key) {
      var j :| 0 <= j < k + 1 && es[j] == Attestation(s0, key) && NoOtherKey(es, j, k + 1, key);
      assert j < k && NoOtherKey(es, j, k, key);
    }
    if key.Some? && es[k] == Attestation(s0, key) {
      assert NoOtherKey(es, k, k + 1, key);
    }
  }

  lemma AttestedFirstKey(s0: Side, es: seq<Event>, k: nat)
    requires k < |es| && es[k].Key? && KeyAt(es, k).None?
    ensures Attested(s0, es, k + 1) <==> Ack(Some(es[k].pub), Some(s0.me)) in AcksBefore(es, k)
  {
    var a := Ack(Some(es[k].pub), Some(s0.me));
    AcksBeforeHolds(es, k, a);
    if a in AcksBefore(es, k) {
      var j :| 0 <= j < k && es[j] == Acked(a);
      forall i | j <= i < k + 1 ensures OnlyKey(es, i, Some(es[k].pub)) { NoKeyBefore(es, i, k); }
      assert NoOtherKey(es, j, k + 1, Some(es[k].pub));
      assert es[j] == Attestation(s0, KeyAt(es, k + 1));
    }
  }

  lemma AttestedIsNext(s0: Side, es: seq<Event>, k: nat)
    requires k < |es|
    ensures Attested(s0, es, k + 1) <==> AttestedNext(s0, es, k, Attested(s0, es, k))
  {
    if KeyAt(es, k + 1) == KeyAt(es, k) {
      AttestedSame(s0, es, k);
    } else if KeyAt(es, k).None? {
      AttestedFirstKey(s0, es, k);
    } else {
      assert !OnlyKey(es, k, KeyAt(es, k + 1));
    }
  }

  // ---- the record of the peer follows -------------------------------------------------------

  /** What is told of a record: whether the user was ever asked, and still is; whether our
      identity is on record as attested, and the peer's half in; and whether the user confirmed
      since the gate was shut. */
  datatype Tale = Tale(raised: bool, up: bool, vouched: bool, peerIn: bool, confirmed: bool)

  predicate Shut(t: Tale) {
    t.raised && (t.up || !t.peerIn)
  }

  predicate Fits(s: Side, t: Tale) {
    && (t.up ==> t.raised) && (t.peerIn ==> t.vouched)
    && (s.held.None? ==> !t.raised)
    && s.flagged == t.up && s.peerVerified == t.peerIn && s.pending == Shut(t)
    && (s.attested == Some(s.me) <==> t.vouched)
    && s.resend == t.confirmed && (t.confirmed ==> Shut(t)) && (Shut(t) && !t.up ==> t.confirmed)
    && (s.held.Some? ==> s.stamp == s.held && s.stash == [])
  }

  /** What accepting a verifyack makes of the record; a second one changes nothing. */
  function Accepted(s: Side): Side {
    TryResolve(s.(peerVerified := true, attested := Some(s.me)))
  }

  lemma {:induction false} ReplayOnce(s: Side, acks: seq<Ack>)
    requires s.held.Some?
    ensures Replay(s, acks) == if Ack(s.held, Some(s.me)) in acks then Accepted(s) else s
    decreases |acks|
  {
    if acks != [] {
      var s1 := AckArrives(s, acks[0]);
      assert acks[0] == Ack(s.held, Some(s.me)) ==> s1 == Accepted(s);
      assert acks[0] != Ack(s.held, Some(s.me)) ==> s1 == s;
      ReplayOnce(s1, acks[1..]);
      assert Accepted(Accepted(s)) == Accepted(s);
    }
  }

  predicate ChangesAt(s: Side, e: Event) {
    e.Key? && s.stamp.Some? && s.stamp != Some(e.pub)
  }

  /** Raises, read off the record. */
  predicate Asks(s: Side, e: Event) {
    match e
    case Key(pub, had, persisted, _) =>
      ChangesAt(s, e) || (s.stamp.None? && !had && !persisted && s.verified != Some(pub))
    case Reflag(_) => s.held.Some?
    case _ => false
  }

  /** The verifyack that counts at once, or from the stash when the first key arrives. */
  predicate Lands(s: Side, e: Event) {
    match e
    case Key(pub, _, _, _) => Ack(Some(pub), Some(s.me)) in s.stash
    case Acked(a) => s.held.Some? && a == Ack(s.held, Some(s.me))
    case _ => false
  }

  function Told(s: Side, e: Event, t: Tale): Tale {
    var (raised, up) := (t.raised || Asks(s, e), Asks(s, e) || (t.up && e != Confirms));
    var peerIn := (t.peerIn && !ChangesAt(s, e)) || Lands(s, e);
    Tale(raised, up, (t.vouched && !ChangesAt(s, e)) || Lands(s, e), peerIn,
         raised && (up || !peerIn) && ((e == Confirms && t.up) || t.confirmed))
  }

  /** What the record says was confirmed, after the event. */
  function NowVerified(s: Side, e: Event, t: Tale, key: Option<Id>): Option<Id> {
    if ChangesAt(s, e) then None else if Shut(t) && !Shut(Told(s, e, t)) then key else s.verified
  }

  lemma ResendQueues(s: Side)
    ensures MaybeResend(s).0 == s.(queue := MaybeResend(s).0.queue)
  {}

  lemma QueueAside(s: Side, q: seq<Option<Id>>, t: Tale)
    requires Fits(s, t)
    ensures Fits(s.(queue := q), t)
  {}

  /** The tale before the stash is replayed. */
  function Detected(s: Side, e: Event, t: Tale): Tale {
    Tale(t.raised || Asks(s, e), Asks(s, e) || t.up, t.vouched && !ChangesAt(s, e), t.peerIn && !ChangesAt(s, e),
         t.confirmed)
  }

  lemma DetectChangeFits(s: Side, e: Event, t: Tale)
    requires e.Key? && Fits(s, t)
    ensures var s1 := DetectChange(s, e.pub, e.hadSession, e.persisted, e.throttled).0;
            && s1.held == Some(e.pub) && s1.stamp == Some(e.pub) && s1.me == s.me && s1.connected == s.connected
            && s1.stash == s.stash && s1.verified == (if ChangesAt(s, e) then None else s.verified)
            && Fits(s1.(stash := []), Detected(s, e, t))
  {
    if ChangesAt(s, e) {
    } else if Asks(s, e) {
    } else {
    }
  }

  lemma DetectFits(s: Side, e: Event, t: Tale)
    requires e.Key? && Fits(s, t)
    ensures var s1 := AdoptKey(s, e.pub, e.hadSession, e.persisted, e.throttled).0;
            && s1.held == Some(e.pub) && s1.stamp == Some(e.pub) && s1.me == s.me && s1.connected == s.connected
            && s1.stash == s.stash && s1.verified == (if ChangesAt(s, e) then None else s.verified)
            && Fits(s1.(stash := []), Detected(s, e, t))
  {
    hide Fits, DetectChange;
    DetectChangeFits(s, e, t);
    var (s1, s2) := (DetectChange(s, e.pub, e.hadSession, e.persisted, e.throttled).0,
                     AdoptKey(s, e.pub, e.hadSession, e.persisted, e.throttled).0);
    ResendQueues(s1);
    QueueAside(s1.(stash := []), s2.queue, Detected(s, e, t));
  }

  lemma KeyFits(s: Side, e: Event, t: Tale)
    requires e.Key? && Fits(s, t)
    ensures var s1 := Handle(s, e).0;
            && s1.held == Some(e.pub) && s1.me == s.me && s1.connected == s.connected
            && s1.verified == NowVerified(s, e, t, Some(e.pub))
            && Fits(s1, Told(s, e, t))
  {
    DetectFits(s, e, t);
    hide AdoptKey, Replay, Asks;
    var s1 := AdoptKey(s, e.pub, e.hadSession, e.persisted, e.throttled).0;
    ReplayOnce(s1.(stash := []), s1.stash);
  }

  /** An event that brings no key moves the record as the tale says. */
  predicate KeepsTale(s: Side, e: Event, t: Tale) {
    var s1 := Handle(s, e).0;
    && s1.held == s.held && s1.stamp == s.stamp && s1.me == s.me
    && s1.connected == (e.Online? || (s.connected && !e.Offline?))
    && s1.stash == (if s.held.None? && e.Acked? then s.stash + [e.ack] else s.stash)
    && s1.verified == NowVerified(s, e, t, s.held)
    && Fits(s1, Told(s, e, t))
  }

  lemma OtherFits(s: Side, e: Event, t: Tale)
    requires !e.Key? && Fits(s, t)
    ensures KeepsTale(s, e, t)
  {
    hide KeepsTale;
    match e
    case Acked(a) => AckFits(s, e, t);
    case Confirms => ConfirmFits(s, e, t);
    case Reflag(_) => ReflagFits(s, e, t);
    case _ => PlainFits(s, e, t);
  }

  lemma AckFits(s: Side, e: Event, t: Tale)
    requires e.Acked? && Fits(s, t)
    ensures KeepsTale(s, e, t)
  {}

  lemma ConfirmFits(s: Side, e: Event, t: Tale)
    requires e.Confirms? && Fits(s, t)
    ensures KeepsTale(s, e, t)
  {}

  lemma ReflagFits(s: Side, e: Event, t: Tale)
    requires e.Reflag? && Fits(s, t)
    ensures KeepsTale(s, e, t)
  {}

  lemma PlainFits(s: Side, e: Event, t: Tale)
    requires (e.Resync? || e.Flushes? || e.Online? || e.Offline?) && Fits(s, t)
    ensures KeepsTale(s, e, t)
  {
    hide FlushSends;
  }

  ghost function TaleAt(s0: Side, es: seq<Event>, k: nat): Tale
    requires k <= |es|
  {
    Tale(Raised(s0, es, k), FlagUp(s0, es, k), Vouched(s0, es, k), PeerIn(s0, es, k), Confirmed(s0, es, k))
  }

  /** The record after the first k events. */
  ghost predicate AsTold(s: Side, s0: Side, es: seq<Event>, k: nat)
    requires k <= |es|
  {
    && s.me == s0.me && s.held == KeyAt(es, k) && s.stamp == KnownAt(s0, es, k) && s.connected == OnlineAt(s0, es, k)
    && s.stash == (if KeyAt(es, k).None? then AcksBefore(es, k) else [])
    && s.verified == ConfirmedKey(s0, es, k)
    && Fits(s, TaleAt(s0, es, k))
  }

  lemma RestoredNext(s0: Side, es: seq<Event>, k: nat)
    requires k < |es|
    ensures Restored(s0, es, k + 1) <==> Restored(s0, es, k) && !Changes(s0, es, k)
  {
    hide Changes;
  }

  /** Before anything is known of the peer, nothing is asked and what was restored stands. */
  lemma {:induction false} NothingKnown(s0: Side, es: seq<Event>, k: nat)
    requires k <= |es| && KnownAt(s0, es, k).None?
    ensures !Raised(s0, es, k) && ConfirmedKey(s0, es, k) == s0.verified
  {
    if k > 0 {
      NothingKnown(s0, es, k - 1);
      RaisedNext(s0, es, k - 1);
      hide Raised, PeerIn, FlagUp;
    }
  }

  lemma TellsSame(s: Side, s0: Side, es: seq<Event>, k: nat)
    requires k < |es| && s.me == s0.me && s.held == KeyAt(es, k) && s.stamp == KnownAt(s0, es, k)
    requires s.stash == (if KeyAt(es, k).None? then AcksBefore(es, k) else [])
    requires s.verified == ConfirmedKey(s0, es, k)
    ensures Asks(s, es[k]) <==> Raises(s0, es, k)
    ensures ChangesAt(s, es[k]) <==> Changes(s0, es, k)
    ensures TaleAt(s0, es, k + 1) == Told(s, es[k], TaleAt(s0, es, k))
  {
    hide Raised, FlagUp, Attested, Restored, ConfirmedKey;
    RaisedNext(s0, es, k);
    AttestedIsNext(s0, es, k);
    RestoredNext(s0, es, k);
    if KnownAt(s0, es, k).None? { NothingKnown(s0, es, k); }
    if KeyAt(es, k).None? { NotAttestedYet(s0, es, k); }
  }

  lemma NotAttestedYet(s0: Side, es: seq<Event>, k: nat)
    requires k <= |es| && KeyAt(es, k).None?
    ensures !Attested(s0, es, k)
  {}

  lemma StepAsTold(s: Side, s0: Side, es: seq<Event>, k: nat)
    requires k < |es| && AsTold(s, s0, es, k)
    ensures AsTold(Handle(s, es[k]).0, s0, es, k + 1)
  {
    hide Handle, Raised, FlagUp, Vouched, PeerIn, Fits, Asks, Raises, Lands, ChangesAt, Changes, Told;
    TellsSame(s, s0, es, k);
    var t := TaleAt(s0, es, k);
    FitsHeld(s, t);
    if es[k].Key? {
      KeyFits(s, es[k], t);
      FitsHeld(Handle(s, es[k]).0, TaleAt(s0, es, k + 1));
    } else {
      OtherFits(s, es[k], t);
    }
  }

  lemma FitsHeld(s: Side, t: Tale)
    requires Fits(s, t)
    ensures s.held.Some? ==> s.stamp == s.held && s.stash == []
  {}

  lemma {:induction false} HistoryAsTold(ss: seq<Side>, es: seq<Event>, k: nat)
    requires History(ss, es) && k <= |es|
    ensures AsTold(ss[k], ss[0], es, k)
  {
    hide Handle;
    if k > 0 {
      HistoryAsTold(ss, es, k - 1);
      StepAsTold(ss[k - 1], ss[0], es, k - 1);
    }
  }

  // ---- the theorems ---------------------------------------------------------------------------

  /** Over every history the gate follows from the events and what the session began with: the
      flag is up exactly while the user was asked and has not confirmed since; the peer counts
      as verified exactly while its half is in; messages may go out exactly if the user was
      never asked, or has confirmed since last asked and the peer's half is in; and the key
      recorded as confirmed is that of the last opening. */
  lemma GateExactly(ss: seq<Side>, es: seq<Event>, k: nat)
    requires History(ss, es) && k <= |es|
    ensures ss[k].held == KeyAt(es, k)
    ensures ss[k].flagged <==> FlagUp(ss[0], es, k)
    ensures ss[k].peerVerified <==> PeerIn(ss[0], es, k)
    ensures ss[k].verified == ConfirmedKey(ss[0], es, k)
    ensures ss[k].resend <==> Confirmed(ss[0], es, k)
    ensures !Blocked(ss[k]) <==> Open(ss[0], es, k)
  {
    hide Handle, FlagUp, PeerIn, Vouched;
    HistoryAsTold(ss, es, k);
  }

  /** The peer was known when the session began: the first key agrees with the stamp of the
      restored session or, if there is none, a session was held in memory or on disk, or exactly
      this key was confirmed in an earlier session; and no other key came since. */
  ghost predicate KnownFromStart(s0: Side, es: seq<Event>, k: nat)
    requires k <= |es|
  {
    exists c :: 0 <= c < k && FirstKey(es, c) && NoOtherKey(es, 0, k, Some(es[c].pub))
             && (if s0.stamp.Some? then s0.stamp == Some(es[c].pub)
                 else es[c].hadSession || es[c].persisted || s0.verified == Some(es[c].pub))
  }

  predicate FirstKey(es: seq<Event>, c: nat)
    requires c < |es|
  {
    es[c].Key? && KeyAt(es, c).None?
  }

  lemma {:induction false} FirstKeyExists(es: seq<Event>, k: nat) returns (c: nat)
    requires k <= |es| && KeyAt(es, k).Some?
    ensures c < k && FirstKey(es, c)
  {
    if KeyAt(es, k - 1).None? { c := k - 1; } else { c := FirstKeyExists(es, k - 1); }
  }

  /** Never asked, the client knows the peer by the same key throughout. */
  lemma {:induction false} NeverAsked(s0: Side, es: seq<Event>, c: nat, k: nat)
    requires c < k <= |es| && FirstKey(es, c) && !Raised(s0, es, k)
    ensures KeyAt(es, k) == Some(es[c].pub) && NoOtherKey(es, 0, k, Some(es[c].pub))
    decreases k
  {
    assert !Raises(s0, es, k - 1);
    if k == c + 1 {
      forall i | 0 <= i < k ensures OnlyKey(es, i, Some(es[c].pub)) { NoKeyBefore(es, i, c); }
    } else {
      NeverAsked(s0, es, c, k - 1);
      forall i | 0 <= i < k ensures OnlyKey(es, i, Some(es[c].pub)) {
        if i < k - 1 { assert OnlyKey(es, i, Some(es[c].pub)); }
      }
    }
  }

  /** What an open gate means, for first contacts as for changes of key.  With a key in force,
      messages may go out only if the peer was known when the session began and nothing asked
      the user since, or the user has confirmed since last asked and the peer's half is in.  In
      a session that began logged out, that half is an attestation by exactly the key in force,
      no other key having come between. */
  lemma OpenGateMeans(ss: seq<Side>, es: seq<Event>, k: nat)
    requires History(ss, es) && k <= |es| && ss[k].held.Some? && !Blocked(ss[k])
    ensures || (KnownFromStart(ss[0], es, k) && !Raised(ss[0], es, k))
            || (!FlagUp(ss[0], es, k) && PeerIn(ss[0], es, k))
    ensures !ss[0].peerVerified && Raised(ss[0], es, k) ==> Attested(ss[0], es, k)
  {
    hide Handle, FlagUp, Attested, Restored;
    GateExactly(ss, es, k);
    if !Raised(ss[0], es, k) {
      var c := FirstKeyExists(es, k);
      NeverAsked(ss[0], es, c, k);
      assert !Raises(ss[0], es, c);
    }
  }

  /** First contact.  The key of a peer never met shuts the gate, and it stays shut until the
      user confirms and the peer's half is in. */
  lemma FirstContactShut(ss: seq<Side>, es: seq<Event>, c: nat, k: nat)
    requires History(ss, es) && c < k <= |es|
    requires es[c].Key? && ss[c].stamp.None? && !es[c].hadSession && !es[c].persisted && ss[c].verified != Some(es[c].pub)
    ensures ss[c + 1].flagged && Blocked(ss[c + 1])
    ensures !Blocked(ss[k]) ==> (exists i :: c < i < k && es[i] == Confirms) && PeerIn(ss[0], es, k)
  {
    hide Handle, PeerIn;
    HistoryAsTold(ss, es, c);
    if KnownAt(ss[0], es, c).None? { NothingKnown(ss[0], es, c); }
    GateExactly(ss, es, c + 1);
    GateExactly(ss, es, k);
    assert Raises(ss[0], es, c);
  }

  // ---- what is sent ---------------------------------------------------------------------------

  /** Event k makes the client owe the peer an attestation: the user confirms what was asked,
      the key arrives again while only the peer's half is missing, or the peer asks for one
      while the gate is open. */
  ghost predicate Attests(s0: Side, es: seq<Event>, k: nat)
    requires k < |es|
  {
    match es[k]
    case Confirms => FlagUp(s0, es, k)
    case Key(_, _, _, _) => !Raises(s0, es, k) && Waiting(s0, es, k)
    case Resync => KeyAt(es, k).Some? && Open(s0, es, k)
    case _ => false
  }

  /** Event k makes it ask the peer for one: the user is asked, and our identity is not on
      record as attested. */
  ghost predicate AsksBack(s0: Side, es: seq<Event>, k: nat)
    requires k < |es|
  {
    Raises(s0, es, k) && !es[k].throttled && OnlineAt(s0, es, k) && (Changes(s0, es, k) || !Vouched(s0, es, k))
  }

  function Attesting(me: Id, key: Option<Id>, queue: seq<Option<Id>>): seq<Msg> {
    if queue == [] then []
    else (if queue[0] == key then [VerifyAck(Ack(Some(me), key))] else []) + Attesting(me, key, queue[1..])
  }

  lemma {:induction false} FlushAttests(s: Side, queue: seq<Option<Id>>)
    requires s.held.Some?
    ensures FlushSends(s, queue) == Attesting(s.me, s.held, queue)
  {
    if queue != [] {
      FlushAttests(s, queue[1..]);
    }
  }

  /** What one event owes the peer, read off the record. */
  predicate Owed(s: Side, e: Event, t: Tale) {
    match e
    case Confirms => t.up
    case Key(_, _, _, _) => !Asks(s, e) && Shut(t) && !t.up
    case Resync => s.held.Some? && !Shut(t)
    case _ => false
  }

  predicate Back(s: Side, e: Event, t: Tale) {
    Asks(s, e) && !e.throttled && s.connected && (ChangesAt(s, e) || !t.vouched)
  }

  function Frames(s: Side, e: Event, t: Tale, key: Option<Id>): seq<Msg> {
    (if Back(s, e, t) then [VerifyResync] else [])
    + if Owed(s, e, t) && s.connected then [VerifyAck(Ack(Some(s.me), key))] else []
  }

  function Queue(s: Side, e: Event, t: Tale, key: Option<Id>): seq<Option<Id>> {
    s.queue + if Owed(s, e, t) && !s.connected then [key] else []
  }

  lemma EventSends(s: Side, e: Event, t: Tale)
    requires Fits(s, t) && !e.Flushes?
    ensures var (s1, out) := Handle(s, e);
            s1.queue == Queue(s, e, t, s1.held) && out == Frames(s, e, t, s1.held)
  {
    if e.Key? {
      KeySends(s, e, t);
    }
  }

  lemma KeySends(s: Side, e: Event, t: Tale)
    requires Fits(s, t) && e.Key?
    ensures var (s1, out) := Handle(s, e);
            s1.held == Some(e.pub) && s1.queue == Queue(s, e, t, s1.held) && out == Frames(s, e, t, s1.held)
  {
    DetectFits(s, e, t);
    AdoptSends(s, e, t);
    hide AdoptKey, Replay, Queue, Frames;
    var s1 := AdoptKey(s, e.pub, e.hadSession, e.persisted, e.throttled).0;
    ReplayOnce(s1.(stash := []), s1.stash);
  }

  lemma AdoptSends(s: Side, e: Event, t: Tale)
    requires Fits(s, t) && e.Key?
    ensures var (s1, out) := AdoptKey(s, e.pub, e.hadSession, e.persisted, e.throttled);
            s1.queue == Queue(s, e, t, Some(e.pub)) && out == Frames(s, e, t, Some(e.pub))
  {
    if Asks(s, e) {
      var s1 := DetectChange(s, e.pub, e.hadSession, e.persisted, e.throttled).0;
      assert s1.flagged;
    } else {
      assert DetectChange(s, e.pub, e.hadSession, e.persisted, e.throttled)
          == (s.(held := Some(e.pub), stamp := Some(e.pub)), []);
    }
  }

  /** Over every history, what an event sends and queues: one attestation of the key in force
      exactly if it is owed, sent or queued as the socket is up or down; one request exactly if
      the user is asked, our identity not on record as attested and the socket up; and a drain
      sends the queued attestations that still name the key in force and drops the others. */
  lemma SendsExactly(ss: seq<Side>, es: seq<Event>, k: nat)
    requires History(ss, es) && k < |es|
    ensures var (s, out) := (ss[k], Handle(ss[k], es[k]).1);
            var (key, up) := (KeyAt(es, k + 1), OnlineAt(ss[0], es, k));
            if es[k].Flushes? then
              if up && key.Some? then ss[k + 1].queue == [] && out == Attesting(s.me, key, s.queue)
              else ss[k + 1].queue == s.queue && out == []
            else
              && ss[k + 1].queue == s.queue + (if Attests(ss[0], es, k) && !up then [key] else [])
              && out == (if AsksBack(ss[0], es, k) then [VerifyResync] else [])
                        + if Attests(ss[0], es, k) && up then [VerifyAck(Ack(Some(s.me), key))] else []
  {
    HistoryAsTold(ss, es, k);
    HistoryAsTold(ss, es, k + 1);
    var (s, s0, e) := (ss[k], ss[0], es[k]);
    hide FlagUp, PeerIn, Vouched, Raised, Raises, Fits, Asks, Changes, ChangesAt, ConfirmedKey;
    if e.Flushes? {
      if s.held.Some? { FlushAttests(s, s.queue); }
    } else {
      EventSends(s, e, TaleAt(s0, es, k));
      TellsSame(s, s0, es, k);
      hide Handle;
    }
  }

  /** The attestation a client lacks is asked for exactly unless the history restored one. */
  lemma AsksForMissingHalf(ss: seq<Side>, es: seq<Event>, k: nat)
    requires History(ss, es) && k < |es|
    requires Raises(ss[0], es, k) && !es[k].throttled && ss[k].connected && !ss[k + 1].peerVerified
    ensures VerifyResync in Handle(ss[k], es[k]).1 <==> !Restored(ss[0], es, k + 1)
  {
    SendsExactly(ss, es, k);
    HistoryAsTold(ss, es, k);
    GateExactly(ss, es, k + 1);
    RestoredNext(ss[0], es, k);
    AttestedIsNext(ss[0], es, k);
    hide History, Handle, Attested, Restored, Raises, Changes;
  }

  /** A login restores that a peer attested our identity and not that its half is in, for it asks
      before the identity is loaded.  If the relay then states another key than the one confirmed,
      and no session of that peer is left, the user is asked to verify but the peer is not asked
      to attest; and when the user has confirmed, the gate stays shut until the peer attests of
      its own accord. */
  lemma RestoredAttestationStrands(me: Id, confirmed: Id, stated: Id, es: seq<Event>)
    requires confirmed != stated
    requires es == [Online, Key(stated, false, false, false), Confirms]
    ensures var s0 := Fresh(me, None, None, Some(confirmed), Some(me), false);
            var s1 := Handle(s0, es[0]).0;
            var s2 := Handle(s1, es[1]).0;
            var s3 := Handle(s2, es[2]).0;
            && Starts(s0) && s2.flagged && Handle(s1, es[1]).1 == []
            && Handle(s2, es[2]).1 == [VerifyAck(Ack(Some(me), Some(stated)))]
            && Blocked(s3) && s3.connected && !s3.flagged && s3.queue == []
            && Blocked(Handle(s3, Key(stated, true, true, false)).0)
  {}
}
