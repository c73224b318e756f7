/**
 The heartbeat as the client object keeps it: sets and maps over all peers, one timer.

 `Client.About(p)` is the record of module Heartbeat for peer p.  Every method is proved to
 do to it exactly what module Heartbeat says; the passes over all peers do so for every
 peer at once, in whatever order they visit them.
 */
module HeartbeatClient {
  import opened Wrappers
  import opened Heartbeat

  const KICK_MAX_TRIES: nat := 8        // kPcsRekeyKickMaxTries

  type Nick = nat

  datatype Sent = Sent(peer: Nick, kind: Kind)

  function FramesTo(wire: seq<Sent>, p: Nick): seq<Kind> {
    if wire == [] then []
    else if wire[0].peer == p then [wire[0].kind] + FramesTo(wire[1..], p)
    else FramesTo(wire[1..], p)
  }

  function Tagged(p: Nick, kinds: seq<Kind>): seq<Sent> {
    seq(|kinds|, i requires 0 <= i < |kinds| => Sent(p, kinds[i]))
  }

  lemma {:induction false} FramesParts(a: seq<Sent>, b: seq<Sent>, p: Nick)
    ensures FramesTo(a + b, p) == FramesTo(a, p) + FramesTo(b, p)
  {
    if a == [] {
      assert a + b == b;
    } else {
      assert (a + b)[1..] == a[1..] + b;
      FramesParts(a[1..], b, p);
    }
  }

  lemma {:induction false} FramesTagged(p: Nick, kinds: seq<Kind>, q: Nick)
    ensures FramesTo(Tagged(p, kinds), q) == if q == p then kinds else []
  {
    if kinds != [] {
      assert Tagged(p, kinds)[1..] == Tagged(p, kinds[1..]);
      FramesTagged(p, kinds[1..], q);
    }
  }

  function Lookup(m: map<Nick, nat>, p: Nick): Option<nat> {
    if p in m then Some(m[p]) else None
  }

  /** The loops over many peers: the four sections of the kick pass, of which the idle timer
      runs the second too, and the lifecycle heal. */
  datatype Section = Overdue | OwedPings | OwedPongs | Heals | Resumes(up: bool)

  function SectionEffect(sec: Section, p: Peer, env: Env, now: nat): Effect {
    match sec
    case Overdue => KickOverdue(p, env, now)
    case OwedPings => KickOwedPing(p, env, now)
    case OwedPongs => KickOwedPong(p, env)
    case Heals => KickHeal(p, env, now)
    case Resumes(up) => Reestablish(p, env, up, now).(arms := false)
  }

  /** Whether the section's loop visits the peer at all. */
  predicate Visits(sec: Section, p: Peer, env: Env) {
    match sec
    case Overdue => p.out
    case OwedPings => p.sent.Some?
    case OwedPongs => p.owed
    case Heals => p.heal
    case Resumes(_) => env.keyed
  }

  lemma UnvisitedUntouched(sec: Section, p: Peer, env: Env, now: nat)
    requires !Visits(sec, p, env)
    ensures SectionEffect(sec, p, env, now) == Effect(p, [], false)
  {}

  class Client {
    var sentSinceRatchet: map<Nick, nat>
    var rekeyOutstanding: set<Nick>
    var pingSentAt: map<Nick, nat>
    var pingResends: map<Nick, nat>
    var pongOwed: set<Nick>
    var healPending: set<Nick>
    var kickArmed: bool
    var kickTries: nat
    var connected: bool
    var gated: set<Nick>
    var present: set<Nick>
    var sessions: set<Nick>
    var sendable: set<Nick>
    var peerKeys: set<Nick>
    var wire: seq<Sent>

    ghost function About(p: Nick): Peer
      reads this`sentSinceRatchet, this`rekeyOutstanding, this`pingSentAt, this`pingResends, this`pongOwed, this`healPending
    {
      Peer(Lookup(sentSinceRatchet, p), p in rekeyOutstanding, Lookup(pingSentAt, p), Lookup(pingResends, p),
           p in pongOwed, p in healPending)
    }

    function EnvOf(p: Nick): Env
      reads this`gated, this`present, this`sessions, this`sendable, this`peerKeys
    {
      Env(p in gated, p in present, p in sessions, p in sendable, p in peerKeys)
    }

    /** The fields behind the record, for callers that do not unfold it. */
    lemma Fields(p: Nick)
      ensures var r := About(p);
              && r.out == (p in rekeyOutstanding) && r.owed == (p in pongOwed) && r.heal == (p in healPending)
              && r.sent == Lookup(sentSinceRatchet, p) && r.sentAt == Lookup(pingSentAt, p)
              && r.resends == Lookup(pingResends, p)
    {}

    constructor ()
      ensures forall p :: About(p) == Blank()
      ensures !kickArmed && kickTries == 0 && !connected && wire == []
    {
      sentSinceRatchet, pingSentAt, pingResends := map[], map[], map[];
      rekeyOutstanding, pongOwed, healPending := {}, {}, {};
      kickArmed, kickTries, connected, wire := false, 0, false, [];
      gated, present, sessions, sendable, peerKeys := {}, {}, {}, {}, {};
    }

    method TransmitRekey(p: Nick, kind: Kind) returns (ok: bool)
      modifies this`wire
      ensures ok <==> Transmits(EnvOf(p), kind)
      ensures wire == old(wire) + (if ok then [Sent(p, kind)] else [])
    {
      if kind == Ping && p in gated { return false; }
      if kind == Ping && p !in present { return false; }
      if p !in sendable { return false; }
      wire := wire + [Sent(p, kind)];
      ok := true;
    }

    method MarkRekeyPingSent(p: Nick, now: nat)
      modifies this`rekeyOutstanding, this`pingSentAt, this`pingResends, this`kickArmed
      ensures About(p) == Mark(old(About(p)), now) && kickArmed
      ensures forall q :: q != p ==> About(q) == old(About(q))
    {
      if p !in rekeyOutstanding {
        pingResends := pingResends[p := 0];
      }
      rekeyOutstanding := rekeyOutstanding + {p};
      pingSentAt := pingSentAt[p := now];
      kickArmed := true;
    }

    method SetCount(p: Nick, n: nat)
      modifies this`sentSinceRatchet
      ensures About(p) == old(About(p)).(sent := Some(n))
      ensures forall q :: q != p ==> About(q) == old(About(q))
    {
      sentSinceRatchet := sentSinceRatchet[p := n];
    }

    method DropInFlight(p: Nick)
      modifies this`rekeyOutstanding, this`pingSentAt, this`pingResends
      ensures About(p) == old(About(p)).(out := false, sentAt := None, resends := None)
      ensures forall q :: q != p ==> About(q) == old(About(q))
    {
      rekeyOutstanding := rekeyOutstanding - {p};
      pingSentAt := pingSentAt - {p};
      pingResends := pingResends - {p};
    }

    method NoteOutboundTo(p: Nick, now: nat)
      modifies this
      ensures var e := NoteOutbound(old(About(p)), old(EnvOf(p)), old(connected), now);
              && About(p) == e.p && wire == old(wire) + Tagged(p, e.frames) && kickArmed == (old(kickArmed) || e.arms)
      ensures forall q :: q != p ==> About(q) == old(About(q))
    {
      Fields(p);
      var count := (if p in sentSinceRatchet then sentSinceRatchet[p] else 0) + 1;
      hide About;
      SetCount(p, count);
      if count >= REKEY_AFTER && p !in rekeyOutstanding && connected && p in sessions {
        var ok := TransmitRekey(p, Ping);
        if ok {
          MarkRekeyPingSent(p, now);
        } else {
          kickTries := 0;
          kickArmed := true;
        }
      }
    }

    method NoteInboundFrom(p: Nick)
      modifies this
      ensures About(p) == NoteInbound(old(About(p)))
      ensures forall q :: q != p ==> About(q) == old(About(q))
      ensures wire == old(wire) && kickArmed == old(kickArmed) && connected == old(connected)
      ensures EnvOf(p) == old(EnvOf(p))
    {
      SetCount(p, 0);
      DropInFlight(p);
    }

    method ResetPcsFor(p: Nick)
      modifies this
      ensures About(p) == Reset(old(About(p)))
      ensures forall q :: q != p ==> About(q) == old(About(q))
      ensures wire == old(wire) && kickArmed == old(kickArmed)
    {
      sentSinceRatchet := sentSinceRatchet - {p};
      assert About(p) == old(About(p)).(sent := None);
      assert forall q :: q != p ==> About(q) == old(About(q));
      DropInFlight(p);
    }

    method SendOwedPongIfReady(p: Nick)
      modifies this`pongOwed, this`wire
      ensures var e := PayOwed(old(About(p)), EnvOf(p), connected);
              About(p) == e.p && wire == old(wire) + Tagged(p, e.frames)
      ensures forall q :: q != p ==> About(q) == old(About(q))
    {
      if p !in pongOwed { return; }
      if connected && p in sessions {
        var ok := TransmitRekey(p, Pong);
        if ok {
          pongOwed := pongOwed - {p};
        }
      }
    }

    method Owe(p: Nick)
      modifies this`pongOwed
      ensures About(p) == old(About(p)).(owed := true)
      ensures forall q :: q != p ==> About(q) == old(About(q))
    {
      pongOwed := pongOwed + {p};
    }

    /** The heartbeat's part of receiving a frame from p that decrypted. */
    method OnFrameFrom(p: Nick, isPing: bool)
      modifies this
      ensures var e := Receive(old(About(p)), old(EnvOf(p)), old(connected), isPing);
              && About(p) == e.p && wire == old(wire) + Tagged(p, e.frames) && kickArmed == (old(kickArmed) || e.arms)
      ensures forall q :: q != p ==> About(q) == old(About(q))
    {
      NoteInboundFrom(p);
      if !isPing {
        SendOwedPongIfReady(p);
      } else {
        Owe(p);
        SendOwedPongIfReady(p);
        Fields(p);
        if p in pongOwed {
          kickTries := 0;
          kickArmed := true;
        }
      }
    }

    /** One peer's turn in a section of the kick pass; reports whether its work stays open. */
    method KickOne(sec: Section, p: Nick, now: nat) returns (pending: bool)
      modifies this`rekeyOutstanding, this`pingSentAt, this`pingResends, this`pongOwed, this`healPending,
               this`kickArmed, this`wire
      ensures var e := SectionEffect(sec, old(About(p)), EnvOf(p), now);
              About(p) == e.p && wire == old(wire) + Tagged(p, e.frames) && pending == e.arms
      ensures kickArmed == (old(kickArmed) || (!old(About(p)).out && About(p).out))
      ensures forall q :: q != p ==> About(q) == old(About(q))
    {
      pending := false;
      match sec
      case Overdue => OverdueOne(p, now);
      case OwedPings => pending := OwedPingOne(p, now);
      case OwedPongs => pending := OwedPongOne(p);
      case Heals => pending := HealOne(p, now);
      case Resumes(up) => ResumeOne(p, up, now);
    }

    method OwedPingOne(p: Nick, now: nat) returns (pending: bool)
      modifies this`rekeyOutstanding, this`pingSentAt, this`pingResends, this`kickArmed, this`wire
      ensures var e := KickOwedPing(old(About(p)), EnvOf(p), now);
              About(p) == e.p && wire == old(wire) + Tagged(p, e.frames) && pending == e.arms
      ensures kickArmed == (old(kickArmed) || (!old(About(p)).out && About(p).out))
      ensures forall q :: q != p ==> About(q) == old(About(q))
    {
      Fields(p);
      hide About;
      pending := false;
      if p in sentSinceRatchet && sentSinceRatchet[p] > 0 && p !in rekeyOutstanding && p !in gated && p in sessions {
        var ok := TransmitRekey(p, Ping);
        if ok {
          MarkRekeyPingSent(p, now);
        } else {
          pending := true;
        }
      }
    }

    method OwedPongOne(p: Nick) returns (pending: bool)
      modifies this`pongOwed, this`wire
      ensures var e := KickOwedPong(old(About(p)), EnvOf(p));
              About(p) == e.p && wire == old(wire) + Tagged(p, e.frames) && pending == e.arms
      ensures forall q :: q != p ==> About(q) == old(About(q))
    {
      pending := false;
      if p in pongOwed {
        var ok := false;
        if p in sessions {
          ok := TransmitRekey(p, Pong);
        }
        if ok {
          pongOwed := pongOwed - {p};
        } else {
          pending := true;
        }
      }
    }

    /** One peer's turn in reestablishPcsForAll. */
    method ResumeOne(p: Nick, up: bool, now: nat)
      modifies this`rekeyOutstanding, this`pingSentAt, this`pingResends, this`healPending, this`kickArmed, this`wire
      ensures var e := Reestablish(old(About(p)), EnvOf(p), up, now);
              About(p) == e.p && wire == old(wire) + Tagged(p, e.frames)
      ensures kickArmed == (old(kickArmed) || (!old(About(p)).out && About(p).out))
      ensures forall q :: q != p ==> About(q) == old(About(q))
    {
      Fields(p);
      hide About;
      if p !in peerKeys || p !in sessions { return; }
      if p in gated { return; }
      if p in rekeyOutstanding { return; }
      var ok := false;
      if up {
        ok := TransmitRekey(p, Ping);
      }
      if ok {
        MarkRekeyPingSent(p, now);
        DropHeal(p);
      } else {
        AddHeal(p);
      }
    }

    method AddHeal(p: Nick)
      modifies this`healPending
      ensures About(p) == old(About(p)).(heal := true)
      ensures forall q :: q != p ==> About(q) == old(About(q))
    {
      healPending := healPending + {p};
    }

    method OverdueOne(p: Nick, now: nat)
      modifies this`rekeyOutstanding, this`pingSentAt, this`pingResends, this`wire
      ensures var e := KickOverdue(old(About(p)), EnvOf(p), now);
              About(p) == e.p && wire == old(wire) + Tagged(p, e.frames)
      ensures forall q :: q != p ==> About(q) == old(About(q))
    {
      if p !in rekeyOutstanding { return; }
      var sentAt := if p in pingSentAt then pingSentAt[p] else 0;
      if sentAt == 0 || now - sentAt < PONG_TIMEOUT_MS { return; }
      var resends := if p in pingResends then pingResends[p] else 0;
      if resends >= MAX_RESENDS {
        DropInFlight(p);
        return;
      }
      if p in sessions {
        var ok := TransmitRekey(p, Ping);
        if ok {
          pingSentAt := pingSentAt[p := now];
          pingResends := pingResends[p := resends + 1];
        }
      }
    }

    method DropHeal(p: Nick)
      modifies this`healPending
      ensures About(p) == old(About(p)).(heal := false)
      ensures forall q :: q != p ==> About(q) == old(About(q))
    {
      healPending := healPending - {p};
    }

    method HealOne(p: Nick, now: nat) returns (pending: bool)
      modifies this`rekeyOutstanding, this`pingSentAt, this`pingResends, this`healPending, this`kickArmed, this`wire
      ensures var e := KickHeal(old(About(p)), EnvOf(p), now);
              About(p) == e.p && wire == old(wire) + Tagged(p, e.frames) && pending == e.arms
      ensures kickArmed == (old(kickArmed) || (!old(About(p)).out && About(p).out))
      ensures forall q :: q != p ==> About(q) == old(About(q))
    {
      pending := false;
      if p !in healPending { return; }
      if p in gated || p in rekeyOutstanding {
        DropHeal(p);
        return;
      }
      var ok := false;
      if p in sessions {
        ok := TransmitRekey(p, Ping);
      }
      if ok {
        MarkRekeyPingSent(p, now);
        DropHeal(p);
      } else {
        pending := true;
      }
    }

    /** The peers a section's loop runs over. */
    function Copied(sec: Section): set<Nick>
      reads this
    {
      match sec
      case Overdue => rekeyOutstanding
      case OwedPings => sentSinceRatchet.Keys
      case OwedPongs => pongOwed
      case Heals => healPending
      case Resumes(_) => peerKeys
    }

    lemma CopiedIsVisited(sec: Section)
      ensures forall p :: p in Copied(sec) <==> Visits(sec, About(p), EnvOf(p))
    {}

    /** Every peer's record now, and its turn in the section, as values. */
    lemma Snapshot(sec: Section, now: nat) returns (was: Nick -> Peer, turn: Nick -> Effect)
      ensures forall p :: was(p) == About(p)
      ensures forall p :: turn(p) == SectionEffect(sec, was(p), EnvOf(p), now)
      ensures forall p :: p !in Copied(sec) ==> turn(p) == Effect(was(p), [], false)
    {
      var (sent, out, at, again, owed, heal) :=
        (sentSinceRatchet, rekeyOutstanding, pingSentAt, pingResends, pongOwed, healPending);
      var (g, o, s, r, k) := (gated, present, sessions, sendable, peerKeys);
      var w := (p: Nick) => Peer(Lookup(sent, p), p in out, Lookup(at, p), Lookup(again, p), p in owed, p in heal);
      var t := (p: Nick) => SectionEffect(sec, w(p), Env(p in g, p in o, p in s, p in r, p in k), now);
      was, turn := w, t;
      CopiedIsVisited(sec);
      forall p | p !in Copied(sec) ensures turn(p) == Effect(was(p), [], false) {
        UnvisitedUntouched(sec, About(p), EnvOf(p), now);
      }
    }

    /** A whole section: its loop over the peers it copied up front. */
    method KickSection(sec: Section, now: nat) returns (pending: bool)
      modifies this`rekeyOutstanding, this`pingSentAt, this`pingResends, this`pongOwed, this`healPending,
               this`kickArmed, this`wire
      ensures forall p :: About(p) == SectionEffect(sec, old(About(p)), EnvOf(p), now).p
      ensures old(wire) <= wire
      ensures forall p :: FramesTo(wire[|old(wire)|..], p) == SectionEffect(sec, old(About(p)), EnvOf(p), now).frames
      ensures pending <==> exists p :: SectionEffect(sec, old(About(p)), EnvOf(p), now).arms
      ensures kickArmed <==> old(kickArmed) || exists p :: !old(About(p)).out && About(p).out
    {
      hide *;
      ghost var was, turn := Snapshot(sec, now);
      ghost var sent: seq<Sent> := [];
      NothingSent();
      var todo := Copied(sec);
      pending := false;
      while todo != {}
        invariant wire == old(wire) + sent
        invariant forall p :: About(p) == (if p in todo then was(p) else turn(p).p)
        invariant forall p :: FramesTo(sent, p) == (if p in todo then [] else turn(p).frames)
        invariant pending ==> exists p :: p !in todo && turn(p).arms
        invariant !pending ==> forall p :: p !in todo ==> !turn(p).arms
        invariant kickArmed ==> old(kickArmed) || exists p :: p !in todo && !was(p).out && turn(p).p.out
        invariant old(kickArmed) ==> kickArmed
        invariant !kickArmed ==> forall p :: p !in todo ==> was(p).out || !turn(p).p.out
        decreases todo
      {
        var p :| p in todo;
        var open := KickOne(sec, p, now);
        pending := pending || open;
        todo := todo - {p};
        SentGrows(old(wire), sent, p, turn(p).frames);
        sent := sent + Tagged(p, turn(p).frames);
      }
      assert wire[|old(wire)|..] == sent;
    }

    /** A section of the kick pass, its effect on the records stated as values. */
    method RunSection(sec: Section, now: nat, ghost was: Nick -> Peer, ghost env: Nick -> Env)
      returns (pending: bool, ghost after: Nick -> Peer)
      requires forall p :: was(p) == About(p)
      requires forall p :: env(p) == EnvOf(p)
      modifies this`rekeyOutstanding, this`pingSentAt, this`pingResends, this`pongOwed, this`healPending,
               this`kickArmed, this`wire
      ensures Did(sec, was, after, env, now, old(wire), wire, pending)
      ensures forall p :: after(p) == About(p)
    {
      hide *;
      pending := KickSection(sec, now);
      after := Records();
      DidIt(sec, was, after, env, now, old(wire), wire, pending);
    }

    /** The four sections, one after the other. */
    method KickSections(now: nat) returns (stillPending: bool)
      modifies this`rekeyOutstanding, this`pingSentAt, this`pingResends, this`pongOwed, this`healPending,
               this`kickArmed, this`wire
      ensures forall p :: About(p) == Kick(old(About(p)), EnvOf(p), now).p
      ensures old(wire) <= wire
      ensures forall p :: FramesTo(wire[|old(wire)|..], p) == Kick(old(About(p)), EnvOf(p), now).frames
      ensures stillPending <==> exists p :: Kick(old(About(p)), EnvOf(p), now).arms
    {
      hide *;
      ghost var r0 := Records();
      ghost var env := Envs();
      ghost var w0 := wire;
      ghost var r1, r2, r3, r4;
      var none, pings, pongs, heals;
      none, r1 := RunSection(Overdue, now, r0, env);
      ghost var w1 := wire;
      pings, r2 := RunSection(OwedPings, now, r1, env);
      ghost var w2 := wire;
      pongs, r3 := RunSection(OwedPongs, now, r2, env);
      ghost var w3 := wire;
      heals, r4 := RunSection(Heals, now, r3, env);
      stillPending := pings || pongs || heals;
      AllSections(r0, r1, r2, r3, r4, env, now, w0, w1, w2, w3, wire, none, pings, pongs, heals);
    }

    /** kickRekey, run when the single-shot timer fires. */
    method KickRekey(now: nat)
      modifies this`rekeyOutstanding, this`pingSentAt, this`pingResends, this`pongOwed, this`healPending,
               this`kickArmed, this`kickTries, this`wire
      ensures forall p :: About(p) == (if connected then Kick(old(About(p)), EnvOf(p), now).p else old(About(p)))
      ensures old(wire) <= wire
      ensures forall p :: FramesTo(wire[|old(wire)|..], p)
                       == (if connected then Kick(old(About(p)), EnvOf(p), now).frames else [])
      ensures kickArmed <==>
                && connected
                && (|| (exists p :: KeepsTimer(About(p), EnvOf(p)))
                    || ((exists p :: Kick(old(About(p)), EnvOf(p), now).arms) && old(kickTries) + 1 < KICK_MAX_TRIES))
    {
      hide *;
      kickArmed := false;
      NothingSent();
      if !connected {
        assert wire[|old(wire)|..] == [];
        return;
      }
      var stillPending := KickSections(now);
      TimerReasons();
      var pongPromiseOutstanding := exists p :: p in pongOwed && p in sessions;
      var pingAwaitingPong := rekeyOutstanding != {};
      kickArmed := false;
      if pongPromiseOutstanding || pingAwaitingPong {
        kickTries := 0;
        kickArmed := true;
      } else if stillPending {
        kickTries := kickTries + 1;
        if kickTries < KICK_MAX_TRIES {
          kickArmed := true;
        } else {
          kickTries := 0;
        }
      } else {
        kickTries := 0;
      }
    }

    /** The idle timer's pass over the peers, on a live socket. */
    method IdlePass(now: nat)
      modifies this`rekeyOutstanding, this`pingSentAt, this`pingResends, this`pongOwed, this`healPending,
               this`kickArmed, this`kickTries, this`wire
      ensures forall p :: About(p) == Idle(old(About(p)), EnvOf(p), now).p
      ensures old(wire) <= wire
      ensures forall p :: FramesTo(wire[|old(wire)|..], p) == Idle(old(About(p)), EnvOf(p), now).frames
      ensures kickArmed <==> old(kickArmed) || exists p :: Idle(old(About(p)), EnvOf(p), now).arms
    {
      hide *;
      var stillPending := KickSection(OwedPings, now);
      if stillPending {
        kickTries := 0;
        kickArmed := true;
      }
      if pongOwed != {} {
        kickTries := 0;
        kickArmed := true;
      }
      forall p
        ensures var (i, k) := (Idle(old(About(p)), EnvOf(p), now), SectionEffect(OwedPings, old(About(p)), EnvOf(p), now));
                i.p == k.p && i.frames == k.frames && i.arms == (k.arms || k.p.owed || (!old(About(p)).out && k.p.out))
      {
        IdleIsOwedPings(old(About(p)), EnvOf(p), now);
      }
      PongsOwed();
    }

    /** The idle timer's handler. */
    method IdleTick(now: nat)
      modifies this`rekeyOutstanding, this`pingSentAt, this`pingResends, this`pongOwed, this`healPending,
               this`kickArmed, this`kickTries, this`wire
      ensures forall p :: About(p) == (if connected then Idle(old(About(p)), EnvOf(p), now).p else old(About(p)))
      ensures old(wire) <= wire
      ensures forall p :: FramesTo(wire[|old(wire)|..], p)
                       == (if connected then Idle(old(About(p)), EnvOf(p), now).frames else [])
      ensures kickArmed <==> old(kickArmed) || (connected && exists p :: Idle(old(About(p)), EnvOf(p), now).arms)
    {
      hide *;
      NothingSent();
      if !connected {
        assert wire[|old(wire)|..] == [];
        return;
      }
      IdlePass(now);
    }

    /** forceRekey */
    method ForceRekey(p: Nick, now: nat)
      modifies this
      ensures var e := Force(old(About(p)), old(EnvOf(p)), old(connected), now);
              && About(p) == e.p && wire == old(wire) + Tagged(p, e.frames) && kickArmed == (old(kickArmed) || e.arms)
      ensures forall q :: q != p ==> About(q) == old(About(q))
    {
      Fields(p);
      hide About;
      assert Tagged(p, []) == [] && wire + [] == wire;
      if !connected || p !in sessions { return; }
      if p in rekeyOutstanding { return; }
      var ok := TransmitRekey(p, Ping);
      if ok {
        MarkRekeyPingSent(p, now);
      }
    }

    /** The heartbeat's part of onConnected. */
    method OnConnected()
      modifies this`connected, this`kickArmed, this`kickTries
      ensures connected
      ensures kickArmed <==> old(kickArmed) || exists p :: About(p).owed || About(p).sent.Some?
    {
      connected := true;
      if pongOwed != {} || sentSinceRatchet.Keys != {} {
        kickTries := 0;
        kickArmed := true;
      }
      WorkToDo();
    }

    lemma WorkToDo()
      ensures pongOwed != {} || sentSinceRatchet.Keys != {} <==> exists p :: About(p).owed || About(p).sent.Some?
    {
      if pongOwed != {} {
        var p :| p in pongOwed;
        assert About(p).owed;
      }
      if sentSinceRatchet.Keys != {} {
        var p :| p in sentSinceRatchet.Keys;
        assert About(p).sent.Some?;
      }
    }

    /** The heartbeat's part of tryResolveBilateral. */
    method OnGateResolved(p: Nick)
      modifies this`rekeyOutstanding
      ensures About(p) == GateOpened(old(About(p)))
      ensures forall q :: q != p ==> About(q) == old(About(q))
    {
      rekeyOutstanding := rekeyOutstanding - {p};
    }

    method ClearPcsState()
      modifies this
      ensures forall p :: About(p) == Blank()
      ensures !kickArmed && kickTries == 0 && wire == old(wire)
    {
      kickArmed := false;
      sentSinceRatchet, pingSentAt, pingResends := map[], map[], map[];
      rekeyOutstanding, pongOwed, healPending := {}, {}, {};
      kickTries := 0;
    }

    lemma PongsOwed()
      ensures pongOwed != {} <==> exists p :: About(p).owed
    {
      if pongOwed != {} {
        var p :| p in pongOwed;
        assert About(p).owed;
      }
    }

    lemma HealsParked()
      ensures healPending != {} <==> exists p :: About(p).heal
    {
      if healPending != {} {
        var p :| p in healPending;
        assert About(p).heal;
      }
    }

    /** reestablishPcsForAll */
    method ReestablishPcsForAll(now: nat)
      modifies this`rekeyOutstanding, this`pingSentAt, this`pingResends, this`pongOwed, this`healPending,
               this`kickArmed, this`kickTries, this`wire
      ensures forall p :: About(p) == Reestablish(old(About(p)), EnvOf(p), connected, now).p
      ensures old(wire) <= wire
      ensures forall p :: FramesTo(wire[|old(wire)|..], p) == Reestablish(old(About(p)), EnvOf(p), connected, now).frames
      ensures kickArmed <==> old(kickArmed) || exists p :: Reestablish(old(About(p)), EnvOf(p), connected, now).arms
    {
      hide *;
      var none := KickSection(Resumes(connected), now);
      HealsParked();
      if healPending != {} {
        kickTries := 0;
        kickArmed := true;
      }
      forall p
        ensures var (r, k) := (Reestablish(old(About(p)), EnvOf(p), connected, now),
                               SectionEffect(Resumes(connected), old(About(p)), EnvOf(p), now));
                r.p == k.p && r.frames == k.frames && r.arms == (k.p.heal || (!old(About(p)).out && k.p.out))
      {
        ReestablishArms(old(About(p)), EnvOf(p), connected, now);
      }
    }

    lemma Envs() returns (env: Nick -> Env)
      ensures forall p :: env(p) == EnvOf(p)
    {
      var (g, o, s, r, k) := (gated, present, sessions, sendable, peerKeys);
      env := (p: Nick) => Env(p in g, p in o, p in s, p in r, p in k);
    }

    lemma Records() returns (r: Nick -> Peer)
      ensures forall p :: r(p) == About(p)
    {
      var was, turn := Snapshot(Overdue, 0);
      r := was;
    }

    lemma TimerReasons()
      ensures (exists p :: KeepsTimer(About(p), EnvOf(p)))
              <==> (exists p :: p in pongOwed && p in sessions) || rekeyOutstanding != {}
    {
      if rekeyOutstanding != {} {
        var p :| p in rekeyOutstanding;
        assert KeepsTimer(About(p), EnvOf(p));
      }
      if p :| p in pongOwed && p in sessions {
        assert KeepsTimer(About(p), EnvOf(p));
      }
    }
  }

  /** The idle timer does what the second section of a kick pass does, and starts the timer
      for every ping or pong still open. */
  lemma IdleIsOwedPings(p: Peer, env: Env, now: nat)
    ensures var (i, k) := (Idle(p, env, now), SectionEffect(OwedPings, p, env, now));
            i.p == k.p && i.frames == k.frames && i.arms == (k.arms || k.p.owed || (!p.out && k.p.out))
  {}

  lemma ReestablishArms(p: Peer, env: Env, up: bool, now: nat)
    ensures var (r, k) := (Reestablish(p, env, up, now), SectionEffect(Resumes(up), p, env, now));
            r.p == k.p && r.frames == k.frames && r.arms == (k.p.heal || (!p.out && k.p.out))
  {}

  /** What a section did to the records `was`, as values. */
  ghost predicate Did(sec: Section, was: Nick -> Peer, after: Nick -> Peer, env: Nick -> Env, now: nat,
                      w0: seq<Sent>, w1: seq<Sent>, pending: bool)
  {
    && w0 <= w1
    && (forall p :: after(p) == SectionEffect(sec, was(p), env(p), now).p)
    && (forall p :: FramesTo(w1[|w0|..], p) == SectionEffect(sec, was(p), env(p), now).frames)
    && (pending <==> exists p :: SectionEffect(sec, was(p), env(p), now).arms)
  }

  lemma DidIt(sec: Section, was: Nick -> Peer, after: Nick -> Peer, env: Nick -> Env, now: nat,
              w0: seq<Sent>, w1: seq<Sent>, pending: bool)
    requires w0 <= w1
    requires forall p :: after(p) == SectionEffect(sec, was(p), env(p), now).p
    requires forall p :: FramesTo(w1[|w0|..], p) == SectionEffect(sec, was(p), env(p), now).frames
    requires pending <==> exists p :: SectionEffect(sec, was(p), env(p), now).arms
    ensures Did(sec, was, after, env, now, w0, w1, pending)
  {}

  lemma AllSections(r0: Nick -> Peer, r1: Nick -> Peer, r2: Nick -> Peer, r3: Nick -> Peer, r4: Nick -> Peer,
                    env: Nick -> Env, now: nat,
                    w0: seq<Sent>, w1: seq<Sent>, w2: seq<Sent>, w3: seq<Sent>, w4: seq<Sent>,
                    none: bool, pings: bool, pongs: bool, heals: bool)
    requires Did(Overdue, r0, r1, env, now, w0, w1, none)
    requires Did(OwedPings, r1, r2, env, now, w1, w2, pings)
    requires Did(OwedPongs, r2, r3, env, now, w2, w3, pongs)
    requires Did(Heals, r3, r4, env, now, w3, w4, heals)
    ensures w0 <= w4
    ensures forall p :: r4(p) == Kick(r0(p), env(p), now).p
    ensures forall p :: FramesTo(w4[|w0|..], p) == Kick(r0(p), env(p), now).frames
    ensures pings || pongs || heals <==> exists p :: Kick(r0(p), env(p), now).arms
  {
    hide SectionEffect, Kick, FramesTo;
    forall p
      ensures r4(p) == Kick(r0(p), env(p), now).p
      ensures FramesTo(w4[|w0|..], p) == Kick(r0(p), env(p), now).frames
      ensures Kick(r0(p), env(p), now).arms <==>
                SectionEffect(OwedPings, r1(p), env(p), now).arms || SectionEffect(OwedPongs, r2(p), env(p), now).arms
                || SectionEffect(Heals, r3(p), env(p), now).arms
    {
      KickIsItsSections(r0(p), env(p), now);
      WireParts(w0, w1, w2, w3, w4, p);
    }
  }

  lemma KickIsItsSections(p: Peer, env: Env, now: nat)
    ensures var e0 := SectionEffect(Overdue, p, env, now);
            var e1 := SectionEffect(OwedPings, e0.p, env, now);
            var e2 := SectionEffect(OwedPongs, e1.p, env, now);
            var e3 := SectionEffect(Heals, e2.p, env, now);
            Kick(p, env, now) == Effect(e3.p, e0.frames + (e1.frames + e2.frames + e3.frames), e1.arms || e2.arms || e3.arms)
  {
    hide KickOverdue, KickOwedPing, KickOwedPong, KickHeal;
  }

  lemma WireParts(w0: seq<Sent>, w1: seq<Sent>, w2: seq<Sent>, w3: seq<Sent>, w4: seq<Sent>, p: Nick)
    requires w0 <= w1 <= w2 <= w3 <= w4
    ensures FramesTo(w4[|w0|..], p) ==
              FramesTo(w1[|w0|..], p) + (FramesTo(w2[|w1|..], p) + FramesTo(w3[|w2|..], p) + FramesTo(w4[|w3|..], p))
  {
    var (a, b, c, d) := (w1[|w0|..], w2[|w1|..], w3[|w2|..], w4[|w3|..]);
    assert w4[|w0|..] == a + (b + c + d);
    FramesParts(a, b + c + d, p);
    FramesParts(b + c, d, p);
    FramesParts(b, c, p);
  }

  lemma SentGrows(before: seq<Sent>, sent: seq<Sent>, p: Nick, kinds: seq<Kind>)
    ensures (before + sent) + Tagged(p, kinds) == before + (sent + Tagged(p, kinds))
    ensures forall q :: FramesTo(sent + Tagged(p, kinds), q) == FramesTo(sent, q) + (if q == p then kinds else [])
  {
    forall q ensures FramesTo(sent + Tagged(p, kinds), q) == FramesTo(sent, q) + (if q == p then kinds else []) {
      FramesParts(sent, Tagged(p, kinds), q);
      FramesTagged(p, kinds, q);
    }
  }

  lemma NothingSent()
    ensures forall p :: FramesTo([], p) == []
  {}
}
