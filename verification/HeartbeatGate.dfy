/**
 The heartbeat and the verification gate of one peer, as the client couples them.

 A ping is refused while the gate is shut; a change of key and a confirmation of a shown
 warning drop the peer's rekey accounting; and resolving the gate drops the in-flight
 flag.  Each coupled run is a run of module Heartbeat whose gate is that of module Gate.
 */
module HeartbeatGate {
  import opened Wrappers
  import H = Heartbeat
  import G = Gate

  datatype State = State(h: H.State, side: G.Side)

  datatype Event =
    | Beat(beat: H.Event)
    | Gate(gate: G.Event)
    | Logout(next: G.Side)      // and what the next login finds

  /** The events a heartbeat meets on its own; those of the gate come from the gate, and
      what they read of it is its state. */
  predicate Enabled(s: State, e: Event) {
    match e
    case Beat(b) =>
      && H.Enabled(s.h, b)
      && !b.Rebootstrap? && !b.GateResolves? && !b.Logout?
      && (H.HasEnv(b) ==> b.env.gated == G.Blocked(s.side))
    case Gate(g) => !g.Online? && !g.Offline?
    case Logout(next) => G.Starts(next) && !next.connected
  }

  /** resetPcsFor runs on a changed key and when a shown warning is confirmed. */
  predicate Resets(side: G.Side, g: G.Event) {
    G.ChangesKey(side, g) || (g == G.Confirms && side.flagged)
  }

  /** tryResolveBilateral gets past its guards. */
  predicate Resolves(side: G.Side, g: G.Event) {
    side.pending && !G.Handle(side, g).0.pending
  }

  /** The heartbeat's part of a gate event; the reset comes before the resolution. */
  function GateBeats(h: H.State, side: G.Side, g: G.Event): H.State {
    var h1 := if Resets(side, g) then H.Step(h, H.Rebootstrap) else h;
    if Resolves(side, g) then H.Step(h1, H.GateResolves) else h1
  }

  function SocketSide(side: G.Side, b: H.Event): G.Side {
    if b.Connects? then G.Handle(side, G.Online).0
    else if b.Drops? then G.Handle(side, G.Offline).0
    else side
  }

  function Step(s: State, e: Event): State
    requires Enabled(s, e)
  {
    match e
    case Beat(b) => State(H.Step(s.h, b), SocketSide(s.side, b))
    case Gate(g) => State(GateBeats(s.h, s.side, g), G.Handle(s.side, g).0)
    case Logout(next) => State(H.Step(s.h, H.Logout), next)
  }

  ghost predicate Run(ss: seq<State>, es: seq<Event>) {
    && |ss| == |es| + 1
    && ss[0].h == H.State(H.Blank(), false, false, 0, false)
    && G.Starts(ss[0].side) && !ss[0].side.connected
    && forall k :: 0 <= k < |es| ==> Enabled(ss[k], es[k]) && ss[k + 1] == Step(ss[k], es[k])
  }

  /** No ping is in flight while the gate only waits for the peer. */
  predicate Inv(s: State) {
    && G.Sound(s.side)
    && H.Paired(s.h.p)
    && (s.side.pending && !s.side.flagged ==> !s.h.p.out)
  }

  lemma {:induction false} ReplayOnlyResolves(s: G.Side, acks: seq<G.Ack>)
    requires s.held.Some?
    ensures var t := G.Replay(s, acks);
            t.flagged == s.flagged && (t.pending ==> s.pending) && (s.flagged && s.pending ==> t.pending)
    decreases |acks|
  {
    if acks != [] { ReplayOnlyResolves(G.AckArrives(s, acks[0]), acks[1..]); }
  }

  lemma DetectFlags(s: G.Side, g: G.Event)
    requires g.Key? && (s.flagged ==> s.pending)
    ensures var t := G.DetectChange(s, g.pub, g.hadSession, g.persisted, g.throttled).0;
            && t.held.Some? && (s.flagged ==> t.flagged) && (t.flagged ==> t.pending)
            && (!t.flagged ==> t.pending == s.pending)
  {}

  lemma ResendFlags(s: G.Side)
    ensures var t := G.MaybeResend(s).0; t.held == s.held && t.flagged == s.flagged && t.pending == s.pending
  {}

  lemma AdoptFlags(s: G.Side, g: G.Event)
    requires g.Key? && (s.flagged ==> s.pending)
    ensures var t := G.AdoptKey(s, g.pub, g.hadSession, g.persisted, g.throttled).0;
            && t.held.Some? && (s.flagged ==> t.flagged) && (t.flagged ==> t.pending)
            && (!t.flagged ==> t.pending == s.pending)
  {
    hide G.DetectChange, G.MaybeResend;
    DetectFlags(s, g);
    ResendFlags(G.DetectChange(s, g.pub, g.hadSession, g.persisted, g.throttled).0);
  }

  /** The flag goes only with a confirmation, and an episode opens only flagged. */
  lemma FlagsMove(s: G.Side, g: G.Event)
    requires G.Sound(s)
    ensures var t := G.Handle(s, g).0;
            && (s.flagged && g != G.Confirms ==> t.flagged)
            && (!s.pending && t.pending ==> t.flagged)
  {
    if g.Key? {
      var s1 := G.AdoptKey(s, g.pub, g.hadSession, g.persisted, g.throttled).0;
      AdoptFlags(s, g);
      hide G.AdoptKey, G.Sound;
      ReplayOnlyResolves(s1.(stash := []), s1.stash);
    }
  }

  lemma GateInv(s: State, g: G.Event)
    requires Inv(s) && Enabled(s, Gate(g))
    ensures Inv(Step(s, Gate(g)))
    ensures Resolves(s.side, g) ==> !(if Resets(s.side, g) then H.Step(s.h, H.Rebootstrap) else s.h).p.out
  {
    FlagsMove(s.side, g);
    G.HandleSound(s.side, g);
    assert G.Sound(s.side) ==> (s.side.flagged ==> s.side.pending);
    assert G.Sound(G.Handle(s.side, g).0) ==> (G.Handle(s.side, g).0.flagged ==> G.Handle(s.side, g).0.pending);
    hide G.Handle, G.Sound;
  }

  /** A ping starts only past an open gate. */
  lemma OutNeedsOpenGate(s: H.State, b: H.Event)
    requires !s.p.out && H.Step(s, b).p.out
    ensures H.HasEnv(b) && !b.env.gated
  {}

  lemma BeatInv(s: State, b: H.Event)
    requires Inv(s) && Enabled(s, Beat(b))
    ensures Inv(Step(s, Beat(b)))
  {
    H.PairedStepExactly(s.h, b);
    if !s.h.p.out && H.Step(s.h, b).p.out { OutNeedsOpenGate(s.h, b); }
    hide H.Step;
  }

  /** The two machines together, over every run: a send time exists exactly while a ping
      is outstanding, and no ping is in flight while only the peer's half is missing. */
  lemma {:induction false} SendTimePairsWithPing(ss: seq<State>, es: seq<Event>, k: nat)
    requires Run(ss, es) && k <= |es|
    ensures Inv(ss[k])
  {
    hide Inv;
    if k == 0 {
      StartInv(ss, es);
    } else {
      SendTimePairsWithPing(ss, es, k - 1);
      hide Step;
      match es[k - 1]
      case Beat(b) => BeatInv(ss[k - 1], b);
      case Gate(g) => GateInv(ss[k - 1], g);
      case Logout(_) => LogoutInv(ss[k - 1], es[k - 1]);
    }
  }

  lemma StartInv(ss: seq<State>, es: seq<Event>)
    requires Run(ss, es)
    ensures Inv(ss[0])
  {}

  lemma LogoutInv(s: State, e: Event)
    requires Enabled(s, e) && e.Logout?
    ensures Inv(Step(s, e))
  {}

  /** So the resolution of the gate never finds a ping in flight: the removal of the flag
      there changes nothing. */
  lemma ResolutionFindsNoPing(ss: seq<State>, es: seq<Event>, k: nat)
    requires Run(ss, es) && k < |es| && es[k].Gate? && Resolves(ss[k].side, es[k].gate)
    ensures var s := ss[k];
            var h1 := if Resets(s.side, es[k].gate) then H.Step(s.h, H.Rebootstrap) else s.h;
            !h1.p.out && ss[k + 1].h.p == h1.p
  {
    SendTimePairsWithPing(ss, es, k);
    GateInv(ss[k], es[k].gate);
    hide G.Handle, Inv;
  }

  /** What the gate does to the rekey accounting over every coupled run: a key other than the one
      known, and a confirmation of a shown warning, clear the count and the ping in flight and
      leave the pong debt and a parked heal; nothing else at the gate touches any of it, not even
      its resolution. */
  lemma GateClearsExactly(ss: seq<State>, es: seq<Event>, k: nat)
    requires Run(ss, es) && k < |es| && es[k].Gate?
    ensures var (s, g, p, p1) := (ss[k], es[k].gate, ss[k].h.p, ss[k + 1].h.p);
            var clears := (g.Key? && s.side.stamp.Some? && s.side.stamp != Some(g.pub)) || (g.Confirms? && s.side.flagged);
            if clears then p1 == H.Peer(None, false, None, None, p.owed, p.heal) else p1 == p
  {
    SendTimePairsWithPing(ss, es, k);
    GateInv(ss[k], es[k].gate);
    hide G.Handle, Inv;
  }

  lemma GateKeepsSocket(side: G.Side, g: G.Event)
    requires !g.Online? && !g.Offline?
    ensures G.Handle(side, g).0.connected == side.connected
  {
    hide G.AdoptKey, G.Replay;
    if g.Key? {
      var s1 := G.AdoptKey(side, g.pub, g.hadSession, g.persisted, g.throttled).0;
      G.AdoptKeeps(side, g.pub, g.hadSession, g.persisted, g.throttled);
      ReplaySocket(s1.(stash := []), s1.stash);
    } else {
      hide G.KeyArrives, G.FlushSends;
    }
  }

  lemma {:induction false} ReplaySocket(s: G.Side, acks: seq<G.Ack>)
    ensures G.Replay(s, acks).connected == s.connected
    decreases |acks|
  {
    if acks != [] { ReplaySocket(G.AckArrives(s, acks[0]), acks[1..]); }
  }

  /** Heartbeat and gate see the same socket over every coupled run. */
  lemma {:induction false} OneSocket(ss: seq<State>, es: seq<Event>, k: nat)
    requires Run(ss, es) && k <= |es|
    ensures ss[k].side.connected == ss[k].h.connected
  {
    if k > 0 {
      OneSocket(ss, es, k - 1);
      var (s, e) := (ss[k - 1], es[k - 1]);
      if e.Gate? { GateKeepsSocket(s.side, e.gate); }
      if e.Beat? { SocketMoves(s.h, e.beat); }
      GateBeatsSocket(s.h, s.side, if e.Gate? then e.gate else G.Resync);
      hide G.Handle, H.Step, GateBeats;
    }
  }

  lemma SocketMoves(h: H.State, b: H.Event)
    ensures H.Step(h, b).connected == ((h.connected || b.Connects?) && !b.Drops? && !b.Logout?)
  {
    hide H.EffectOf, H.CycleAfter, H.Pings;
  }

  lemma GateBeatsSocket(h: H.State, side: G.Side, g: G.Event)
    ensures GateBeats(h, side, g).connected == h.connected
  {
    SocketMoves(h, H.Rebootstrap);
    SocketMoves(h, H.GateResolves);
    SocketMoves(H.Step(h, H.Rebootstrap), H.GateResolves);
    hide H.Step, G.Handle;
  }

  /** The heartbeat's own invariants hold in coupled runs too. */
  lemma {:induction false} HeartbeatKeepsCoupled(ss: seq<State>, es: seq<Event>, k: nat)
    requires Run(ss, es) && k <= |es|
    ensures H.Accounted(ss[k].h) && H.Watched(ss[k].h)
  {
    hide Step, Enabled, H.Accounted, H.Watched, G.Starts;
    if k > 0 {
      HeartbeatKeepsCoupled(ss, es, k - 1);
      BeatsKeep(ss[k - 1], es[k - 1]);
    } else {
      NothingToAccount();
    }
  }

  lemma NothingToAccount()
    ensures var s := H.State(H.Blank(), false, false, 0, false); H.Accounted(s) && H.Watched(s)
  {}

  lemma BeatsKeep(s: State, e: Event)
    requires H.Accounted(s.h) && H.Watched(s.h) && Enabled(s, e)
    ensures H.Accounted(Step(s, e).h) && H.Watched(Step(s, e).h)
  {
    hide H.Step, H.Accounted, H.Watched, G.Handle;
    match e
    case Beat(b) => Keeps(s.h, b);
    case Gate(g) =>
      Keeps(s.h, H.Rebootstrap);
      Keeps(H.Step(s.h, H.Rebootstrap), H.GateResolves);
      Keeps(s.h, H.GateResolves);
    case Logout(_) => Keeps(s.h, H.Logout);
  }

  lemma Keeps(s: H.State, b: H.Event)
    requires H.Accounted(s) && H.Watched(s)
    ensures H.Accounted(H.Step(s, b)) && H.Watched(H.Step(s, b))
  {
    H.AccountedStep(s, b);
    H.WatchedStep(s, b);
  }
}
