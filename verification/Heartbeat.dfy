/**
 The rekey heartbeat of client/src/chatclient.cpp, for one peer.

 `Peer` is what the client keeps about the peer; the functions below say what each handler
 does to it, which rekey frames it sends and whether it starts the kick timer.  Other
 peers matter only through that shared timer.  HeartbeatClient is the object that keeps
 these records for all peers.
 */
module Heartbeat {
  import opened Wrappers

  const REKEY_AFTER: nat := 8           // kPcsRekeyAfterMessages
  const PONG_TIMEOUT_MS: nat := 8000    // kPcsRekeyPongTimeoutMs
  const MAX_RESENDS: nat := 5           // kPcsRekeyPingMaxResends

  datatype Kind = Ping | Pong

  datatype Peer = Peer(
    sent: Option<nat>,       // m_sentSinceRatchet
    out: bool,               // m_rekeyOutstanding
    sentAt: Option<nat>,     // m_rekeyPingSentAt
    resends: Option<nat>,    // m_rekeyPingResends
    owed: bool,              // m_pongOwed
    heal: bool)              // m_healPending

  /** What the handlers read and never write: the gate, presence, whether there is a session
      and whether it can send, and whether the peer's key is held. */
  datatype Env = Env(gated: bool, online: bool, session: bool, sendable: bool, keyed: bool)

  function Blank(): Peer {
    Peer(None, false, None, None, false, false)
  }

  function Value(o: Option<nat>): nat {
    if o.Some? then o.value else 0
  }

  /** transmitRekey: a ping is refused behind the gate and to an absent peer, a pong never;
      either needs a live sending chain. */
  predicate Transmits(env: Env, kind: Kind) {
    (kind == Ping ==> !env.gated && env.online) && env.sendable
  }

  /** A handler's effect: the record, the frames sent, and whether it starts the timer. */
  datatype Effect = Effect(p: Peer, frames: seq<Kind>, arms: bool)

  /** markRekeyPingSent */
  function Mark(p: Peer, now: nat): Peer {
    p.(resends := if p.out then p.resends else Some(0), out := true, sentAt := Some(now))
  }

  function PingOr(p: Peer, env: Env, now: nat): Effect {
    if Transmits(env, Ping) then Effect(Mark(p, now), [Ping], true) else Effect(p, [], true)
  }

  /** noteOutboundTo */
  function NoteOutbound(p: Peer, env: Env, connected: bool, now: nat): Effect {
    var p1 := p.(sent := Some(Value(p.sent) + 1));
    if p1.sent.value >= REKEY_AFTER && !p1.out && connected && env.session then PingOr(p1, env, now)
    else Effect(p1, [], false)
  }

  /** noteInboundFrom */
  function NoteInbound(p: Peer): Peer {
    p.(sent := Some(0), out := false, sentAt := None, resends := None)
  }

  /** sendOwedPongIfReady */
  function PayOwed(p: Peer, env: Env, connected: bool): Effect {
    if p.owed && connected && env.session && Transmits(env, Pong) then Effect(p.(owed := false), [Pong], false)
    else Effect(p, [], false)
  }

  /** The receive path after a frame from the peer decrypted. */
  function Receive(p: Peer, env: Env, connected: bool, isPing: bool): Effect {
    var p1 := NoteInbound(p);
    var e := PayOwed(if isPing then p1.(owed := true) else p1, env, connected);
    e.(arms := isPing && e.p.owed)
  }

  /** resetPcsFor */
  function Reset(p: Peer): Peer {
    p.(sent := None, out := false, sentAt := None, resends := None)
  }

  /** tryResolveBilateral drops the in-flight flag and nothing else. */
  function GateOpened(p: Peer): Peer {
    p.(out := false)
  }

  /** The ping owed under the count rule, as the idle timer and the kick pass look for it. */
  predicate OwesPing(p: Peer, env: Env) {
    p.sent.Some? && p.sent.value > 0 && !p.out && !env.gated && env.session
  }

  /** The idle timer's turn for the peer (while connected). */
  function Idle(p: Peer, env: Env, now: nat): Effect {
    var e := if OwesPing(p, env) then PingOr(p, env, now) else Effect(p, [], false);
    e.(arms := e.arms || p.owed)
  }

  /** Section 0 of kickRekey: a ping whose pong is overdue is re-sent or given up. */
  function KickOverdue(p: Peer, env: Env, now: nat): Effect {
    if !p.out || Value(p.sentAt) == 0 || now < Value(p.sentAt) + PONG_TIMEOUT_MS then Effect(p, [], false)
    else if Value(p.resends) >= MAX_RESENDS then Effect(p.(out := false, sentAt := None, resends := None), [], false)
    else if env.session && Transmits(env, Ping) then
      Effect(p.(sentAt := Some(now), resends := Some(Value(p.resends) + 1)), [Ping], false)
    else Effect(p, [], false)
  }

  /** Section 1; `arms` stands for stillPending in sections 1 to 3. */
  function KickOwedPing(p: Peer, env: Env, now: nat): Effect {
    if !OwesPing(p, env) then Effect(p, [], false)
    else if Transmits(env, Ping) then Effect(Mark(p, now), [Ping], false)
    else Effect(p, [], true)
  }

  /** Section 2 */
  function KickOwedPong(p: Peer, env: Env): Effect {
    if !p.owed then Effect(p, [], false)
    else if env.session && Transmits(env, Pong) then Effect(p.(owed := false), [Pong], false)
    else Effect(p, [], true)
  }

  /** Section 3 */
  function KickHeal(p: Peer, env: Env, now: nat): Effect {
    if !p.heal then Effect(p, [], false)
    else if env.gated || p.out then Effect(p.(heal := false), [], false)
    else if env.session && Transmits(env, Ping) then Effect(Mark(p, now).(heal := false), [Ping], false)
    else Effect(p, [], true)
  }

  function KickRest(p: Peer, env: Env, now: nat): Effect {
    var e1 := KickOwedPing(p, env, now);
    var e2 := KickOwedPong(e1.p, env);
    var e3 := KickHeal(e2.p, env, now);
    Effect(e3.p, e1.frames + e2.frames + e3.frames, e1.arms || e2.arms || e3.arms)
  }

  /** kickRekey's four sections, as they concern the peer. */
  function Kick(p: Peer, env: Env, now: nat): Effect {
    var e0 := KickOverdue(p, env, now);
    var e := KickRest(e0.p, env, now);
    e.(frames := e0.frames + e.frames)
  }

  /** The peer alone is reason enough to keep the timer running after a pass. */
  predicate KeepsTimer(p: Peer, env: Env) {
    (p.owed && env.session) || p.out
  }

  /** reestablishPcsForAll */
  function Reestablish(p: Peer, env: Env, connected: bool, now: nat): Effect {
    var p1 :=
      if !env.keyed || !env.session || env.gated || p.out then Effect(p, [], false)
      else if connected && Transmits(env, Ping) then Effect(Mark(p, now).(heal := false), [Ping], true)
      else Effect(p.(heal := true), [], false);
    p1.(arms := p1.arms || p1.p.heal)
  }

  /** forceRekey */
  function Force(p: Peer, env: Env, connected: bool, now: nat): Effect {
    if !connected || !env.session || p.out || !Transmits(env, Ping) then Effect(p, [], false)
    else Effect(Mark(p, now), [Ping], true)
  }

  // ---- runs ------------------------------------------------------------------------------------

  /** The peer's record, the shared timer and the socket, with two counts for the
      statements: pings of the current cycle, and whether one of them was sent since the
      socket last connected. */
  datatype State = State(p: Peer, armed: bool, connected: bool, cycle: nat, recent: bool)

  datatype Event =
    | TextOut(env: Env, now: nat)
    | FrameIn(env: Env, isPing: bool)
    | FileKeyIn
    | Rebootstrap
    | GateResolves
    | IdleTick(env: Env, now: nat, others: bool)
    | KickFires(env: Env, now: nat, others: bool)     // others: another reason to go on
    | Resume(env: Env, now: nat, others: bool)
    | ForceRekey(env: Env, now: nat)
    | RestoreCount(saved: nat)
    | OthersArm
    | Connects(others: bool)
    | Drops
    | Logout

  function EffectOf(s: State, e: Event): Effect {
    match e
    case TextOut(env, now) => NoteOutbound(s.p, env, s.connected, now)
    case FrameIn(env, isPing) => Receive(s.p, env, s.connected, isPing)
    case FileKeyIn => Effect(NoteInbound(s.p), [], false)
    case Rebootstrap => Effect(Reset(s.p), [], false)
    case GateResolves => Effect(GateOpened(s.p), [], false)
    case IdleTick(env, now, others) =>
      if s.connected then var i := Idle(s.p, env, now); i.(arms := i.arms || others) else Effect(s.p, [], false)
    case KickFires(env, now, others) =>
      if !s.connected then Effect(s.p, [], false)
      else var k := Kick(s.p, env, now); k.(arms := KeepsTimer(k.p, env) || others)
    case Resume(env, now, others) =>
      var r := Reestablish(s.p, env, s.connected, now); r.(arms := r.arms || others)
    case ForceRekey(env, now) => Force(s.p, env, s.connected, now)
    case RestoreCount(saved) =>
      var n := if Value(s.p.sent) >= saved then Value(s.p.sent) else saved;
      Effect(if saved > 0 then s.p.(sent := Some(n)) else s.p, [], false)
    case OthersArm => Effect(s.p, [], true)
    case Connects(others) => Effect(s.p, [], s.p.owed || s.p.sent.Some? || others)
    case Drops => Effect(s.p, [], false)
    case Logout => Effect(Blank(), [], false)
  }

  function Pings(frames: seq<Kind>): nat {
    if frames == [] then 0 else (if frames[0] == Ping then 1 else 0) + Pings(frames[1..])
  }

  /** Pings of the cycle in force after the event; a kick pass may end one and open another. */
  function CycleAfter(s: State, e: Event): nat {
    var f := EffectOf(s, e);
    if !f.p.out then 0
    else if e.KickFires? && s.connected then
      var e0 := KickOverdue(s.p, e.env, e.now);
      (if e0.p.out then s.cycle + Pings(e0.frames) else 0) + Pings(KickRest(e0.p, e.env, e.now).frames)
    else s.cycle + Pings(f.frames)
  }

  predicate Enabled(s: State, e: Event) {
    (e.KickFires? ==> s.armed) && (e.Connects? ==> !s.connected)
  }

  function Step(s: State, e: Event): State {
    var f := EffectOf(s, e);
    State(f.p,
          f.arms || (s.armed && !e.KickFires? && !e.Logout?),
          (s.connected || e.Connects?) && !e.Drops? && !e.Logout?,
          CycleAfter(s, e),
          f.p.out && !e.Drops? && (s.recent || Pings(f.frames) > 0))
  }

  ghost predicate Run(ss: seq<State>, es: seq<Event>) {
    && |ss| == |es| + 1
    && ss[0] == State(Blank(), false, false, 0, false)
    && forall k :: 0 <= k < |es| ==> Enabled(ss[k], es[k]) && ss[k + 1] == Step(ss[k], es[k])
  }

  // ---- invariants --------------------------------------------------------------------------------

  /** A ping in flight has a send time and a re-send count within the budget, and its cycle
      has sent one ping more than it re-sent. */
  predicate InBudget(p: Peer, cycle: nat) {
    && (p.out ==> p.sentAt.Some? && p.resends.Some? && p.resends.value <= MAX_RESENDS && cycle == 1 + p.resends.value)
    && (!p.out ==> cycle == 0)
  }

  predicate Accounted(s: State) {
    InBudget(s.p, s.cycle)
  }

  /** While the socket is up, a ping sent since it came up keeps the timer running. */
  predicate Watched(s: State) {
    s.recent ==> s.p.out && s.connected && s.armed
  }

  lemma OverdueInBudget(p: Peer, env: Env, now: nat, cycle: nat)
    requires InBudget(p, cycle)
    ensures var e := KickOverdue(p, env, now); InBudget(e.p, if e.p.out then cycle + Pings(e.frames) else 0)
  {
    assert Pings([]) == 0 && Pings([Ping]) == 1;
  }

  lemma RestInBudget(p: Peer, env: Env, now: nat, cycle: nat)
    requires InBudget(p, cycle)
    ensures var e := KickRest(p, env, now); InBudget(e.p, cycle + Pings(e.frames))
  {
    var e1 := KickOwedPing(p, env, now);
    var e2 := KickOwedPong(e1.p, env);
    var e3 := KickHeal(e2.p, env, now);
    assert Pings([]) == 0 && Pings([Ping]) == 1 && Pings([Pong]) == 0;
    assert InBudget(e1.p, cycle + Pings(e1.frames));
    assert InBudget(e2.p, cycle + Pings(e1.frames) + Pings(e2.frames));
    assert InBudget(e3.p, cycle + Pings(e1.frames) + Pings(e2.frames) + Pings(e3.frames));
    PingsParts(e1.frames, e2.frames);
    PingsParts(e1.frames + e2.frames, e3.frames);
  }

  lemma AccountedKick(s: State, e: Event)
    requires Accounted(s) && e.KickFires? && s.connected
    ensures Accounted(Step(s, e))
  {
    var e0 := KickOverdue(s.p, e.env, e.now);
    var c0 := if e0.p.out then s.cycle + Pings(e0.frames) else 0;
    OverdueInBudget(s.p, e.env, e.now, s.cycle);
    RestInBudget(e0.p, e.env, e.now, c0);
    hide KickOverdue, KickRest, Pings;
  }

  lemma {:induction false} PingsParts(a: seq<Kind>, b: seq<Kind>)
    ensures Pings(a + b) == Pings(a) + Pings(b)
  {
    if a == [] {
      assert a + b == b;
    } else {
      assert (a + b)[1..] == a[1..] + b;
      PingsParts(a[1..], b);
    }
  }

  lemma AccountedStep(s: State, e: Event)
    requires Accounted(s)
    ensures Accounted(Step(s, e))
  {
    if e.KickFires? && s.connected {
      AccountedKick(s, e);
    } else {
      assert Pings([]) == 0 && Pings([Ping]) == 1 && Pings([Pong]) == 0;
    }
  }

  lemma WatchedStep(s: State, e: Event)
    requires Watched(s)
    ensures Watched(Step(s, e))
  {
    assert Pings([]) == 0 && Pings([Pong]) == 0;
  }

  /** Heartbeat invariants over every run: an outstanding ping has a send time and at most
      five re-sends, a cycle sends at most 1 + 5 pings, and pings sent in the current
      connected stretch keep the kick timer armed until answered, reset or released. */
  lemma {:induction false} HeartbeatKeeps(ss: seq<State>, es: seq<Event>, k: nat)
    requires Run(ss, es) && k <= |es|
    ensures Accounted(ss[k]) && Watched(ss[k])
    ensures ss[k].cycle <= 1 + MAX_RESENDS
  {
    if k > 0 {
      HeartbeatKeeps(ss, es, k - 1);
      AccountedStep(ss[k - 1], es[k - 1]);
      WatchedStep(ss[k - 1], es[k - 1]);
    }
  }

  predicate HasEnv(e: Event) {
    e.TextOut? || e.FrameIn? || e.IdleTick? || e.KickFires? || e.Resume? || e.ForceRekey?
  }

  /** No event pings a peer that is gated or offline at that moment, nor while the socket
      is down. */
  lemma PingsOnlyReachable(s: State, e: Event)
    requires Ping in EffectOf(s, e).frames
    ensures HasEnv(e) && !e.env.gated && e.env.online && e.env.session && s.connected
  {
    if e.KickFires? && s.connected {
      KickPingsReachable(s.p, e.env, e.now);
      hide Kick;
    }
  }

  lemma SectionPingsReachable(p: Peer, env: Env, now: nat)
    ensures Ping in KickOverdue(p, env, now).frames ==> Transmits(env, Ping) && env.session
    ensures Ping in KickOwedPing(p, env, now).frames ==> Transmits(env, Ping) && env.session
    ensures Ping !in KickOwedPong(p, env).frames
    ensures Ping in KickHeal(p, env, now).frames ==> Transmits(env, Ping) && env.session
  {}

  lemma KickPingsReachable(p: Peer, env: Env, now: nat)
    ensures Ping in Kick(p, env, now).frames ==> !env.gated && env.online && env.session
  {
    var e0 := KickOverdue(p, env, now);
    var e1 := KickOwedPing(e0.p, env, now);
    var e2 := KickOwedPong(e1.p, env);
    SectionPingsReachable(p, env, now);
    SectionPingsReachable(e0.p, env, now);
    SectionPingsReachable(e1.p, env, now);
    SectionPingsReachable(e2.p, env, now);
    hide KickOverdue, KickOwedPing, KickOwedPong, KickHeal;
  }

  /** No rekey frame is encrypted unless it can be sent: the socket is up and the sending
      chain alive. */
  lemma RekeysOnlyOnLiveSocket(s: State, e: Event)
    requires EffectOf(s, e).frames != []
    ensures s.connected && HasEnv(e) && e.env.sendable && e.env.session
  {}

  // ---- pong debts ------------------------------------------------------------------------------------

  predicate SendsPong(s: State, e: Event) {
    Pong in EffectOf(s, e).frames
  }

  function Pongs(frames: seq<Kind>): nat {
    if frames == [] then 0 else (if frames[0] == Pong then 1 else 0) + Pongs(frames[1..])
  }

  lemma {:induction false} PongsParts(a: seq<Kind>, b: seq<Kind>)
    ensures Pongs(a + b) == Pongs(a) + Pongs(b)
  {
    if a == [] {
      assert a + b == b;
    } else {
      assert (a + b)[1..] == a[1..] + b;
      PongsParts(a[1..], b);
    }
  }

  function Debt(p: Peer): nat {
    if p.owed then 1 else 0
  }

  lemma OverduePays(p: Peer, env: Env, now: nat)
    ensures var e := KickOverdue(p, env, now); Pongs(e.frames) == 0 && e.p.owed == p.owed
  {
    assert Pongs([]) == 0 && Pongs([Ping]) == 0;
  }

  lemma OwedPingPays(p: Peer, env: Env, now: nat)
    ensures var e := KickOwedPing(p, env, now); Pongs(e.frames) == 0 && e.p.owed == p.owed
  {
    assert Pongs([]) == 0 && Pongs([Ping]) == 0;
  }

  lemma OwedPongPays(p: Peer, env: Env)
    ensures var e := KickOwedPong(p, env); Pongs(e.frames) + Debt(e.p) == Debt(p)
  {
    assert Pongs([]) == 0 && Pongs([Pong]) == 1;
  }

  lemma HealPays(p: Peer, env: Env, now: nat)
    ensures var e := KickHeal(p, env, now); Pongs(e.frames) == 0 && e.p.owed == p.owed
  {
    assert Pongs([]) == 0 && Pongs([Ping]) == 0;
  }

  lemma KickPaysDebts(p: Peer, env: Env, now: nat)
    ensures var e := Kick(p, env, now); Pongs(e.frames) + Debt(e.p) == Debt(p)
  {
    hide KickOverdue, KickOwedPing, KickOwedPong, KickHeal, Pongs;
    var e0 := KickOverdue(p, env, now);
    var e1 := KickOwedPing(e0.p, env, now);
    var e2 := KickOwedPong(e1.p, env);
    var e3 := KickHeal(e2.p, env, now);
    OverduePays(p, env, now);
    OwedPingPays(e0.p, env, now);
    OwedPongPays(e1.p, env);
    HealPays(e2.p, env, now);
    PongsParts(e1.frames, e2.frames);
    PongsParts(e1.frames + e2.frames, e3.frames);
    PongsParts(e0.frames, e1.frames + e2.frames + e3.frames);
  }

  lemma DebtStep(s: State, e: Event)
    requires !e.Logout?
    ensures s.p.owed ==> EffectOf(s, e).p.owed || SendsPong(s, e)
    ensures e.FrameIn? && e.isPing ==> EffectOf(s, e).p.owed || SendsPong(s, e)
  {
    if e.KickFires? {
      KickPaysDebts(s.p, e.env, e.now);
      PongIn(Kick(s.p, e.env, e.now).frames);
      hide Kick, Pongs;
    } else {
      DebtElsewhere(s, e);
      hide EffectOf;
    }
  }

  lemma DebtElsewhere(s: State, e: Event)
    requires !e.Logout? && !e.KickFires?
    ensures s.p.owed ==> EffectOf(s, e).p.owed || SendsPong(s, e)
    ensures e.FrameIn? && e.isPing ==> EffectOf(s, e).p.owed || SendsPong(s, e)
  {
    hide Kick, Pongs, OwesPing, Transmits;
  }

  lemma {:induction false} PongIn(frames: seq<Kind>)
    ensures Pong in frames <==> Pongs(frames) > 0
  {
    if frames != [] { PongIn(frames[1..]); }
  }

  /** No pong debt is lost: after the peer's ping arrives in step j, for as long as nobody
      logs out, either the debt still stands or a pong went out in step j or later. */
  lemma {:induction false} NoPongDebtLost(ss: seq<State>, es: seq<Event>, j: nat, k: nat)
    requires Run(ss, es) && j < k <= |es|
    requires es[j].FrameIn? && es[j].isPing
    requires forall i :: j < i < k ==> !es[i].Logout?
    ensures ss[k].p.owed || exists i :: j <= i < k && SendsPong(ss[i], es[i])
  {
    DebtStep(ss[k - 1], es[k - 1]);
    if k > j + 1 {
      NoPongDebtLost(ss, es, j, k - 1);
    }
  }

  function PingsReceived(es: seq<Event>): nat {
    if es == [] then 0
    else PingsReceived(es[..|es| - 1]) + (if es[|es| - 1].FrameIn? && es[|es| - 1].isPing then 1 else 0)
  }

  ghost function PongsSent(ss: seq<State>, es: seq<Event>): nat
    requires |ss| == |es| + 1
  {
    if es == [] then 0
    else PongsSent(ss[..|es|], es[..|es| - 1]) + Pongs(EffectOf(ss[|es| - 1], es[|es| - 1]).frames)
  }

  lemma PongPerDebt(s: State, e: Event)
    ensures var f := EffectOf(s, e);
            Pongs(f.frames) + Debt(f.p) <= Debt(s.p) + (if e.FrameIn? && e.isPing then 1 else 0)
  {
    assert Pongs([]) == 0 && Pongs([Ping]) == 0 && Pongs([Pong]) == 1;
    if e.KickFires? {
      KickPaysDebts(s.p, e.env, e.now);
      hide Kick, Pongs;
    }
  }

  /** And pongs are sent for debts only: over every run at most one per ping received. */
  lemma {:induction false} PongsOnlyForPings(ss: seq<State>, es: seq<Event>)
    requires Run(ss, es)
    ensures PongsSent(ss, es) + Debt(ss[|es|].p) <= PingsReceived(es)
    decreases |es|
  {
    if es != [] {
      var n := |es| - 1;
      PongsOnlyForPings(ss[..|es|], es[..n]);
      PongPerDebt(ss[n], es[n]);
      assert ss[n + 1].p == EffectOf(ss[n], es[n]).p;
      hide EffectOf, Step, Enabled, Pongs;
    }
  }

  // ---- a ping and its send time --------------------------------------------------------------------

  /** A send time and a re-send count exist exactly while a ping is outstanding. */
  predicate Paired(p: Peer) {
    p.out == p.sentAt.Some? && p.out == p.resends.Some?
  }

  lemma KickPaired(p: Peer, env: Env, now: nat)
    requires Paired(p)
    ensures Paired(Kick(p, env, now).p)
  {
    var e0 := KickOverdue(p, env, now);
    var e1 := KickOwedPing(e0.p, env, now);
    var e2 := KickOwedPong(e1.p, env);
    assert Paired(e0.p) && Paired(e1.p) && Paired(e2.p) && Paired(KickHeal(e2.p, env, now).p);
    hide KickOverdue, KickOwedPing, KickOwedPong, KickHeal, Paired;
  }

  /** One event breaks the pairing: a gate that resolves while a ping is in flight, since
      resolving drops the flag alone.  HeartbeatGate shows that this never happens. */
  lemma PairedStepExactly(s: State, e: Event)
    requires Paired(s.p)
    ensures Paired(Step(s, e).p) <==> !(e.GateResolves? && s.p.out)
  {
    if e.KickFires? {
      KickPaired(s.p, e.env, e.now);
      hide Kick;
    }
  }

  // ---- pings that outlive their connection ---------------------------------------------------------

  /** At a reconnect a ping still in flight is watched again exactly if the timer was
      still armed, a debt or a count is recorded for the peer, or another peer arms it. */
  lemma ReconnectWatchesExactly(s: State, others: bool)
    ensures var t := Step(s, Connects(others));
            && t.p == s.p && t.connected
            && (t.armed <==> s.armed || s.p.owed || s.p.sent.Some? || others)
  {}

  /** The connect at step c left a ping in flight unwatched. */
  predicate StrandedAt(s: State, e: Event) {
    && e.Connects? && s.p.out
    && !s.armed && !s.p.owed && s.p.sent.None? && !e.others
  }

  lemma ConnectedPingStep(s: State, e: Event)
    requires Enabled(s, e) && Step(s, e).connected && Step(s, e).p.out
    ensures !s.connected ==> e.Connects? && (Step(s, e).armed <==> !StrandedAt(s, e))
    ensures s.connected ==>
              && !e.Connects? && !e.Drops?
              && (Step(s, e).armed <==> s.armed || EffectOf(s, e).arms)
              && (!s.p.out ==> EffectOf(s, e).arms)
  {
    if e.KickFires? && s.connected {
      hide Kick;
    }
  }

  /** Over every run: a ping in flight on a live socket is without a running timer if and
      only if the socket's last connect found no reason to start it and nothing has
      started it since. */
  lemma {:induction false} UnwatchedExactly(ss: seq<State>, es: seq<Event>, k: nat)
    requires Run(ss, es) && k <= |es| && ss[k].connected && ss[k].p.out
    ensures !ss[k].armed <==>
              exists c :: 0 <= c < k && StrandedAt(ss[c], es[c]) && NothingArms(ss, es, c, k)
  {
    ConnectedPingStep(ss[k - 1], es[k - 1]);
    if !ss[k - 1].connected {
      hide Step, EffectOf, Enabled;
      if StrandedAt(ss[k - 1], es[k - 1]) {
        assert NothingArms(ss, es, k - 1, k);
      }
      forall c: nat | c < k - 1 ensures NothingArms(ss, es, c, k) ==> ss[k - 1].connected {}
    } else {
      if ss[k - 1].p.out {
        UnwatchedExactly(ss, es, k - 1);
      }
      hide Step, EffectOf, Enabled;
      if !ss[k].armed {
        var c :| 0 <= c < k - 1 && StrandedAt(ss[c], es[c]) && NothingArms(ss, es, c, k - 1);
        assert NothingArms(ss, es, c, k);
      }
      if c :| 0 <= c < k && StrandedAt(ss[c], es[c]) && NothingArms(ss, es, c, k) {
        assert c != k - 1;
        assert NothingArms(ss, es, c, k - 1);
      }
    }
  }

  /** After the connect of step c the socket stays up and no event starts the timer. */
  ghost predicate NothingArms(ss: seq<State>, es: seq<Event>, c: nat, k: nat)
    requires c < k <= |es| && |ss| == |es| + 1
  {
    forall i :: c < i < k ==> ss[i].connected && !EffectOf(ss[i], es[i]).arms
  }

  /** Such a run exists: a ping forced on a peer with no message count, a drop during which
      the timer fires in vain, and a reconnect. */
  lemma ForcedPingCanBeStranded(env: Env, now: nat, others: bool)
    requires !env.gated && env.online && env.session && env.sendable
    ensures var s0 := Step(State(Blank(), false, false, 0, false), Connects(false));
            var s1 := Step(s0, ForceRekey(env, now));
            var s2 := Step(Step(s1, Drops), KickFires(env, now, true));
            s1.armed && !s2.connected && (StrandedAt(s2, Connects(others)) <==> !others)
  {}
}
