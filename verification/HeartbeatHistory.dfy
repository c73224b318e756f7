/**
 The heartbeat told by what happened.  How many texts went unanswered, whether a ping is in
 flight, whether a pong is owed and whether a heal is parked are stated about the events and the
 frames sent, and over every run each event sends a ping, sends a pong and starts the timer
 exactly when these ask for it.
 */
module HeartbeatHistory {
  import opened Wrappers
  import opened Heartbeat

  function FramesAt(ss: seq<State>, es: seq<Event>, k: nat): seq<Kind>
    requires k < |es| <= |ss|
  {
    EffectOf(ss[k], es[k]).frames
  }

  predicate ConnectedAt(es: seq<Event>, k: nat)
    requires k <= |es|
  {
    k > 0 && (es[k - 1].Connects? || (!es[k - 1].Drops? && !es[k - 1].Logout? && ConnectedAt(es, k - 1)))
  }

  // ---- texts gone unanswered -------------------------------------------------------------

  predicate Heals(e: Event) {
    e.FrameIn? || e.FileKeyIn? || e.Rebootstrap? || e.Logout?
  }

  /** The texts sent since the last frame in, file key, re-bootstrap or logout; a count restored
      from the history stands for texts of an earlier session. */
  function Unanswered(es: seq<Event>, k: nat): nat
    requires k <= |es|
  {
    if k == 0 || Heals(es[k - 1]) then 0
    else if es[k - 1].TextOut? then Unanswered(es, k - 1) + 1
    else if es[k - 1].RestoreCount? && es[k - 1].saved > Unanswered(es, k - 1) then es[k - 1].saved
    else Unanswered(es, k - 1)
  }

  function TextsIn(es: seq<Event>, lo: nat, hi: nat): nat
    requires hi <= |es|
    decreases hi
  {
    if hi <= lo then 0 else TextsIn(es, lo, hi - 1) + if es[hi - 1].TextOut? then 1 else 0
  }

  /** Where the count begins: after the last event that heals. */
  function StretchStart(es: seq<Event>, k: nat): (r: nat)
    requires k <= |es|
    ensures r <= k
    ensures forall i :: r <= i < k ==> !Heals(es[i])
  {
    if k == 0 || Heals(es[k - 1]) then k else StretchStart(es, k - 1)
  }

  /** The count, read off the events: the largest of the texts since the stretch began and, for
      each count restored in it, that count and the texts since. */
  lemma {:induction false} CountIsLargest(es: seq<Event>, k: nat)
    requires k <= |es|
    ensures var (n, r) := (Unanswered(es, k), StretchStart(es, k));
            && TextsIn(es, r, k) <= n
            && (forall m :: r <= m < k && es[m].RestoreCount? ==> es[m].saved + TextsIn(es, m + 1, k) <= n)
            && (n == TextsIn(es, r, k)
                || exists m :: r <= m < k && es[m].RestoreCount? && n == es[m].saved + TextsIn(es, m + 1, k))
  {
    if k > 0 && !Heals(es[k - 1]) {
      CountIsLargest(es, k - 1);
      var (n, r) := (Unanswered(es, k - 1), StretchStart(es, k - 1));
      var t := if es[k - 1].TextOut? then 1 else 0;
      forall m | r <= m < k && es[m].RestoreCount?
        ensures es[m].saved + TextsIn(es, m + 1, k) <= Unanswered(es, k)
      {
        if m < k - 1 { assert TextsIn(es, m + 1, k) == TextsIn(es, m + 1, k - 1) + t; }
      }
      if n != TextsIn(es, r, k - 1) {
        var m :| r <= m < k - 1 && es[m].RestoreCount? && n == es[m].saved + TextsIn(es, m + 1, k - 1);
        assert TextsIn(es, m + 1, k) == TextsIn(es, m + 1, k - 1) + t;
      }
    }
  }

  /** A count is recorded: since the last re-bootstrap or logout something was sent, received or
      restored. */
  predicate CountKept(es: seq<Event>, k: nat)
    requires k <= |es|
  {
    && k > 0 && !es[k - 1].Rebootstrap? && !es[k - 1].Logout?
    && (|| es[k - 1].TextOut? || es[k - 1].FrameIn? || es[k - 1].FileKeyIn?
        || (es[k - 1].RestoreCount? && es[k - 1].saved > 0) || CountKept(es, k - 1))
  }

  // ---- the ping in flight ------------------------------------------------------------------

  /** When the last ping of the cycle went out, and how often it was sent again. */
  datatype Flight = Flight(at: nat, again: nat)

  predicate Overdue(f: Flight, now: nat) {
    f.at != 0 && f.at + PONG_TIMEOUT_MS <= now
  }

  /** The pass gives the ping up: overdue, and sent again as often as allowed. */
  predicate GivesUp(e: Event, f: Option<Flight>, up: bool) {
    e.KickFires? && up && f.Some? && Overdue(f.value, e.now) && f.value.again >= MAX_RESENDS
  }

  function TimeOf(e: Event): nat {
    if e.TextOut? || e.IdleTick? || e.KickFires? || e.Resume? || e.ForceRekey? then e.now else 0
  }

  /** The ping in flight, told by the pings sent and what ends them: a frame in, a file key, a
      re-bootstrap, the gate resolving, a logout, or giving up. */
  function NextFlight(e: Event, f: Option<Flight>, up: bool, pinged: bool): Option<Flight> {
    if Heals(e) || e.GateResolves? then None else
    var kept := if GivesUp(e, f, up) then None else f;
    if !pinged then kept else Some(Flight(TimeOf(e), if kept.Some? then kept.value.again + 1 else 0))
  }

  function FlightAt(ss: seq<State>, es: seq<Event>, k: nat): Option<Flight>
    requires k <= |es| <= |ss|
  {
    if k == 0 then None
    else NextFlight(es[k - 1], FlightAt(ss, es, k - 1), ConnectedAt(es, k - 1), Ping in FramesAt(ss, es, k - 1))
  }

  // ---- debts and heals -------------------------------------------------------------------------

  /** The peer pinged, and since then no pong went out and nobody logged out. */
  ghost predicate PongOwed(ss: seq<State>, es: seq<Event>, k: nat)
    requires k <= |es| <= |ss|
  {
    exists j :: 0 <= j < k && PingIn(es[j]) && Unpaid(ss, es, j, k)
  }

  predicate PingIn(e: Event) {
    e.FrameIn? && e.isPing
  }

  ghost predicate Unpaid(ss: seq<State>, es: seq<Event>, j: nat, k: nat)
    requires k <= |es| <= |ss|
  {
    forall i :: j <= i < k ==> !es[i].Logout? && Pong !in FramesAt(ss, es, i)
  }

  predicate Reachable(env: Env) {
    !env.gated && env.online && env.session && env.sendable
  }

  /** The lifecycle heal is for this peer. */
  predicate HealsFor(e: Event, f: Option<Flight>) {
    e.Resume? && e.env.keyed && e.env.session && !e.env.gated && f.None?
  }

  /** A heal that could not be sent is parked until a later one goes out, a pass finds the gate
      shut or a ping in flight, or a logout. */
  predicate HealParked(ss: seq<State>, es: seq<Event>, k: nat)
    requires k <= |es| <= |ss|
  {
    && k > 0 && !es[k - 1].Logout?
    && if HealsFor(es[k - 1], FlightAt(ss, es, k - 1)) then Ping !in FramesAt(ss, es, k - 1)
       else
         && HealParked(ss, es, k - 1)
         && (es[k - 1].KickFires? && ConnectedAt(es, k - 1) ==>
              !es[k - 1].env.gated && FlightAt(ss, es, k).None?)
  }

  // ---- what an event asks for -----------------------------------------------------------------

  /** What is told of the peer, and of the socket. */
  datatype Tale = Tale(count: nat, kept: bool, flight: Option<Flight>, owed: bool, heal: bool, up: bool)

  ghost function TaleAt(ss: seq<State>, es: seq<Event>, k: nat): Tale
    requires k <= |es| <= |ss|
  {
    Tale(Unanswered(es, k), CountKept(es, k), FlightAt(ss, es, k), PongOwed(ss, es, k), HealParked(ss, es, k),
         ConnectedAt(es, k))
  }

  predicate Spent(e: Event, t: Tale) {
    GivesUp(e, t.flight, t.up)
  }

  /** The event wants a ping: the eighth text unanswered, or any at the idle tick, or a forced
      rekey, or a heal, none being in flight; and in a pass of the timer a ping overdue, or a
      text unanswered or a heal parked when none is in flight any more. */
  predicate Wants(e: Event, t: Tale) {
    match e
    case TextOut(_, _) => t.flight.None? && t.count + 1 >= REKEY_AFTER
    case IdleTick(_, _, _) => t.flight.None? && t.count > 0
    case ForceRekey(_, _) => t.flight.None?
    case Resume(env, _, _) => t.flight.None? && env.keyed
    case KickFires(_, now, _) =>
      if t.flight.Some? && !Spent(e, t) then Overdue(t.flight.value, now) else t.count > 0 || t.heal
    case _ => false
  }

  predicate PingsFor(e: Event, t: Tale) {
    HasEnv(e) && t.up && Reachable(e.env) && Wants(e, t)
  }

  /** The event pays a pong: a frame arrives or the timer passes while one is owed. */
  predicate PongsFor(e: Event, t: Tale) {
    (PingIn(e) || ((e.FrameIn? || e.KickFires?) && t.owed)) && t.up && e.env.session && e.env.sendable
  }

  /** The event starts the timer, or leaves it running after a pass; `t1` is told after it. */
  predicate ArmsFor(e: Event, t: Tale, t1: Tale, frames: seq<Kind>) {
    match e
    case TextOut(env, _) => t.up && env.session && Wants(e, t)
    case FrameIn(_, isPing) => isPing && Pong !in frames
    case IdleTick(env, _, others) => t.up && (others || t.owed || (Wants(e, t) && env.session && !env.gated))
    case KickFires(env, _, others) => t.up && (others || t1.flight.Some? || (env.session && t1.owed))
    case Resume(_, _, others) => others || Ping in frames || t1.heal
    case ForceRekey(_, _) => Ping in frames
    case OthersArm => true
    case Connects(others) => others || t.owed || t.kept
    case _ => false
  }

  // ---- the record follows ------------------------------------------------------------------------

  predicate Matches(p: Peer, t: Tale) {
    && Value(p.sent) == t.count && p.sent.Some? == t.kept
    && p.out == t.flight.Some? && p.owed == t.owed && p.heal == t.heal
    && (t.flight.Some? ==> p.sentAt == Some(t.flight.value.at) && p.resends == Some(t.flight.value.again))
  }

  function NextTale(e: Event, t: Tale, frames: seq<Kind>): Tale {
    var flight := NextFlight(e, t.flight, t.up, Ping in frames);
    Tale(if Heals(e) then 0 else if e.TextOut? then t.count + 1
         else if e.RestoreCount? && e.saved > t.count then e.saved else t.count,
         !e.Rebootstrap? && !e.Logout?
         && (e.TextOut? || e.FrameIn? || e.FileKeyIn? || (e.RestoreCount? && e.saved > 0) || t.kept),
         flight,
         (t.owed || PingIn(e)) && !e.Logout? && Pong !in frames,
         !e.Logout? && (if HealsFor(e, t.flight) then Ping !in frames
                        else t.heal && (e.KickFires? && t.up ==> !e.env.gated && flight.None?)),
         e.Connects? || (!e.Drops? && !e.Logout? && t.up))
  }

  /** The frames an event sends, in order. */
  function FramesFor(e: Event, t: Tale): seq<Kind> {
    if e.KickFires? && t.up && PingsFor(e, t) && PongsFor(e, t) && !PingsFirst(e, t) then [Pong, Ping]
    else (if PingsFor(e, t) then [Ping] else []) + if PongsFor(e, t) then [Pong] else []
  }

  /** In a pass a ping goes out before a pong, unless it is a parked heal. */
  predicate PingsFirst(e: Event, t: Tale) {
    (t.flight.Some? && !Spent(e, t)) || t.count > 0
  }

  predicate Follows(s: State, e: Event, t: Tale) {
    var f := EffectOf(s, e);
    && f.frames == FramesFor(e, t)
    && Matches(f.p, NextTale(e, t, f.frames))
    && (f.arms <==> ArmsFor(e, t, NextTale(e, t, f.frames), f.frames))
  }

  lemma TextFollows(s: State, e: Event, t: Tale)
    requires Matches(s.p, t) && s.connected == t.up && e.TextOut?
    ensures Follows(s, e, t)
  {}

  lemma FrameFollows(s: State, e: Event, t: Tale)
    requires Matches(s.p, t) && s.connected == t.up && e.FrameIn?
    ensures Follows(s, e, t)
  {}

  lemma IdleFollows(s: State, e: Event, t: Tale)
    requires Matches(s.p, t) && s.connected == t.up && e.IdleTick?
    ensures Follows(s, e, t)
  {}

  lemma ResumeFollows(s: State, e: Event, t: Tale)
    requires Matches(s.p, t) && s.connected == t.up && e.Resume?
    ensures Follows(s, e, t)
  {}

  lemma ForceFollows(s: State, e: Event, t: Tale)
    requires Matches(s.p, t) && s.connected == t.up && e.ForceRekey?
    ensures Follows(s, e, t)
  {}

  lemma EndingFollows(s: State, e: Event, t: Tale)
    requires Matches(s.p, t) && s.connected == t.up && (e.FileKeyIn? || e.Rebootstrap? || e.GateResolves? || e.Logout?)
    ensures Follows(s, e, t)
  {
    hide Kick, Idle, Force, Reestablish, NoteOutbound, Receive;
  }

  lemma QuietFollows(s: State, e: Event, t: Tale)
    requires Matches(s.p, t) && s.connected == t.up && (e.RestoreCount? || e.OthersArm? || e.Connects? || e.Drops?)
    ensures Follows(s, e, t)
  {
    hide Kick, Idle, Force, Reestablish, NoteOutbound, Receive;
  }

  /** A pass while the socket is up, section by section. */
  function Tale0(e: Event, t: Tale): Tale
    requires e.KickFires?
  {
    if Spent(e, t) then t.(flight := None)
    else if Again(e, t) then t.(flight := Some(Flight(e.now, t.flight.value.again + 1)))
    else t
  }

  predicate Again(e: Event, t: Tale)
    requires e.KickFires?
  {
    t.flight.Some? && Overdue(t.flight.value, e.now) && !Spent(e, t) && Reachable(e.env)
  }

  predicate Fresh(e: Event, t: Tale)
    requires e.KickFires?
  {
    t.flight.None? && t.count > 0 && Reachable(e.env)
  }

  function Tale1(e: Event, t: Tale): Tale
    requires e.KickFires?
  {
    if Fresh(e, t) then t.(flight := Some(Flight(e.now, 0))) else t
  }

  predicate Pays(e: Event, t: Tale)
    requires e.KickFires?
  {
    t.owed && e.env.session && e.env.sendable
  }

  predicate HealGoes(e: Event, t: Tale)
    requires e.KickFires?
  {
    t.heal && t.flight.None? && Reachable(e.env)
  }

  function Tale3(e: Event, t: Tale): Tale
    requires e.KickFires?
  {
    if HealGoes(e, t) then t.(flight := Some(Flight(e.now, 0)), heal := false)
    else t.(heal := t.heal && !e.env.gated && t.flight.None?)
  }

  function When(b: bool, k: Kind): seq<Kind> {
    if b then [k] else []
  }

  lemma Section0(p: Peer, e: Event, t: Tale)
    requires Matches(p, t) && e.KickFires? && t.up
    ensures var f := KickOverdue(p, e.env, e.now); f.frames == When(Again(e, t), Ping) && Matches(f.p, Tale0(e, t))
  {}

  lemma Section1(p: Peer, e: Event, t: Tale)
    requires Matches(p, t) && e.KickFires?
    ensures var f := KickOwedPing(p, e.env, e.now); f.frames == When(Fresh(e, t), Ping) && Matches(f.p, Tale1(e, t))
  {}

  lemma Section2(p: Peer, e: Event, t: Tale)
    requires Matches(p, t) && e.KickFires?
    ensures var f := KickOwedPong(p, e.env);
            f.frames == When(Pays(e, t), Pong) && Matches(f.p, t.(owed := t.owed && !Pays(e, t)))
  {}

  lemma Section3(p: Peer, e: Event, t: Tale)
    requires Matches(p, t) && e.KickFires?
    ensures var f := KickHeal(p, e.env, e.now); f.frames == When(HealGoes(e, t), Ping) && Matches(f.p, Tale3(e, t))
  {}

  lemma KickSections(p: Peer, e: Event, t: Tale)
    requires Matches(p, t) && e.KickFires? && t.up
    ensures var t0 := Tale0(e, t);
            var t1 := Tale1(e, t0);
            var t2 := t1.(owed := t1.owed && !Pays(e, t1));
            var f := Kick(p, e.env, e.now);
            && f.frames == When(Again(e, t), Ping)
                           + (When(Fresh(e, t0), Ping) + When(Pays(e, t1), Pong) + When(HealGoes(e, t2), Ping))
            && Matches(f.p, Tale3(e, t2))
  {
    hide KickOverdue, KickOwedPing, KickOwedPong, KickHeal, Matches, Tale0, Tale1, Tale3, Again, Fresh, Pays, HealGoes,
         When;
    var t0 := Tale0(e, t);
    var t1 := Tale1(e, t0);
    var t2 := t1.(owed := t1.owed && !Pays(e, t1));
    var e0 := KickOverdue(p, e.env, e.now);
    var e1 := KickOwedPing(e0.p, e.env, e.now);
    var e2 := KickOwedPong(e1.p, e.env);
    Section0(p, e, t);
    Section1(e0.p, e, t0);
    Section2(e1.p, e, t1);
    Section3(e2.p, e, t2);
  }

  /** The sections together, as the tale tells the pass. */
  lemma SectionsTell(e: Event, t: Tale)
    requires e.KickFires? && t.up
    ensures var t0 := Tale0(e, t);
            var t1 := Tale1(e, t0);
            var t2 := t1.(owed := t1.owed && !Pays(e, t1));
            var frames := FramesFor(e, t);
            && frames == When(Again(e, t), Ping)
                         + (When(Fresh(e, t0), Ping) + When(Pays(e, t1), Pong) + When(HealGoes(e, t2), Ping))
            && Tale3(e, t2) == NextTale(e, t, frames)
  {}

  lemma KickFollows(s: State, e: Event, t: Tale)
    requires Matches(s.p, t) && s.connected == t.up && e.KickFires?
    ensures Follows(s, e, t)
  {
    if t.up {
      KickSections(s.p, e, t);
      SectionsTell(e, t);
      hide Kick, FramesFor, Tale0, Tale1, Tale3, Again, Fresh, Pays, HealGoes, When, NextTale;
    } else {
      hide Kick;
    }
  }

  lemma EventFollows(s: State, e: Event, t: Tale)
    requires Matches(s.p, t) && s.connected == t.up
    ensures Follows(s, e, t)
  {
    hide Matches, Follows;
    match e
    case TextOut(_, _) => TextFollows(s, e, t);
    case FrameIn(_, _) => FrameFollows(s, e, t);
    case IdleTick(_, _, _) => IdleFollows(s, e, t);
    case KickFires(_, _, _) => KickFollows(s, e, t);
    case Resume(_, _, _) => ResumeFollows(s, e, t);
    case ForceRekey(_, _) => ForceFollows(s, e, t);
    case FileKeyIn => EndingFollows(s, e, t);
    case Rebootstrap => EndingFollows(s, e, t);
    case GateResolves => EndingFollows(s, e, t);
    case Logout => EndingFollows(s, e, t);
    case _ => QuietFollows(s, e, t);
  }

  // ---- over runs ---------------------------------------------------------------------------------

  lemma OwedNext(ss: seq<State>, es: seq<Event>, k: nat)
    requires k < |es| <= |ss|
    ensures PongOwed(ss, es, k + 1)
       <==> (PongOwed(ss, es, k) || PingIn(es[k])) && !es[k].Logout? && Pong !in FramesAt(ss, es, k)
  {
    hide FramesAt, PingIn;
    var pays := es[k].Logout? || Pong in FramesAt(ss, es, k);
    if PongOwed(ss, es, k) && !pays {
      var j :| 0 <= j < k && PingIn(es[j]) && Unpaid(ss, es, j, k);
      assert Unpaid(ss, es, j, k + 1);
    }
    if PingIn(es[k]) && !pays {
      assert Unpaid(ss, es, k, k + 1);
    }
    if PongOwed(ss, es, k + 1) {
      var j :| 0 <= j < k + 1 && PingIn(es[j]) && Unpaid(ss, es, j, k + 1);
      if j < k { assert Unpaid(ss, es, j, k); }
    }
  }

  lemma TaleNext(ss: seq<State>, es: seq<Event>, k: nat)
    requires k < |es| <= |ss|
    ensures TaleAt(ss, es, k + 1) == NextTale(es[k], TaleAt(ss, es, k), FramesAt(ss, es, k))
  {
    hide FramesAt, PongOwed;
    OwedNext(ss, es, k);
  }

  lemma {:induction false} RunMatches(ss: seq<State>, es: seq<Event>, k: nat)
    requires Run(ss, es) && k <= |es|
    ensures Matches(ss[k].p, TaleAt(ss, es, k)) && ss[k].connected == ConnectedAt(es, k)
  {
    hide Matches, NextTale;
    if k == 0 {
      StartMatches(ss, es);
    } else {
      RunMatches(ss, es, k - 1);
      EventFollows(ss[k - 1], es[k - 1], TaleAt(ss, es, k - 1));
      TaleNext(ss, es, k - 1);
      hide EffectOf, FramesFor, ArmsFor;
    }
  }

  lemma StartMatches(ss: seq<State>, es: seq<Event>)
    requires Run(ss, es)
    ensures Matches(ss[0].p, TaleAt(ss, es, 0)) && !ss[0].connected
  {}

  /** The counter is the number of texts unanswered, and a ping counts as in flight exactly while
      one is; over every run. */
  lemma CountAndFlight(ss: seq<State>, es: seq<Event>, k: nat)
    requires Run(ss, es) && k <= |es|
    ensures Value(ss[k].p.sent) == Unanswered(es, k) && (ss[k].p.sent.Some? <==> CountKept(es, k))
    ensures ss[k].p.out <==> FlightAt(ss, es, k).Some?
    ensures FlightAt(ss, es, k).Some? ==>
              && ss[k].p.sentAt == Some(FlightAt(ss, es, k).value.at)
              && ss[k].p.resends == Some(FlightAt(ss, es, k).value.again)
    ensures ss[k].p.owed <==> PongOwed(ss, es, k)
    ensures ss[k].p.heal <==> HealParked(ss, es, k)
  {
    RunMatches(ss, es, k);
  }

  lemma RunFollows(ss: seq<State>, es: seq<Event>, k: nat)
    requires Run(ss, es) && k < |es|
    ensures Follows(ss[k], es[k], TaleAt(ss, es, k))
    ensures TaleAt(ss, es, k + 1) == NextTale(es[k], TaleAt(ss, es, k), FramesAt(ss, es, k))
    ensures Enabled(ss[k], es[k]) && ss[k + 1] == Step(ss[k], es[k])
  {
    hide Matches, Follows, NextTale, Step, Enabled;
    RunMatches(ss, es, k);
    EventFollows(ss[k], es[k], TaleAt(ss, es, k));
    TaleNext(ss, es, k);
  }

  /** Over every run an event sends a ping if and only if it wants one and the peer can be
      reached: socket up, session there, gate open, peer present, chain alive.  So the eighth
      text unanswered pings, and no earlier one does. */
  lemma PingsExactly(ss: seq<State>, es: seq<Event>, k: nat)
    requires Run(ss, es) && k < |es|
    ensures Ping in FramesAt(ss, es, k) <==> PingsFor(es[k], TaleAt(ss, es, k))
    ensures Pings(FramesAt(ss, es, k)) <= 1
  {
    hide Step, Enabled, EffectOf, Matches, NextTale, ArmsFor, PingsFor, PongsFor, PingsFirst;
    RunFollows(ss, es, k);
    assert Pings([]) == 0 && Pings([Ping]) == 1 && Pings([Pong]) == 0 && Pings([Ping, Pong]) == 1 && Pings([Pong, Ping]) == 1 by {
      assert [Ping, Pong][1..] == [Pong] && [Pong, Ping][1..] == [Ping];
    }
  }

  /** And a pong if and only if one is owed, a frame arrives or the timer passes, and session and
      chain allow it. */
  lemma PongsExactly(ss: seq<State>, es: seq<Event>, k: nat)
    requires Run(ss, es) && k < |es|
    ensures Pong in FramesAt(ss, es, k) <==> PongsFor(es[k], TaleAt(ss, es, k))
  {
    hide Step, Enabled, EffectOf, Matches, NextTale, ArmsFor, PingsFor, PongsFor, PingsFirst;
    RunFollows(ss, es, k);
  }

  /** The timer runs after an event if and only if the event starts it, or it ran before and the
      event is neither its firing nor a logout.  A text that should ping and cannot reach the
      peer starts it. */
  lemma ArmsExactly(ss: seq<State>, es: seq<Event>, k: nat)
    requires Run(ss, es) && k < |es|
    ensures ss[k + 1].armed <==>
              || ArmsFor(es[k], TaleAt(ss, es, k), TaleAt(ss, es, k + 1), FramesAt(ss, es, k))
              || (ss[k].armed && !es[k].KickFires? && !es[k].Logout?)
  {
    RunFollows(ss, es, k);
    hide EffectOf, FramesFor, NextTale, Matches, ArmsFor, TaleAt;
  }

  /** The count rule in one sentence.  A text sent while none is in flight, with the socket up
      and a session held, is at least the eighth unanswered exactly if it pings or starts the
      timer; it pings unless gate, presence or chain forbid it. */
  lemma EighthTextPings(ss: seq<State>, es: seq<Event>, k: nat)
    requires Run(ss, es) && k < |es| && es[k].TextOut?
    requires FlightAt(ss, es, k).None? && ConnectedAt(es, k) && es[k].env.session
    ensures Unanswered(es, k + 1) >= REKEY_AFTER <==> EffectOf(ss[k], es[k]).arms
    ensures Ping in FramesAt(ss, es, k) <==> Unanswered(es, k + 1) >= REKEY_AFTER && Reachable(es[k].env)
    ensures Unanswered(es, k + 1) == Unanswered(es, k) + 1
  {
    PingsExactly(ss, es, k);
    RunFollows(ss, es, k);
    hide EffectOf, FramesFor, NextTale, Matches, ArmsFor, HealParked;
  }

  // ---- what a pass leaves undone -----------------------------------------------------------------

  lemma SectionsArm(p: Peer, e: Event, t: Tale)
    requires Matches(p, t) && e.KickFires?
    ensures KickOwedPing(p, e.env, e.now).arms
       <==> t.flight.None? && t.count > 0 && e.env.session && !e.env.gated && !Reachable(e.env)
    ensures KickOwedPong(p, e.env).arms <==> t.owed && !Pays(e, t)
    ensures KickHeal(p, e.env, e.now).arms <==> t.heal && !e.env.gated && t.flight.None? && !Reachable(e.env)
  {}

  /** Something could not be sent. */
  predicate Undone(e: Event, t: Tale)
    requires e.KickFires?
  {
    t.owed || t.heal || (t.flight.None? && t.count > 0 && e.env.session && !e.env.gated)
  }

  lemma KickArms(p: Peer, e: Event, t: Tale)
    requires Matches(p, t) && e.KickFires? && t.up
    ensures var t0 := Tale0(e, t);
            var t1 := Tale1(e, t0);
            var t2 := t1.(owed := t1.owed && !Pays(e, t1));
            Kick(p, e.env, e.now).arms <==> Undone(e, Tale3(e, t2))
  {
    hide KickOverdue, KickOwedPing, KickOwedPong, KickHeal, Matches, Overdue;
    var t0 := Tale0(e, t);
    var t1 := Tale1(e, t0);
    var t2 := t1.(owed := t1.owed && !Pays(e, t1));
    var e0 := KickOverdue(p, e.env, e.now);
    var e1 := KickOwedPing(e0.p, e.env, e.now);
    var e2 := KickOwedPong(e1.p, e.env);
    Section0(p, e, t);
    Section1(e0.p, e, t0);
    Section2(e1.p, e, t1);
    SectionsArm(e0.p, e, t0);
    SectionsArm(e1.p, e, t1);
    SectionsArm(e2.p, e, t2);
  }

  /** A pass counts as unfinished, and so is tried again, exactly if after it a pong is still
      owed, a heal still parked, or texts are unanswered with none in flight though gate and
      session would allow one. */
  lemma UnfinishedExactly(ss: seq<State>, es: seq<Event>, k: nat)
    requires Run(ss, es) && k < |es| && es[k].KickFires? && ConnectedAt(es, k)
    ensures Kick(ss[k].p, es[k].env, es[k].now).arms <==>
              || PongOwed(ss, es, k + 1) || HealParked(ss, es, k + 1)
              || (FlightAt(ss, es, k + 1).None? && Unanswered(es, k + 1) > 0 && es[k].env.session && !es[k].env.gated)
  {
    hide Step, Enabled, EffectOf, Matches, Follows, NextTale, Kick, Tale0, Tale1, Tale3, Pays;
    RunMatches(ss, es, k);
    var (e, t) := (es[k], TaleAt(ss, es, k));
    KickArms(ss[k].p, e, t);
    SectionsTell(e, t);
    TaleNext(ss, es, k);
    EventFollows(ss[k], e, t);
    FollowsFrames(ss[k], e, t);
  }

  lemma FollowsFrames(s: State, e: Event, t: Tale)
    requires Follows(s, e, t)
    ensures EffectOf(s, e).frames == FramesFor(e, t)
  {}
}
