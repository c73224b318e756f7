/**
 Two clients with fixed identities, each running the gate of module Gate for the other,
 joined by a relay that stores and forwards.

 The relay may delay, reorder and duplicate what it carries; it may also lose a
 verify_resync, which is only ever sent live, but it keeps every verifyack.
 */
module GateSystem {
  import opened Wrappers
  import opened Gate

  /** Client x, client y, what travels towards each, and whether each user has confirmed
      a shown safety-number warning at least once. */
  datatype System = System(x: Side, y: Side, toX: seq<Msg>, toY: seq<Msg>, confirmedX: bool, confirmedY: bool)

  function Flip(w: System): System {
    System(w.y, w.x, w.toY, w.toX, w.confirmedY, w.confirmedX)
  }

  datatype Act =
    | Do(e: Event)                       // anything but the arrival of a peer's frame
    | Deliver(i: nat, keep: bool)        // a frame arrives; `keep` leaves a copy behind
    | LoseResync(i: nat)

  datatype Move = Move(atX: bool, act: Act)

  function EventOf(m: Msg): Event {
    match m
    case VerifyAck(a) => Acked(a)
    case VerifyResync => Resync
  }

  predicate EnabledX(w: System, act: Act) {
    match act
    case Do(e) => !e.Acked? && !e.Resync? && (e.Key? ==> e.pub == w.y.me)
    case Deliver(i, _) => i < |w.toX|
    case LoseResync(i) => i < |w.toX| && w.toX[i] == VerifyResync
  }

  function Without(ms: seq<Msg>, i: nat): seq<Msg>
    requires i < |ms|
  {
    ms[..i] + ms[i + 1..]
  }

  /** The event `e` happens at client x. */
  function Happens(w: System, e: Event): System {
    var (x', out) := Handle(w.x, e);
    w.(x := x', toY := w.toY + out, confirmedX := w.confirmedX || (e == Confirms && w.x.flagged))
  }

  function StepX(w: System, act: Act): System
    requires EnabledX(w, act)
  {
    match act
    case Do(e) => Happens(w, e)
    case Deliver(i, keep) => Happens(if keep then w else w.(toX := Without(w.toX, i)), EventOf(w.toX[i]))
    case LoseResync(i) => w.(toX := Without(w.toX, i))
  }

  predicate Enabled(w: System, m: Move) {
    EnabledX(if m.atX then w else Flip(w), m.act)
  }

  function Step(w: System, m: Move): System
    requires Enabled(w, m)
  {
    if m.atX then StepX(w, m.act) else Flip(StepX(Flip(w), m.act))
  }

  /** Logged in nowhere, with whatever either history restored. */
  predicate Start(w: System) {
    && Starts(w.x) && Starts(w.y) && !w.x.connected && !w.y.connected
    && w.toX == [] && w.toY == [] && !w.confirmedX && !w.confirmedY
  }

  /** ws lists the states of a run that starts logged in nowhere and performs ms. */
  ghost predicate Run(ws: seq<System>, ms: seq<Move>) {
    && |ws| == |ms| + 1
    && Start(ws[0])
    && Steps(ws, ms)
  }

  ghost predicate Steps(ws: seq<System>, ms: seq<Move>)
    requires |ws| == |ms| + 1
  {
    forall k :: 0 <= k < |ms| ==> Enabled(ws[k], ms[k]) && ws[k + 1] == Step(ws[k], ms[k])
  }

  // ---- the invariant -----------------------------------------------------------------

  /** The verifyack that opens the gate of `to` for `from`. */
  function Good(from: Id, to: Id): Ack {
    Ack(Some(from), Some(to))
  }

  predicate OnlyGood(ms: seq<Msg>, from: Id, to: Id) {
    forall m <- ms :: m.VerifyAck? ==> m.ack == Good(from, to)
  }

  predicate SideOk(s: Side, peer: Id) {
    && Sound(s)
    && (s.held.None? || s.held == Some(peer))
    && (forall i :: 0 <= i < |s.queue| ==> s.queue[i] == Some(peer))
    && (forall i :: 0 <= i < |s.stash| ==> s.stash[i] == Good(peer, s.me))
  }

  /** The peer's half is in, for the key in force. */
  predicate Has(s: Side) {
    s.held.Some? && s.peerVerified
  }

  /** An attestation by x is on its way to y: in flight, stashed at y, or queued at x. */
  predicate OnItsWay(w: System) {
    || VerifyAck(Good(w.x.me, w.y.me)) in w.toY
    || w.y.stash != []
    || w.x.queue != []
  }

  predicate Half(w: System) {
    && SideOk(w.x, w.y.me)
    && OnlyGood(w.toX, w.y.me, w.x.me)
    && (w.confirmedX ==> w.x.held.Some? && (Has(w.y) || OnItsWay(w)))
  }

  predicate Inv(w: System) {
    Half(w) && Half(Flip(w))
  }

  /** What one handler does to its side and what it sends. */
  predicate Keeps(s: Side, t: Side, out: seq<Msg>, peer: Id) {
    && SideOk(t, peer)
    && t.me == s.me
    && OnlyGood(out, s.me, peer)
    && (s.held.Some? ==> t.held.Some?)
    && (Has(s) ==> Has(t))
    && (s.queue != [] ==> t.queue != [] || VerifyAck(Good(s.me, peer)) in out)
    && (s.stash != [] ==> t.stash != [] || Has(t))
  }

  lemma {:induction false} ReplayOpens(s: Side, acks: seq<Ack>, peer: Id)
    requires Sound(s) && s.held == Some(peer)
    requires forall i :: 0 <= i < |acks| ==> acks[i] == Good(peer, s.me)
    ensures var t := Replay(s, acks);
            && Sound(t) && t.held == s.held && t.me == s.me && t.queue == s.queue && t.stash == s.stash
            && (s.peerVerified || acks != [] ==> t.peerVerified)
    decreases |acks|
  {
    if acks != [] {
      var s1 := AckArrives(s, acks[0]);
      assert Accepts(s, acks[0]);
      ReplayOpens(s1, acks[1..], peer);
    }
  }

  lemma AdoptSends(s: Side, pub: Id, had: bool, persisted: bool, throttled: bool)
    requires forall i :: 0 <= i < |s.queue| ==> s.queue[i] == Some(pub)
    ensures var (t, out) := AdoptKey(s, pub, had, persisted, throttled);
            && OnlyGood(out, s.me, pub) && (forall i :: 0 <= i < |t.queue| ==> t.queue[i] == Some(pub))
            && (s.queue != [] ==> t.queue != [])
  {
    DetectSends(s, pub, had, persisted, throttled);
    ResendSends(DetectChange(s, pub, had, persisted, throttled).0, pub);
    hide DetectChange, MaybeResend;
  }

  lemma DetectSends(s: Side, pub: Id, had: bool, persisted: bool, throttled: bool)
    ensures var (t, out) := DetectChange(s, pub, had, persisted, throttled);
            OnlyGood(out, s.me, pub) && t.me == s.me && t.held == Some(pub) && t.queue == s.queue
  {}

  lemma ResendSends(s: Side, pub: Id)
    requires s.held == Some(pub) && forall i :: 0 <= i < |s.queue| ==> s.queue[i] == Some(pub)
    ensures var (t, out) := MaybeResend(s);
            && OnlyGood(out, s.me, pub) && (forall i :: 0 <= i < |t.queue| ==> t.queue[i] == Some(pub))
            && (s.queue != [] ==> t.queue != [])
  {}

  lemma AdoptHonours(s: Side, pub: Id, had: bool, persisted: bool, throttled: bool)
    requires Sound(s) && (s.held.None? || s.held == Some(pub))
    ensures Has(s) ==> AdoptKey(s, pub, had, persisted, throttled).0.peerVerified
  {}

  lemma KeyKeeps(s: Side, pub: Id, had: bool, persisted: bool, throttled: bool)
    requires SideOk(s, pub)
    ensures var (t, out) := KeyArrives(s, pub, had, persisted, throttled); Keeps(s, t, out, pub)
  {
    AdoptSound(s, pub, had, persisted, throttled);
    AdoptKeeps(s, pub, had, persisted, throttled);
    AdoptSends(s, pub, had, persisted, throttled);
    AdoptHonours(s, pub, had, persisted, throttled);
    hide AdoptKey, Replay;
    var s1 := AdoptKey(s, pub, had, persisted, throttled).0;
    ReplayOpens(s1.(stash := []), s1.stash, pub);
  }

  lemma AckKeeps(s: Side, peer: Id)
    requires SideOk(s, peer)
    ensures Keeps(s, AckArrives(s, Good(peer, s.me)), [], peer)
  {}

  lemma ConfirmKeeps(s: Side, peer: Id)
    requires SideOk(s, peer)
    ensures var (t, out) := Confirm(s);
            Keeps(s, t, out, peer) && (s.flagged ==> t.queue != [] || VerifyAck(Good(s.me, peer)) in out)
  {}

  lemma ReflagKeeps(s: Side, peer: Id, throttled: bool)
    requires SideOk(s, peer) && s.held.Some?
    ensures var (t, out) := Flag(s, throttled); Keeps(s, t, out, peer)
  {}

  lemma {:induction false} FlushSendsAll(s: Side, queue: seq<Option<Id>>, peer: Id)
    requires s.held == Some(peer) && forall i :: 0 <= i < |queue| ==> queue[i] == Some(peer)
    ensures OnlyGood(FlushSends(s, queue), s.me, peer)
    ensures queue != [] ==> VerifyAck(Good(s.me, peer)) in FlushSends(s, queue)
  {
    if queue != [] {
      FlushSendsAll(s, queue[1..], peer);
      assert FlushSends(s, queue)[0] == VerifyAck(Good(s.me, peer));
    }
  }

  lemma FlushKeeps(s: Side, peer: Id)
    requires SideOk(s, peer)
    ensures var (t, out) := Flush(s); Keeps(s, t, out, peer)
  {
    if s.connected && s.held.Some? {
      FlushSendsAll(s, s.queue, peer);
    }
  }

  lemma PlainKeeps(s: Side, e: Event, peer: Id)
    requires SideOk(s, peer) && (e.Resync? || e.Online? || e.Offline?)
    ensures var (t, out) := Handle(s, e); Keeps(s, t, out, peer)
  {}

  lemma HandleKeeps(s: Side, e: Event, peer: Id)
    requires SideOk(s, peer)
    requires e.Key? ==> e.pub == peer
    requires e.Acked? ==> e.ack == Good(peer, s.me)
    ensures var (t, out) := Handle(s, e);
            && Keeps(s, t, out, peer)
            && (e == Confirms && s.flagged ==> t.held.Some? && (t.queue != [] || VerifyAck(Good(s.me, peer)) in out))
  {
    assert s.flagged ==> s.held.Some?;
    assert Keeps(s, s, [], peer);
    assert forall t, out :: Keeps(s, t, out, peer) && s.held.Some? ==> t.held.Some?;
    hide Sound, SideOk, Keeps, KeyArrives, AckArrives, Confirm, Flag, ResyncArrives, Flush;
    match e
    case Key(pub, had, persisted, throttled) => KeyKeeps(s, pub, had, persisted, throttled);
    case Acked(a) => AckKeeps(s, peer);
    case Confirms => ConfirmKeeps(s, peer);
    case Reflag(throttled) =>
      if s.held.Some? { ReflagKeeps(s, peer, throttled); }
    case Flushes => FlushKeeps(s, peer);
    case _ => PlainKeeps(s, e, peer);
  }

  lemma HappensInv(w: System, e: Event)
    requires Inv(w)
    requires e.Key? ==> e.pub == w.y.me
    requires e.Acked? ==> e.ack == Good(w.y.me, w.x.me)
    ensures Inv(Happens(w, e))
    ensures Happens(w, e).x.me == w.x.me && Happens(w, e).y.me == w.y.me
  {
    HandleKeeps(w.x, e, w.y.me);
    hide Handle, Sound;
    var w' := Happens(w, e);
    assert Half(w');
    assert Half(Flip(w'));
  }

  lemma WithoutKeeps(ms: seq<Msg>, i: nat, from: Id, to: Id)
    requires i < |ms| && OnlyGood(ms, from, to)
    ensures OnlyGood(Without(ms, i), from, to)
    ensures forall m :: m in ms && m != ms[i] ==> m in Without(ms, i)
  {
    forall m | m in ms && m != ms[i] ensures m in Without(ms, i) {
      var j :| 0 <= j < |ms| && ms[j] == m;
      assert Without(ms, i)[if j < i then j else j - 1] == m;
    }
  }

  /** A frame for x may go once it no longer carries an attestation x still lacks. */
  lemma RemoveInv(w: System, i: nat)
    requires Inv(w) && i < |w.toX|
    requires w.toX[i] == VerifyResync || Has(w.x) || w.x.stash != []
    ensures Inv(w.(toX := Without(w.toX, i)))
  {
    WithoutKeeps(w.toX, i, w.y.me, w.x.me);
    hide SideOk, OnlyGood, Without;
    var w' := w.(toX := Without(w.toX, i));
    assert Half(w');
    assert Half(Flip(w'));
  }

  lemma AckLeavesTrace(w: System, a: Ack)
    requires SideOk(w.x, w.y.me) && a == Good(w.y.me, w.x.me)
    ensures var x' := AckArrives(w.x, a); Has(x') || x'.stash != []
  {}

  lemma DeliverInv(w: System, i: nat, keep: bool)
    requires Inv(w) && i < |w.toX|
    ensures var w' := StepX(w, Deliver(i, keep)); Inv(w') && w'.x.me == w.x.me && w'.y.me == w.y.me
  {
    var m := w.toX[i];
    assert m in w.toX;
    var w1 := Happens(w, EventOf(m));
    HappensInv(w, EventOf(m));
    if m.VerifyAck? { AckLeavesTrace(w, m.ack); }
    if !keep {
      RemoveInv(w1, i);
      assert StepX(w, Deliver(i, keep)) == w1.(toX := Without(w1.toX, i));
    }
  }

  lemma StepXInv(w: System, act: Act)
    requires Inv(w) && EnabledX(w, act)
    ensures var w' := StepX(w, act); Inv(w') && w'.x.me == w.x.me && w'.y.me == w.y.me
  {
    match act
    case Do(e) => HappensInv(w, e);
    case Deliver(i, keep) => DeliverInv(w, i, keep);
    case LoseResync(i) => RemoveInv(w, i);
  }

  lemma StepInv(w: System, m: Move)
    requires Inv(w) && Enabled(w, m)
    ensures Inv(Step(w, m))
  {
    assert Inv(Flip(w));
    StepXInv(if m.atX then w else Flip(w), m.act);
  }

  lemma {:induction false} RunInv(ws: seq<System>, ms: seq<Move>, k: nat)
    requires Run(ws, ms) && k <= |ms|
    ensures Inv(ws[k])
  {
    if k > 0 {
      RunInv(ws, ms, k - 1);
      hide Inv, Step;
      StepInv(ws[k - 1], ms[k - 1]);
    }
  }

  // ---- the theorems --------------------------------------------------------------------

  /** No verifyack is in flight, queued for sending or stashed for a missing key. */
  predicate Settled(w: System) {
    && w.x.queue == [] && w.y.queue == []
    && w.x.stash == [] && w.y.stash == []
    && (forall m <- w.toX :: m.VerifyResync?)
    && (forall m <- w.toY :: m.VerifyResync?)
  }

  predicate BothConfirmed(w: System) {
    w.confirmedX && w.confirmedY && !w.x.flagged && !w.y.flagged
  }

  /** No verification deadlock: once both users have confirmed at least once and neither
      is being asked again, both gates are open as soon as no verifyack is under way,
      whatever was re-flagged, reordered, duplicated or queued before. */
  lemma NoVerificationDeadlock(ws: seq<System>, ms: seq<Move>, k: nat)
    requires Run(ws, ms) && k <= |ms|
    requires BothConfirmed(ws[k]) && Settled(ws[k])
    ensures !Blocked(ws[k].x) && !Blocked(ws[k].y)
  {
    RunInv(ws, ms, k);
  }

  // ---- and the gates do open -------------------------------------------------------------

  /** A move neither user makes. */
  predicate Unaided(m: Move) {
    m.act.Deliver? || m.act == Do(Online) || m.act == Do(Flushes)
  }

  ghost predicate Reaches(w: System, ms: seq<Move>, w': System)
    decreases |ms|
  {
    if ms == [] then w' == w
    else Unaided(ms[0]) && Enabled(w, ms[0]) && Reaches(Step(w, ms[0]), ms[1..], w')
  }

  lemma {:induction false} ReachesAlso(w: System, ms: seq<Move>, w1: System, ns: seq<Move>, w2: System)
    requires Reaches(w, ms, w1) && Reaches(w1, ns, w2)
    ensures Reaches(w, ms + ns, w2)
    decreases |ms|
  {
    hide Step, Enabled, Unaided;
    if ms == [] {
      assert ms + ns == ns;
    } else {
      ReachesAlso(Step(w, ms[0]), ms[1..], w1, ns, w2);
      assert (ms + ns)[1..] == ms[1..] + ns;
    }
  }

  lemma QuietEvents(s: Side, e: Event)
    requires e.Online? || e.Flushes? || e.Acked? || e.Resync?
    ensures Handle(s, e).0.flagged == s.flagged
  {}

  lemma UnaidedStep(w: System, m: Move)
    requires Inv(w) && BothConfirmed(w) && Unaided(m) && Enabled(w, m)
    ensures var w' := Step(w, m);
            && Inv(w') && BothConfirmed(w')
            && (Has(w.x) ==> Has(w'.x)) && (Has(w.y) ==> Has(w'.y))
  {
    StepInv(w, m);
    var v := if m.atX then w else Flip(w);
    var e := if m.act.Do? then m.act.e else EventOf(v.toX[m.act.i]);
    assert m.act.Deliver? ==> v.toX[m.act.i] in v.toX;
    HandleKeeps(v.x, e, v.y.me);
    QuietEvents(v.x, e);
    hide Handle, Inv;
  }

  /** Bringing y online, flushing its queue and delivering one frame gives x its peer's half. */
  lemma Nudge(w: System) returns (ms: seq<Move>, w': System)
    requires Inv(w) && BothConfirmed(w)
    ensures Reaches(w, ms, w') && Inv(w') && BothConfirmed(w')
    ensures Has(w'.x) && (Has(w.y) ==> Has(w'.y))
  {
    var online, flush := Move(false, Do(Online)), Move(false, Do(Flushes));
    var w1 := Step(w, online);
    UnaidedStep(w, online);
    var w2 := Step(w1, flush);
    UnaidedStep(w1, flush);
    assert w2.y.queue == [] && w2.x.stash == [];
    ms, w' := [online, flush], w2;
    if !Has(w2.x) {
      var i :| 0 <= i < |w2.toX| && w2.toX[i] == VerifyAck(Good(w2.y.me, w2.x.me));
      var deliver := Move(true, Deliver(i, false));
      UnaidedStep(w2, deliver);
      AckLeavesTrace(w2, w2.toX[i].ack);
      ms, w' := ms + [deliver], Step(w2, deliver);
    }
    ThreeMoves(w, ms, w');
  }

  lemma ThreeMoves(w: System, ms: seq<Move>, w': System)
    requires 2 <= |ms| <= 3
    requires Unaided(ms[0]) && Enabled(w, ms[0])
    requires var w1 := Step(w, ms[0]); Unaided(ms[1]) && Enabled(w1, ms[1])
    requires var w2 := Step(Step(w, ms[0]), ms[1]);
             if |ms| == 2 then w' == w2 else Unaided(ms[2]) && Enabled(w2, ms[2]) && w' == Step(w2, ms[2])
    ensures Reaches(w, ms, w')
  {
    hide Step, Enabled, Unaided;
    var w1 := Step(w, ms[0]);
    assert ms[1..][0] == ms[1];
    assert Reaches(w1, ms[1..], w') by {
      var w2 := Step(w1, ms[1]);
      assert ms[1..][1..] == ms[2..];
      if |ms| == 3 {
        assert ms[2..][0] == ms[2] && ms[2..][1..] == [];
      }
      assert Reaches(w2, ms[2..], w');
    }
  }

  /** From every reachable state in which both users have confirmed and neither is being
      asked again, the network alone can open both gates. */
  lemma GatesOpenUnaided(ws: seq<System>, ms: seq<Move>, k: nat) returns (ns: seq<Move>, w': System)
    requires Run(ws, ms) && k <= |ms| && BothConfirmed(ws[k])
    ensures Reaches(ws[k], ns, w')
    ensures !Blocked(w'.x) && !Blocked(w'.y)
  {
    RunInv(ws, ms, k);
    var n1, w1 := Nudge(ws[k]);
    var n2, w2 := Nudge(Flip(w1));
    FlipReaches(Flip(w1), n2, w2);
    ns, w' := n1 + FlipAll(n2), Flip(w2);
    ReachesAlso(ws[k], n1, w1, FlipAll(n2), w');
  }

  function FlipAll(ms: seq<Move>): seq<Move> {
    seq(|ms|, i requires 0 <= i < |ms| => Move(!ms[i].atX, ms[i].act))
  }

  lemma {:induction false} FlipReaches(w: System, ms: seq<Move>, w': System)
    requires Reaches(w, ms, w')
    ensures Reaches(Flip(w), FlipAll(ms), Flip(w'))
    decreases |ms|
  {
    if ms != [] {
      FlipReaches(Step(w, ms[0]), ms[1..], w');
      assert FlipAll(ms)[1..] == FlipAll(ms[1..]);
      assert Flip(Flip(w)) == w;
      assert Step(Flip(w), FlipAll(ms)[0]) == Flip(Step(w, ms[0]));
    }
  }
}
