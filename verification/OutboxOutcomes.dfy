/**
 What becomes of every entry of the outbox and of every live send, told from its cause: the
 socket at its turn, the key held, the gate, the identity attested, the source file, and what
 encryptFor answers.
 */
module OutboxOutcomes {
  import opened Wrappers
  import opened Outbox

  /** The socket is still up at the turn of the i-th entry and the peer's key is held. */
  predicate Reached(env: Env, i: nat, x: Item) {
    i < env.up && x.peer in env.keys
  }

  /** Texts and files, which wait behind the gate. */
  predicate Gated(x: Item) {
    x.kind == Text || x.kind == File
  }

  predicate Passes(env: Env, i: nat, x: Item) {
    Reached(env, i, x) && !(Gated(x) && x.peer in env.gated)
  }

  /** A verifyack goes if it names the key in force; everything else if encryptFor is ready, a
      file moreover if the relay has greeted us and the source can be sent. */
  predicate Goes(env: Env, i: nat, x: Item) {
    && Passes(env, i, x)
    && (if x.kind == VerifyAck then x.attests == Some(env.keys[x.peer]) else EncOf(env, x.peer) == Ready)
    && (x.kind == File ==> env.greeted && SourceOf(env, x.uid) == Sound)
  }

  /** Given up with an error: a verifyack for a superseded key, a text that cannot be encrypted, a
      file whose source is gone or, past the greeting, cannot be sent or encrypted.  A handshake
      never is. */
  predicate GivenUp(env: Env, i: nat, x: Item) {
    && Passes(env, i, x)
    && match x.kind
       case VerifyAck => x.attests != Some(env.keys[x.peer])
       case Handshake => false
       case File =>
         || SourceOf(env, x.uid) == Missing
         || (env.greeted && (SourceOf(env, x.uid) == Unusable || EncOf(env, x.peer) == Fails))
       case _ => EncOf(env, x.peer) == Fails
  }

  /** A file whose turn came too early is queued anew. */
  predicate Renewed(env: Env, i: nat, x: Item) {
    && x.kind == File && Passes(env, i, x) && SourceOf(env, x.uid) != Missing
    && (!env.greeted || (SourceOf(env, x.uid) == Sound && EncOf(env, x.peer) == NotReady))
  }

  predicate Waits(env: Env, i: nat, x: Item) {
    !Goes(env, i, x) && !GivenUp(env, i, x) && !Renewed(env, i, x)
  }

  // ---- one turn ----------------------------------------------------------------------------

  lemma OutcomeByCause(env: Env, i: nat, x: Item)
    ensures OutcomeOf(env, i, x) == Transmit <==> Goes(env, i, x)
    ensures OutcomeOf(env, i, x) == Drop <==> GivenUp(env, i, x)
    ensures OutcomeOf(env, i, x) == Replace <==> Renewed(env, i, x)
  {}

  /** Nothing that was placed is moved by a later turn. */
  predicate Grows(s: State, t: State) {
    && s.sent <= t.sent && s.dropped <= t.dropped && s.replaced <= t.replaced && s.outbox <= t.outbox
    && s.nextRow <= t.nextRow && s.nextUid <= t.nextUid
    && forall r: nat :: r < s.nextRow && r !in s.rows ==> r !in t.rows
  }

  lemma NotedGrows(env: Env, up: bool, uid: nat, p: Peer, s: State)
    ensures var t := Noted(env, up, uid, p, s);
            Grows(s, t) && t.rows == s.rows && t.outbox == s.outbox && t.nextRow == s.nextRow
  {}

  lemma TurnGrows(env: Env, i: nat, x: Item, s: State)
    ensures var t := Turn(env, i, x, s);
            && Grows(s, t)
            && (Goes(env, i, x) ==> x in t.sent)
            && (GivenUp(env, i, x) ==> x in t.dropped)
            && (Renewed(env, i, x) ==> x in t.replaced)
            && (Waits(env, i, x) ==> x in t.outbox)
            && (!Waits(env, i, x) && x.row.Some? && x.row.value < s.nextRow ==> x.row.value !in t.rows)
  {
    OutcomeByCause(env, i, x);
    var (up, sent) := (i < env.up, Sent(s, x, i < env.up).(rows := s.rows - RowSet(x)));
    NotedGrows(env, up, x.uid, x.peer, sent);
    hide OutcomeOf, Noted, Goes, GivenUp, Renewed;
    if Goes(env, i, x) {
      assert Grows(s, sent);
      GrowsOn(s, sent, Noted(env, up, x.uid, x.peer, sent));
      assert x == sent.sent[|s.sent|];
    }
  }

  lemma GrowsOn(s: State, t: State, u: State)
    requires Grows(s, t) && Grows(t, u)
    ensures Grows(s, u)
  {}

  lemma {:induction false} DrainGrows(env: Env, pending: seq<Item>, i: nat, s: State)
    requires i <= |pending|
    ensures Grows(s, DrainFrom(env, pending, i, s))
    decreases |pending| - i
  {
    hide Turn, Grows;
    if i < |pending| {
      TurnGrows(env, i, pending[i], s);
      DrainGrows(env, pending, i + 1, Turn(env, i, pending[i], s));
      GrowsOn(s, Turn(env, i, pending[i], s), DrainFrom(env, pending, i, s));
    } else {
      NothingMoves(s);
    }
  }

  lemma NothingMoves(s: State)
    ensures Grows(s, s)
  {}

  predicate Placed(env: Env, i: nat, x: Item, t: State) {
    && (Goes(env, i, x) ==> x in t.sent)
    && (GivenUp(env, i, x) ==> x in t.dropped)
    && (Renewed(env, i, x) ==> x in t.replaced)
    && (Waits(env, i, x) ==> x in t.outbox)
    && (!Waits(env, i, x) && x.row.Some? ==> x.row.value !in t.rows)
  }

  lemma PlacedStays(env: Env, i: nat, x: Item, t: State, u: State)
    requires Placed(env, i, x, t) && Grows(t, u) && (x.row.Some? ==> x.row.value < t.nextRow)
    ensures Placed(env, i, x, u)
  {
    hide Goes, GivenUp, Renewed;
  }

  lemma {:induction false} DrainPuts(env: Env, pending: seq<Item>, i: nat, s: State, m: nat)
    requires i <= m < |pending| && (pending[m].row.Some? ==> pending[m].row.value < s.nextRow)
    ensures Placed(env, m, pending[m], DrainFrom(env, pending, i, s))
    decreases |pending| - i
  {
    hide Turn, Waits, Goes, GivenUp, Renewed, Placed;
    var t := Turn(env, i, pending[i], s);
    TurnGrows(env, i, pending[i], s);
    if i < m {
      DrainPuts(env, pending, i + 1, t, m);
    } else {
      TurnPuts(env, i, pending[i], s);
      DrainGrows(env, pending, i + 1, t);
      PlacedStays(env, m, pending[m], t, DrainFrom(env, pending, i, s));
    }
  }

  lemma TurnPuts(env: Env, i: nat, x: Item, s: State)
    requires x.row.Some? ==> x.row.value < s.nextRow
    ensures Placed(env, i, x, Turn(env, i, x, s))
  {
    hide Turn, Goes, GivenUp, Renewed;
    TurnGrows(env, i, x, s);
  }

  // ---- the drain -----------------------------------------------------------------------------

  lemma {:induction false} CountIn(xs: seq<Item>, x: Item)
    requires x in xs
    ensures Count(xs, x.uid) > 0
    ensures x.row.Some? ==> RowCount(xs, x.row.value) > 0
  {
    var n := |xs| - 1;
    if xs[n] != x {
      CountIn(xs[..n], x);
    }
  }

  /** The four fates exclude each other. */
  lemma OneFate(env: Env, i: nat, x: Item)
    ensures Goes(env, i, x) ==> !GivenUp(env, i, x) && !Renewed(env, i, x)
    ensures GivenUp(env, i, x) ==> !Renewed(env, i, x)
  {}

  /** Every drain, in every run, puts each entry where its cause says: it was transmitted if and
      only if it goes, dropped if and only if it was given up, queued anew if and only if it came
      too early, and otherwise still waits; and its persisted row is there exactly while it
      waits. */
  lemma DrainByCause(ss: seq<State>, es: seq<Event>, k: nat, m: nat)
    requires Run(ss, es) && k < |es| && es[k].Flush? && m < |ss[k].outbox|
    ensures var (env, x, t) := (es[k].env, ss[k].outbox[m], ss[k + 1]);
            && (x in t.sent <==> Goes(env, m, x))
            && (x in t.dropped <==> GivenUp(env, m, x))
            && (x in t.replaced <==> Renewed(env, m, x))
            && (x in t.outbox <==> Waits(env, m, x))
            && (x.row.Some? ==> (x.row.value in t.rows <==> Waits(env, m, x)))
  {
    EveryEntryInOnePlace(ss, es, k);
    EveryEntryInOnePlace(ss, es, k + 1);
    var (env, x, s, t) := (es[k].env, ss[k].outbox[m], ss[k], ss[k + 1]);
    CountIn(s.outbox, x);
    if x.row.Some? { assert RowKept(s, [], x.row.value); }
    assert OncePlaced(s, [], x.uid) && OncePlaced(t, [], x.uid);
    assert t == Drained(env, s);
    hide Goes, GivenUp, Renewed, Holds, Turn, Run, Step;
    DrainPuts(env, s.outbox, 0, s.(outbox := []), m);
    OneFate(env, m, x);
    UidGrows(env, s);
    OnePlaceOnly(t, x);
    if x in t.outbox && x.row.Some? {
      CountIn(t.outbox, x);
      assert RowKept(t, [], x.row.value);
    }
  }

  lemma UidGrows(env: Env, s: State)
    ensures s.nextUid <= Drained(env, s).nextUid
  {
    DrainGrows(env, s.outbox, 0, s.(outbox := []));
  }

  lemma OnePlaceOnly(t: State, x: Item)
    requires OncePlaced(t, [], x.uid)
    ensures x in t.sent ==> x !in t.dropped && x !in t.replaced && x !in t.outbox
    ensures x in t.dropped ==> x !in t.replaced && x !in t.outbox
    ensures x in t.replaced ==> x !in t.outbox
  {
    if x in t.sent { CountIn(t.sent, x); }
    if x in t.dropped { CountIn(t.dropped, x); }
    if x in t.replaced { CountIn(t.replaced, x); }
    if x in t.outbox { CountIn(t.outbox, x); }
  }

  // ---- the wire and the queue, in order --------------------------------------------------------

  /** What the wire shows of an entry. */
  datatype Frame = Frame(kind: Kind, peer: Peer, attests: Option<nat>)

  function Frames(xs: seq<Item>): seq<Frame> {
    seq(|xs|, i requires 0 <= i < |xs| => Frame(xs[i].kind, xs[i].peer, xs[i].attests))
  }

  lemma FramesParts(xs: seq<Item>, ys: seq<Item>)
    ensures Frames(xs + ys) == Frames(xs) + Frames(ys)
  {}

  /** The entry numbered uid, a text or a file just sent to p, fills the recovery window and the
      peer can be pinged. */
  predicate StartsPing(env: Env, uid: nat, p: Peer) {
    uid in env.full && p in env.sessions && p !in env.gated && p in env.present && EncOf(env, p) == Ready
  }

  function PingAfter(env: Env, x: Item): seq<Frame> {
    if Gated(x) && StartsPing(env, x.uid, x.peer) then [Frame(Ping, x.peer, None)] else []
  }

  /** What a drain hands to the socket: every entry that goes, each with the ping it starts. */
  function Wire(env: Env, pending: seq<Item>, i: nat): seq<Frame>
    requires i <= |pending|
    decreases |pending| - i
  {
    if i == |pending| then []
    else (if Goes(env, i, pending[i]) then Frames([pending[i]]) + PingAfter(env, pending[i]) else [])
         + Wire(env, pending, i + 1)
  }

  /** What it leaves queued: every entry that waits, and a new file for every one renewed. */
  function Left(env: Env, pending: seq<Item>, i: nat): seq<Frame>
    requires i <= |pending|
    decreases |pending| - i
  {
    if i == |pending| then []
    else (if Waits(env, i, pending[i]) then Frames([pending[i]])
          else if Renewed(env, i, pending[i]) then [Frame(File, pending[i].peer, None)] else [])
         + Left(env, pending, i + 1)
  }

  /** Edits, pings and pongs are never queued. */
  predicate Queueable(x: Item) {
    x.kind == Text || x.kind == File || x.kind == Handshake || x.kind == VerifyAck
  }

  lemma TurnWire(env: Env, i: nat, x: Item, s: State)
    requires Queueable(x)
    ensures var t := Turn(env, i, x, s);
            && Frames(t.sent) == Frames(s.sent) + (if Goes(env, i, x) then Frames([x]) + PingAfter(env, x) else [])
            && Frames(t.outbox) == Frames(s.outbox) + (if Waits(env, i, x) then Frames([x])
                                                       else if Renewed(env, i, x) then [Frame(File, x.peer, None)] else [])
  {
    OutcomeByCause(env, i, x);
    OneFate(env, i, x);
    var anew := Item(s.nextUid, File, x.peer, NewRow(env, s), None);
    FramesParts(s.sent, [x]);
    FramesParts(s.sent + [x], [Item(s.nextUid, Ping, x.peer, None, None)]);
    FramesParts(s.outbox, [x]);
    FramesParts(s.outbox, [anew]);
    assert Frames([anew]) == [Frame(File, x.peer, None)];
    assert Frames([Item(s.nextUid, Ping, x.peer, None, None)]) == [Frame(Ping, x.peer, None)];
    if Goes(env, i, x) { ReachedToGo(env, i, x); }
    hide Frames, OutcomeOf, Goes, GivenUp, Renewed, NewRow;
  }

  lemma ReachedToGo(env: Env, i: nat, x: Item)
    requires Goes(env, i, x)
    ensures i < env.up
  {}

  lemma {:induction false} DrainWire(env: Env, pending: seq<Item>, i: nat, s: State)
    requires i <= |pending| && forall j :: 0 <= j < |pending| ==> Queueable(pending[j])
    ensures var t := DrainFrom(env, pending, i, s);
            && Frames(t.sent) == Frames(s.sent) + Wire(env, pending, i)
            && Frames(t.outbox) == Frames(s.outbox) + Left(env, pending, i)
    decreases |pending| - i
  {
    hide Turn, Frames, Waits, Goes, Renewed, PingAfter;
    if i < |pending| {
      TurnWire(env, i, pending[i], s);
      DrainWire(env, pending, i + 1, Turn(env, i, pending[i], s));
    }
  }

  predicate AllQueueable(s: State) {
    forall j :: 0 <= j < |s.outbox| ==> Queueable(s.outbox[j])
  }

  lemma TurnQueueable(env: Env, i: nat, x: Item, s: State)
    requires AllQueueable(s) && Queueable(x)
    ensures AllQueueable(Turn(env, i, x, s))
  {
    hide OutcomeOf;
  }

  lemma {:induction false} DrainQueueable(env: Env, pending: seq<Item>, i: nat, s: State)
    requires i <= |pending| && AllQueueable(s) && forall j :: 0 <= j < |pending| ==> Queueable(pending[j])
    ensures AllQueueable(DrainFrom(env, pending, i, s))
    decreases |pending| - i
  {
    hide Turn, AllQueueable, Queueable;
    if i < |pending| {
      TurnQueueable(env, i, pending[i], s);
      DrainQueueable(env, pending, i + 1, Turn(env, i, pending[i], s));
    }
  }

  lemma {:induction false} RunQueueable(ss: seq<State>, es: seq<Event>, k: nat)
    requires Run(ss, es) && k <= |es|
    ensures AllQueueable(ss[k])
  {
    if k > 0 {
      RunQueueable(ss, es, k - 1);
      match es[k - 1]
      case Compose(env, kind, p, attests) => ComposeByCause(env, ss[k - 1], kind, p, attests);
      case Flush(env) => DrainQueueable(env, ss[k - 1].outbox, 0, ss[k - 1].(outbox := []));
      hide Composed, Drained, DrainFrom;
    }
  }

  /** Over every run, a drain hands to the socket, in queue order, exactly the entries that go,
      each followed by the ping it starts, and leaves queued, in order, exactly those that wait
      and a new file for each one renewed. */
  lemma DrainInOrder(ss: seq<State>, es: seq<Event>, k: nat)
    requires Run(ss, es) && k < |es| && es[k].Flush?
    ensures Frames(ss[k + 1].sent) == Frames(ss[k].sent) + Wire(es[k].env, ss[k].outbox, 0)
    ensures Frames(ss[k + 1].outbox) == Left(es[k].env, ss[k].outbox, 0)
  {
    RunQueueable(ss, es, k);
    DrainWire(es[k].env, ss[k].outbox, 0, ss[k].(outbox := []));
    hide DrainFrom, Wire, Left;
  }

  // ---- live sends --------------------------------------------------------------------------------

  predicate OpenTo(env: Env, p: Peer) {
    env.up > 0 && p in env.keys && p !in env.gated && EncOf(env, p) == Ready
  }

  predicate GoesLive(env: Env, kind: Kind, p: Peer, uid: nat) {
    match kind
    case Text => OpenTo(env, p)
    case Edit => OpenTo(env, p)
    case File => OpenTo(env, p) && env.greeted && SourceOf(env, uid) == Sound
    case Handshake => env.up > 0 && p in env.keys && EncOf(env, p) == Ready
    case VerifyAck => env.up > 0
    case Ping => env.up > 0 && p in env.sessions && p !in env.gated && p in env.present && EncOf(env, p) == Ready
    case Pong => env.up > 0 && p in env.sessions && EncOf(env, p) == Ready
  }

  /** A text waits for socket, gate and chain, but not for a key; a file also for the greeting, if
      there is a file; a handshake and a verifyack for whatever is missing; edits, pings and
      pongs never. */
  predicate WaitsLive(env: Env, kind: Kind, p: Peer, uid: nat) {
    match kind
    case Text => p in env.keys && (env.up == 0 || p in env.gated || EncOf(env, p) == NotReady)
    case File =>
      && SourceOf(env, uid) != Missing
      && (|| env.up == 0 || p in env.gated || !env.greeted
          || (p in env.keys && SourceOf(env, uid) == Sound && EncOf(env, p) == NotReady))
    case Handshake => !GoesLive(env, kind, p, uid)
    case VerifyAck => !GoesLive(env, kind, p, uid)
    case _ => false
  }

  /** What every live send does, from its cause: sent, with the ping it starts; queued as a new
      last entry, with a fresh persisted row exactly if the history is ready; or refused, and
      then nothing changes. */
  lemma ComposeByCause(env: Env, s: State, kind: Kind, p: Peer, attests: Option<nat>)
    ensures var t := Composed(env, s, kind, p, attests);
            if GoesLive(env, kind, p, s.nextUid) then
              && t.outbox == s.outbox && t.rows == s.rows && s.nextUid < t.nextUid
              && t.sent == s.sent + [Item(s.nextUid, kind, p, None, if kind == VerifyAck then attests else None)]
                           + (if (kind == Text || kind == File) && StartsPing(env, s.nextUid, p)
                              then [Item(s.nextUid + 1, Ping, p, None, None)] else [])
            else if WaitsLive(env, kind, p, s.nextUid) then
              && t.sent == s.sent && |t.outbox| == |s.outbox| + 1 && t.outbox[..|s.outbox|] == s.outbox
              && var x := t.outbox[|s.outbox|];
                 && x == Item(s.nextUid, kind, p, x.row, attests) && Queueable(x)
                 && (x.row.Some? <==> env.persists)
                 && t.rows == s.rows + (if env.persists then {s.nextRow} else {}) && (x.row.Some? ==> x.row == Some(s.nextRow))
            else t == s
    ensures GoesLive(env, kind, p, s.nextUid) ==> !WaitsLive(env, kind, p, s.nextUid)
  {
    LiveByCause(env, kind, p, s.nextUid);
    if GoesLive(env, kind, p, s.nextUid) { UpToGo(env, kind, p, s.nextUid); }
    hide Live, GoesLive, WaitsLive;
  }

  lemma UpToGo(env: Env, kind: Kind, p: Peer, uid: nat)
    requires GoesLive(env, kind, p, uid)
    ensures env.up > 0
  {}

  lemma LiveByCause(env: Env, kind: Kind, p: Peer, uid: nat)
    ensures Live(env, kind, p, uid) == Go <==> GoesLive(env, kind, p, uid)
    ensures Live(env, kind, p, uid) == Queue <==> WaitsLive(env, kind, p, uid)
    ensures WaitsLive(env, kind, p, uid) ==> kind == Text || kind == File || kind == Handshake || kind == VerifyAck
  {}

  // ---- what the gate holds back ---------------------------------------------------------------

  /** A frame a closed gate must not let out. */
  predicate Withheld(env: Env, f: Frame) {
    f.kind != Handshake && f.kind != VerifyAck && f.kind != Pong && f.peer in env.gated
  }

  predicate NoneWithheld(env: Env, fs: seq<Frame>) {
    forall j :: 0 <= j < |fs| ==> !Withheld(env, fs[j])
  }

  lemma {:induction false} WireNotWithheld(env: Env, pending: seq<Item>, i: nat)
    requires i <= |pending| && forall j :: 0 <= j < |pending| ==> Queueable(pending[j])
    ensures NoneWithheld(env, Wire(env, pending, i))
    decreases |pending| - i
  {
    if i < |pending| {
      WireNotWithheld(env, pending, i + 1);
      assert Queueable(pending[i]);
      assert Goes(env, i, pending[i]) ==> NoneWithheld(env, Frames([pending[i]]) + PingAfter(env, pending[i]));
      hide Goes, Frames, PingAfter, Withheld;
    }
  }

  /** Over every run, no step hands a text, a file, an edit or a ping for a peer behind the gate
      to the socket. */
  lemma GateHoldsBack(ss: seq<State>, es: seq<Event>, k: nat)
    requires Run(ss, es) && k < |es|
    ensures |ss[k].sent| <= |ss[k + 1].sent|
    ensures NoneWithheld(es[k].env, Frames(ss[k + 1].sent)[|ss[k].sent|..])
  {
    var (s, t, env) := (ss[k], ss[k + 1], es[k].env);
    match es[k]
    case Compose(_, kind, p, attests) =>
      ComposeByCause(env, s, kind, p, attests);
      hide Composed;
    case Flush(_) =>
      RunQueueable(ss, es, k);
      DrainInOrder(ss, es, k);
      WireNotWithheld(env, s.outbox, 0);
      hide Wire, Withheld, Drained;
      assert Frames(t.sent)[|s.sent|..] == Wire(env, s.outbox, 0);
  }

  // ---- ratchet steps -----------------------------------------------------------------------------

  /** Entries that took a ratchet step: all but verifyacks. */
  function Ratcheted(xs: seq<Item>): nat {
    if xs == [] then 0 else Ratcheted(xs[..|xs| - 1]) + if xs[|xs| - 1].kind == VerifyAck then 0 else 1
  }

  lemma RatchetedAppend(xs: seq<Item>, x: Item)
    ensures Ratcheted(xs + [x]) == Ratcheted(xs) + if x.kind == VerifyAck then 0 else 1
  {
    assert (xs + [x])[..|xs|] == xs;
  }

  predicate StepsOk(s: State) {
    s.steps == Ratcheted(s.sent)
  }

  lemma SentSteps(s: State, x: Item, up: bool)
    requires StepsOk(s)
    ensures StepsOk(Sent(s, x, up))
  {
    RatchetedAppend(s.sent, x);
  }

  lemma SameSteps(s: State, t: State)
    requires StepsOk(s) && t.steps == s.steps && t.sent == s.sent
    ensures StepsOk(t)
  {}

  lemma TurnSteps(env: Env, i: nat, x: Item, s: State)
    requires StepsOk(s)
    ensures StepsOk(Turn(env, i, x, s))
  {
    hide StepsOk, Noted, OutcomeOf, Sent, RowSet, NewRow;
    var (up, o, t) := (i < env.up, OutcomeOf(env, i, x), Turn(env, i, x, s));
    if o == Transmit {
      var sent := Sent(s, x, up);
      SentSteps(s, x, up);
      SameSteps(sent, sent.(rows := s.rows - RowSet(x)));
      SentRows(s, x, up);
      NotedSteps(env, up, x.uid, x.peer, sent.(rows := s.rows - RowSet(x)));
    } else {
      SameSteps(s, t);
    }
  }

  lemma SentRows(s: State, x: Item, up: bool)
    ensures Sent(s, x, up).rows == s.rows
  {}

  lemma NotedSteps(env: Env, up: bool, uid: nat, p: Peer, s: State)
    requires StepsOk(s)
    ensures StepsOk(Noted(env, up, uid, p, s))
  {
    SentSteps(s.(nextUid := s.nextUid + 1), NewItem(s.nextUid, Ping, p, None), up);
  }

  lemma {:induction false} DrainSteps(env: Env, pending: seq<Item>, i: nat, s: State)
    requires i <= |pending| && StepsOk(s)
    ensures StepsOk(DrainFrom(env, pending, i, s))
    decreases |pending| - i
  {
    hide Turn, StepsOk;
    if i < |pending| {
      TurnSteps(env, i, pending[i], s);
      DrainSteps(env, pending, i + 1, Turn(env, i, pending[i], s));
    }
  }

  lemma ComposeSteps(env: Env, s: State, kind: Kind, p: Peer, attests: Option<nat>)
    requires StepsOk(s)
    ensures StepsOk(Composed(env, s, kind, p, attests))
  {
    hide Live, Noted, Ratcheted;
    var up := env.up > 0;
    SentSteps(s.(nextUid := s.nextUid + 1), NewItem(s.nextUid, kind, p, attests), up);
    NotedSteps(env, up, s.nextUid, p, SentNew(s, kind, p, attests, up));
  }

  /** Over every run the ratchet was stepped once for every frame sent but the verifyacks, which
      are not encrypted. */
  lemma {:induction false} OneStepPerFrame(ss: seq<State>, es: seq<Event>, k: nat)
    requires Run(ss, es) && k <= |es|
    ensures ss[k].steps == Ratcheted(ss[k].sent)
  {
    if k > 0 {
      OneStepPerFrame(ss, es, k - 1);
      match es[k - 1]
      case Compose(env, kind, p, attests) => ComposeSteps(env, ss[k - 1], kind, p, attests);
      case Flush(env) => DrainSteps(env, ss[k - 1].outbox, 0, ss[k - 1].(outbox := []));
      hide Composed, DrainFrom;
    }
  }
}
