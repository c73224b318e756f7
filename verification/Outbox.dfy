/**
 The offline outbox of client/src/chatclient.cpp and the live send paths around it.

 `Env` is what a drain or a live send finds: the socket, the keys held, the gates, what
 encryptFor answers and the state of source files.  The socket may fall during a drain but
 does not come back, and what encryptFor answers for a peer stays the same throughout.
 */
module Outbox {
  import opened Wrappers

  type Peer = nat

  datatype Kind = Text | File | Handshake | VerifyAck | Edit | Ping | Pong

  /** A queued entry; `row` is its persisted row, `attests` the identity a verifyack names.
      `uid` numbers entries in the order they were composed. */
  datatype Item = Item(uid: nat, kind: Kind, peer: Peer, row: Option<nat>, attests: Option<nat>)

  datatype Enc = Ready | NotReady | Fails

  /** A queued file's source: gone, not sendable (unreadable, empty, too large), or fine. */
  datatype Source = Missing | Unusable | Sound

  datatype Env = Env(
    up: nat,                    // the socket stays connected for this many entries
    greeted: bool,              // m_connected
    keys: map<Peer, nat>,       // m_peerKeys
    gated: set<Peer>,           // conversationBlocked
    present: set<Peer>,         // m_users.isOnline
    sessions: set<Peer>,        // hasSessionFor
    full: set<nat>,             // entries whose send fills the recovery window, none being in flight
    enc: map<Peer, Enc>,        // what encryptFor answers
    source: map<nat, Source>,   // by uid of the entry
    persists: bool)             // m_history.isReady()

  function EncOf(env: Env, p: Peer): Enc {
    if p in env.enc then env.enc[p] else Fails
  }

  function SourceOf(env: Env, uid: nat): Source {
    if uid in env.source then env.source[uid] else Missing
  }

  datatype Outcome = Transmit | Requeue | Drop | Replace

  /** sendFile, called from a drain after key and gate were checked. */
  function FileOutcome(env: Env, x: Item): Outcome {
    if SourceOf(env, x.uid) == Missing then Drop
    else if !env.greeted then Replace
    else if SourceOf(env, x.uid) == Unusable then Drop
    else match EncOf(env, x.peer)
      case Ready => Transmit
      case NotReady => Replace
      case Fails => Drop
  }

  /** What a drain does with the i-th entry it took. */
  function OutcomeOf(env: Env, i: nat, x: Item): Outcome {
    if i >= env.up then Requeue
    else if x.peer !in env.keys then Requeue
    else if (x.kind == Text || x.kind == File) && x.peer in env.gated then Requeue
    else match x.kind
      case File => FileOutcome(env, x)
      case Handshake => if EncOf(env, x.peer) == Ready then Transmit else Requeue
      case VerifyAck => if x.attests == Some(env.keys[x.peer]) then Transmit else Drop
      case _ => match EncOf(env, x.peer)
        case Ready => Transmit
        case NotReady => Requeue
        case Fails => Drop
  }

  /** Ratchet frames: everything but a verifyack is encrypted. */
  predicate Encrypted(k: Kind) {
    k != VerifyAck
  }

  datatype State = State(
    outbox: seq<Item>,
    rows: set<nat>,          // persisted outbox rows
    nextRow: nat,
    nextUid: nat,
    sent: seq<Item>,         // handed to the socket, queued or live
    dropped: seq<Item>,
    replaced: seq<Item>,     // files queued again as new entries
    steps: nat,              // successful encryptFor calls
    handed: nat)             // ratchet frames handed to a connected socket

  function Start(): State {
    State([], {}, 0, 0, [], [], [], 0, 0)
  }

  function RowSet(x: Item): set<nat> {
    if x.row.Some? then {x.row.value} else {}
  }

  function NewRow(env: Env, s: State): Option<nat> {
    if env.persists then Some(s.nextRow) else None
  }

  /** Appends a new entry to the queue, persisted if possible. */
  function Enqueued(env: Env, s: State, kind: Kind, p: Peer, attests: Option<nat>): State {
    var x := Item(s.nextUid, kind, p, NewRow(env, s), attests);
    s.(outbox := s.outbox + [x], rows := s.rows + RowSet(x), nextRow := s.nextRow + 1, nextUid := s.nextUid + 1)
  }

  function Sent(s: State, x: Item, up: bool): State {
    var n := if Encrypted(x.kind) then 1 else 0;
    s.(sent := s.sent + [x], steps := s.steps + n, handed := s.handed + (if up then n else 0))
  }

  /** An entry sent live; only a verifyack attests an identity. */
  function NewItem(uid: nat, kind: Kind, p: Peer, attests: Option<nat>): Item {
    Item(uid, kind, p, None, if kind == VerifyAck then attests else None)
  }

  function SentNew(s: State, kind: Kind, p: Peer, attests: Option<nat>, up: bool): State {
    Sent(s.(nextUid := s.nextUid + 1), NewItem(s.nextUid, kind, p, attests), up)
  }

  /** transmitRekey refuses a ping behind the gate or to an absent peer; it does not look
      at the socket, its callers do. */
  predicate RekeyGoes(env: Env, kind: Kind, p: Peer) {
    (kind == Ping ==> p !in env.gated && p in env.present) && EncOf(env, p) == Ready
  }

  /** noteOutboundTo, after the entry numbered uid was sent: a full window starts a ping. */
  function Noted(env: Env, up: bool, uid: nat, p: Peer, s: State): State {
    if uid in env.full && up && p in env.sessions && RekeyGoes(env, Ping, p) then SentNew(s, Ping, p, None, up) else s
  }

  /** The kinds whose transmission in a drain is counted by noteOutboundTo. */
  predicate Counts(k: Kind) {
    k != Handshake && k != VerifyAck
  }

  /** What each outcome does; `up` says that the socket is connected. */
  function Applied(env: Env, o: Outcome, up: bool, x: Item, s: State): State {
    match o
    case Requeue => s.(outbox := s.outbox + [x])
    case Transmit =>
      var t := Sent(s, x, up).(rows := s.rows - RowSet(x));
      if Counts(x.kind) then Noted(env, up, x.uid, x.peer, t) else t
    case Drop => s.(dropped := s.dropped + [x], rows := s.rows - RowSet(x))
    case Replace =>
      var t := Enqueued(env, s, File, x.peer, None);
      t.(replaced := t.replaced + [x], rows := t.rows - RowSet(x))
  }

  /** One entry's turn in a drain. */
  function Turn(env: Env, i: nat, x: Item, s: State): State {
    Applied(env, OutcomeOf(env, i, x), i < env.up, x, s)
  }

  /** The drain of pending[i..], the queue having been emptied first. */
  function DrainFrom(env: Env, pending: seq<Item>, i: nat, s: State): State
    requires i <= |pending|
    decreases |pending| - i
  {
    if i == |pending| then s else DrainFrom(env, pending, i + 1, Turn(env, i, pending[i], s))
  }

  function Drained(env: Env, s: State): State {
    DrainFrom(env, s.outbox, 0, s.(outbox := []))
  }

  // ---- live sends ------------------------------------------------------------------------------

  datatype Verdict = Queue | Go | Refuse

  /** What a live send of each kind does now. */
  function Live(env: Env, kind: Kind, p: Peer, uid: nat): Verdict {
    var up := env.up > 0;
    match kind
    case Text =>
      if p !in env.keys then Refuse
      else if p in env.gated || !up then Queue
      else (match EncOf(env, p) case Ready => Go case NotReady => Queue case Fails => Refuse)
    case File =>
      if p in env.gated || !env.greeted || !up then (if SourceOf(env, uid) == Missing then Refuse else Queue)
      else if p !in env.keys || SourceOf(env, uid) != Sound then Refuse
      else (match EncOf(env, p) case Ready => Go case NotReady => Queue case Fails => Refuse)
    case Handshake => if up && p in env.keys && EncOf(env, p) == Ready then Go else Queue
    case VerifyAck => if up then Go else Queue
    case Edit =>
      if p !in env.keys || p in env.gated || !up || EncOf(env, p) != Ready then Refuse else Go
    case _ => if up && p in env.sessions && RekeyGoes(env, kind, p) then Go else Refuse
  }

  datatype Event = Compose(env: Env, kind: Kind, p: Peer, attests: Option<nat>) | Flush(env: Env)

  function Composed(env: Env, s: State, kind: Kind, p: Peer, attests: Option<nat>): State {
    match Live(env, kind, p, s.nextUid)
    case Refuse => s
    case Queue => Enqueued(env, s, kind, p, attests)
    case Go =>
      var t := SentNew(s, kind, p, attests, env.up > 0);
      if kind == Text || kind == File then Noted(env, env.up > 0, s.nextUid, p, t) else t
  }

  function Step(s: State, e: Event): State {
    match e
    case Compose(env, kind, p, attests) => Composed(env, s, kind, p, attests)
    case Flush(env) => Drained(env, s)
  }

  ghost predicate Run(ss: seq<State>, es: seq<Event>) {
    && |ss| == |es| + 1
    && ss[0] == Start()
    && forall k :: 0 <= k < |es| ==> ss[k + 1] == Step(ss[k], es[k])
  }

  // ---- conservation ------------------------------------------------------------------------------

  function If(b: bool): nat {
    if b then 1 else 0
  }

  /** How often the entry numbered u occurs. */
  function Count(xs: seq<Item>, u: nat): nat {
    if xs == [] then 0 else Count(xs[..|xs| - 1], u) + If(xs[|xs| - 1].uid == u)
  }

  /** How many entries have the persisted row r. */
  function RowCount(xs: seq<Item>, r: nat): nat {
    if xs == [] then 0 else RowCount(xs[..|xs| - 1], r) + If(xs[|xs| - 1].row == Some(r))
  }

  lemma CountAppend(xs: seq<Item>, x: Item, k: nat)
    ensures Count(xs + [x], k) == Count(xs, k) + If(x.uid == k)
    ensures RowCount(xs + [x], k) == RowCount(xs, k) + If(x.row == Some(k))
  {
    assert (xs + [x])[..|xs|] == xs;
  }

  lemma {:induction false} CountHead(x: Item, ys: seq<Item>, k: nat)
    ensures Count([x] + ys, k) == If(x.uid == k) + Count(ys, k)
    ensures RowCount([x] + ys, k) == If(x.row == Some(k)) + RowCount(ys, k)
    decreases |ys|
  {
    if ys == [] {
      assert [x] + ys == [] + [x];
      CountAppend([], x, k);
    } else {
      var n := |ys| - 1;
      assert [x] + ys == ([x] + ys[..n]) + [ys[n]];
      CountHead(x, ys[..n], k);
      CountAppend([x] + ys[..n], ys[n], k);
    }
  }

  /** The entry numbered u is in exactly one place, counting those a drain still holds. */
  predicate OncePlaced(s: State, held: seq<Item>, u: nat) {
    Count(s.outbox, u) + Count(held, u) + Count(s.sent, u) + Count(s.dropped, u) + Count(s.replaced, u) == If(u < s.nextUid)
  }

  /** Row r is persisted exactly when one unfinished entry has it. */
  predicate RowKept(s: State, held: seq<Item>, r: nat) {
    && RowCount(s.outbox, r) + RowCount(held, r) == If(r in s.rows)
    && (r in s.rows ==> r < s.nextRow)
  }

  /** Every entry is in exactly one place, the persisted rows are exactly those of the
      entries not finished yet, and every ratchet step went to a connected socket. */
  ghost predicate Holds(s: State, held: seq<Item>) {
    && (forall u: nat :: OncePlaced(s, held, u))
    && (forall r: nat :: RowKept(s, held, r))
    && s.steps == s.handed
  }

  lemma EnqueueAt(env: Env, s: State, held: seq<Item>, kind: Kind, p: Peer, attests: Option<nat>, k: nat)
    requires OncePlaced(s, held, k) && RowKept(s, held, k)
    ensures var t := Enqueued(env, s, kind, p, attests); OncePlaced(t, held, k) && RowKept(t, held, k)
  {
    hide Count, RowCount;
    CountAppend(s.outbox, Item(s.nextUid, kind, p, NewRow(env, s), attests), k);
  }

  lemma SentNewAt(s: State, held: seq<Item>, kind: Kind, p: Peer, attests: Option<nat>, up: bool, k: nat)
    requires OncePlaced(s, held, k) && RowKept(s, held, k)
    ensures var t := SentNew(s, kind, p, attests, up); OncePlaced(t, held, k) && RowKept(t, held, k)
  {
    hide Count, RowCount;
    CountAppend(s.sent, NewItem(s.nextUid, kind, p, attests), k);
  }

  lemma NotedAt(env: Env, up: bool, uid: nat, p: Peer, s: State, held: seq<Item>, k: nat)
    requires OncePlaced(s, held, k) && RowKept(s, held, k)
    ensures var t := Noted(env, up, uid, p, s); OncePlaced(t, held, k) && RowKept(t, held, k)
  {
    hide OncePlaced, RowKept, SentNew;
    SentNewAt(s, held, Ping, p, None, up, k);
  }

  lemma TransmittedAt(env: Env, up: bool, x: Item, rest: seq<Item>, s: State, k: nat)
    requires OncePlaced(s, [x] + rest, k) && RowKept(s, [x] + rest, k)
    ensures var t := Sent(s, x, up).(rows := s.rows - RowSet(x)); OncePlaced(t, rest, k) && RowKept(t, rest, k)
  {
    hide Count, RowCount;
    CountHead(x, rest, k);
    CountAppend(s.sent, x, k);
  }

  lemma AppliedAt(env: Env, o: Outcome, up: bool, x: Item, rest: seq<Item>, s: State, k: nat)
    requires OncePlaced(s, [x] + rest, k) && RowKept(s, [x] + rest, k)
    ensures var t := Applied(env, o, up, x, s); OncePlaced(t, rest, k) && RowKept(t, rest, k)
  {
    hide Count, RowCount;
    CountHead(x, rest, k);
    match o
    case Requeue => CountAppend(s.outbox, x, k);
    case Transmit =>
      TransmittedAt(env, up, x, rest, s, k);
      NotedAt(env, up, x.uid, x.peer, Sent(s, x, up).(rows := s.rows - RowSet(x)), rest, k);
    case Drop => CountAppend(s.dropped, x, k);
    case Replace => ReplacedAt(env, up, x, rest, s, k);
  }

  lemma ReplacedAt(env: Env, up: bool, x: Item, rest: seq<Item>, s: State, k: nat)
    requires OncePlaced(s, [x] + rest, k) && RowKept(s, [x] + rest, k)
    ensures var t := Applied(env, Replace, up, x, s); OncePlaced(t, rest, k) && RowKept(t, rest, k)
  {
    hide Count, RowCount;
    CountHead(x, rest, k);
    EnqueueAt(env, s, [x] + rest, File, x.peer, None, k);
    CountAppend(Enqueued(env, s, File, x.peer, None).replaced, x, k);
  }

  lemma OutcomeFacts(env: Env, i: nat, x: Item)
    ensures OutcomeOf(env, i, x) == Transmit ==> i < env.up && (x.kind == Text ==> !Stuck(env, i, x.peer))
    ensures OutcomeOf(env, i, x) == Requeue && x.kind == Text ==> Stuck(env, i, x.peer)
    ensures OutcomeOf(env, i, x) == Replace ==> x.kind == File
  {}

  lemma AppliedSteps(env: Env, o: Outcome, up: bool, x: Item, s: State)
    requires s.steps == s.handed && (o == Transmit ==> up)
    ensures Applied(env, o, up, x, s).steps == Applied(env, o, up, x, s).handed
  {}

  lemma TurnHolds(env: Env, i: nat, x: Item, rest: seq<Item>, s: State)
    requires Holds(s, [x] + rest)
    ensures Holds(Turn(env, i, x, s), rest)
  {
    OutcomeFacts(env, i, x);
    hide OncePlaced, RowKept, OutcomeOf, Applied;
    AppliedSteps(env, OutcomeOf(env, i, x), i < env.up, x, s);
    forall k: nat ensures OncePlaced(Turn(env, i, x, s), rest, k) && RowKept(Turn(env, i, x, s), rest, k) {
      AppliedAt(env, OutcomeOf(env, i, x), i < env.up, x, rest, s, k);
    }
  }

  lemma {:induction false} DrainHolds(env: Env, pending: seq<Item>, i: nat, s: State)
    requires i <= |pending| && Holds(s, pending[i..])
    ensures Holds(DrainFrom(env, pending, i, s), [])
    decreases |pending| - i
  {
    if i < |pending| {
      assert pending[i..] == [pending[i]] + pending[i + 1..];
      hide Holds, Turn;
      TurnHolds(env, i, pending[i], pending[i + 1..], s);
      DrainHolds(env, pending, i + 1, Turn(env, i, pending[i], s));
    } else {
      assert pending[i..] == [];
    }
  }

  /** No live path encrypts unless the socket is connected. */
  lemma LiveOnlyWhenUp(env: Env, kind: Kind, p: Peer, uid: nat)
    requires Live(env, kind, p, uid) == Go
    ensures env.up > 0 && (Encrypted(kind) ==> EncOf(env, p) == Ready)
  {}

  lemma ComposedAt(env: Env, s: State, kind: Kind, p: Peer, attests: Option<nat>, k: nat)
    requires OncePlaced(s, [], k) && RowKept(s, [], k)
    ensures var t := Composed(env, s, kind, p, attests); OncePlaced(t, [], k) && RowKept(t, [], k)
  {
    hide OncePlaced, RowKept, Live, SentNew, Noted, Enqueued;
    EnqueueAt(env, s, [], kind, p, attests, k);
    SentNewAt(s, [], kind, p, attests, env.up > 0, k);
    NotedAt(env, env.up > 0, s.nextUid, p, SentNew(s, kind, p, attests, env.up > 0), [], k);
  }

  lemma ComposeHolds(env: Env, s: State, kind: Kind, p: Peer, attests: Option<nat>)
    requires Holds(s, [])
    ensures Holds(Composed(env, s, kind, p, attests), [])
  {
    hide OncePlaced, RowKept, Live;
    forall k: nat
      ensures OncePlaced(Composed(env, s, kind, p, attests), [], k) && RowKept(Composed(env, s, kind, p, attests), [], k)
    {
      ComposedAt(env, s, kind, p, attests, k);
    }
    if Live(env, kind, p, s.nextUid) == Go { LiveOnlyWhenUp(env, kind, p, s.nextUid); }
  }

  lemma StepHolds(s: State, e: Event)
    requires Holds(s, [])
    ensures Holds(Step(s, e), [])
  {
    match e
    case Compose(env, kind, p, attests) => ComposeHolds(env, s, kind, p, attests);
    case Flush(env) =>
      TakenHolds(s);
      hide Holds;
      assert s.outbox[0..] == s.outbox;
      DrainHolds(env, s.outbox, 0, s.(outbox := []));
  }

  lemma TakenHolds(s: State)
    requires Holds(s, [])
    ensures Holds(s.(outbox := []), s.outbox)
  {
    forall k: nat ensures OncePlaced(s.(outbox := []), s.outbox, k) && RowKept(s.(outbox := []), s.outbox, k) {
      assert OncePlaced(s, [], k) && RowKept(s, [], k);
    }
  }

  /** Outbox conservation, over every run of composing and draining.  Each entry is in
      exactly one place: still queued, transmitted, dropped, or (a file) queued anew; so
      none is transmitted twice.  The persisted rows are exactly those of the entries
      still queued.  And every ratchet step went into a frame for a connected socket. */
  lemma {:induction false} EveryEntryInOnePlace(ss: seq<State>, es: seq<Event>, k: nat)
    requires Run(ss, es) && k <= |es|
    ensures Holds(ss[k], [])
    ensures forall u: nat :: u < ss[k].nextUid ==>
              Count(ss[k].outbox, u) + Count(ss[k].sent, u) + Count(ss[k].dropped, u) + Count(ss[k].replaced, u) == 1
    ensures forall r: nat :: RowCount(ss[k].outbox, r) == If(r in ss[k].rows)
    ensures ss[k].steps == ss[k].handed
  {
    if k > 0 {
      EveryEntryInOnePlace(ss, es, k - 1);
      StepHolds(ss[k - 1], es[k - 1]);
    }
    hide Step;
    forall u: nat
      ensures u < ss[k].nextUid ==>
                Count(ss[k].outbox, u) + Count(ss[k].sent, u) + Count(ss[k].dropped, u) + Count(ss[k].replaced, u) == 1
      ensures RowCount(ss[k].outbox, u) == If(u in ss[k].rows)
    {
      assert OncePlaced(ss[k], [], u) && RowKept(ss[k], [], u);
    }
  }

  // ---- order ---------------------------------------------------------------------------------------

  /** The texts to p, by uid. */
  function Texts(p: Peer, xs: seq<Item>): seq<nat> {
    if xs == [] then []
    else
      var before := Texts(p, xs[..|xs| - 1]);
      var x := xs[|xs| - 1];
      if x.kind == Text && x.peer == p then before + [x.uid] else before
  }

  function TextOf(p: Peer, x: Item): seq<nat> {
    if x.kind == Text && x.peer == p then [x.uid] else []
  }

  lemma TextsAppend(p: Peer, xs: seq<Item>, x: Item)
    ensures Texts(p, xs + [x]) == Texts(p, xs) + TextOf(p, x)
  {
    assert (xs + [x])[..|xs|] == xs;
  }

  lemma {:induction false} TextsHead(p: Peer, x: Item, ys: seq<Item>)
    ensures Texts(p, [x] + ys) == TextOf(p, x) + Texts(p, ys)
    decreases |ys|
  {
    hide TextOf;
    if ys == [] {
      assert [x] + ys == [] + [x];
      TextsAppend(p, [], x);
    } else {
      hide Texts;
      var n := |ys| - 1;
      assert [x] + ys == ([x] + ys[..n]) + [ys[n]];
      TextsHead(p, x, ys[..n]);
      TextsAppend(p, [x] + ys[..n], ys[n]);
      TextsAppend(p, ys[..n], ys[n]);
      assert ys == ys[..n] + [ys[n]];
    }
  }

  predicate Ascending(us: seq<nat>) {
    forall i, j :: 0 <= i < j < |us| ==> us[i] < us[j]
  }

  /** Texts to p went out, and are waiting, in the order they were composed. */
  predicate InOrder(s: State, p: Peer, held: seq<Item>) {
    Ascending(Texts(p, s.sent) + Texts(p, s.outbox) + Texts(p, held))
  }

  /** Once a text to p has been requeued in a drain, no later text to p is transmitted. */
  predicate Stuck(env: Env, i: nat, p: Peer) {
    i >= env.up || p !in env.keys || p in env.gated || EncOf(env, p) != Ready
  }

  lemma Regroup(a: seq<nat>, b: seq<nat>, c: seq<nat>, d: seq<nat>)
    requires |c| <= 1 && Ascending(a + b + (c + d))
    ensures Ascending(a + (b + c) + d)
    ensures b == [] ==> Ascending((a + c) + b + d)
    ensures Ascending(a + b + d)
  {
    assert a + b + (c + d) == a + (b + c) + d;
    assert b == [] ==> a + b + (c + d) == (a + c) + b + d;
    assert a + b + (c + d) == (a + b) + c + d;
    DropKeepsOrder(a + b, c, d);
  }

  lemma NotedTexts(env: Env, up: bool, uid: nat, p0: Peer, s: State, p: Peer)
    ensures var t := Noted(env, up, uid, p0, s); Texts(p, t.sent) == Texts(p, s.sent) && t.outbox == s.outbox
  {
    TextsAppend(p, s.sent, Item(s.nextUid, Ping, p0, None, None));
    hide Texts;
  }

  /** What each outcome does to the texts to p. */
  lemma AppliedTexts(env: Env, o: Outcome, up: bool, x: Item, s: State, p: Peer)
    requires o == Replace ==> x.kind == File
    ensures var t := Applied(env, o, up, x, s);
            && Texts(p, t.sent) == Texts(p, s.sent) + (if o == Transmit then TextOf(p, x) else [])
            && Texts(p, t.outbox) == Texts(p, s.outbox) + (if o == Requeue then TextOf(p, x) else [])
  {
    TextsAppend(p, s.outbox, x);
    TextsAppend(p, s.sent, x);
    TextsAppend(p, s.outbox, Item(s.nextUid, File, x.peer, NewRow(env, s), None));
    NotedTexts(env, up, x.uid, x.peer, Sent(s, x, up).(rows := s.rows - RowSet(x)), p);
    hide Texts, Noted;
  }

  lemma TurnInOrder(env: Env, i: nat, x: Item, rest: seq<Item>, s: State, p: Peer)
    requires InOrder(s, p, [x] + rest)
    requires Texts(p, s.outbox) != [] ==> Stuck(env, i, p)
    ensures var t := Turn(env, i, x, s);
            && InOrder(t, p, rest)
            && (Texts(p, t.outbox) != [] ==> Stuck(env, i + 1, p))
  {
    TextsHead(p, x, rest);
    OutcomeFacts(env, i, x);
    AppliedTexts(env, OutcomeOf(env, i, x), i < env.up, x, s, p);
    hide Texts, Ascending, OutcomeOf, Applied;
    MovedInOrder(OutcomeOf(env, i, x), Texts(p, s.sent), Texts(p, s.outbox), TextOf(p, x), Texts(p, rest));
  }

  /** Moving the texts `c` of the entry at hand where its outcome puts them. */
  lemma MovedInOrder(o: Outcome, a: seq<nat>, b: seq<nat>, c: seq<nat>, d: seq<nat>)
    requires |c| <= 1 && Ascending(a + b + (c + d))
    requires o == Transmit ==> b == [] || c == []
    ensures Ascending(a + (if o == Transmit then c else []) + (b + (if o == Requeue then c else [])) + d)
  {
    hide Ascending;
    Regroup(a, b, c, d);
    assert a + [] == a && b + [] == b;
    assert c == [] ==> a + c == a;
  }

  lemma DropKeepsOrder(a: seq<nat>, c: seq<nat>, d: seq<nat>)
    requires |c| <= 1
    ensures Ascending(a + c + d) ==> Ascending(a + d)
  {
    if Ascending(a + c + d) {
      var (whole, part) := (a + c + d, a + d);
      forall i, j | 0 <= i < j < |part| ensures part[i] < part[j] {
        var i' := if i < |a| then i else i + |c|;
        var j' := if j < |a| then j else j + |c|;
        assert part[i] == whole[i'] && part[j] == whole[j'];
      }
    }
  }

  lemma {:induction false} DrainInOrder(env: Env, pending: seq<Item>, i: nat, s: State, p: Peer)
    requires i <= |pending| && InOrder(s, p, pending[i..])
    requires Texts(p, s.outbox) != [] ==> Stuck(env, i, p)
    ensures InOrder(DrainFrom(env, pending, i, s), p, [])
    decreases |pending| - i
  {
    if i < |pending| {
      assert pending[i..] == [pending[i]] + pending[i + 1..];
      hide InOrder, Turn, Texts, Stuck;
      TurnInOrder(env, i, pending[i], pending[i + 1..], s, p);
      DrainInOrder(env, pending, i + 1, Turn(env, i, pending[i], s), p);
    } else {
      assert pending[i..] == [];
    }
  }

  /** A text sent live goes out while an earlier one to the same peer still waits. */
  predicate Overtakes(s: State, e: Event, p: Peer) {
    e.Compose? && e.kind == Text && e.p == p && Live(e.env, Text, p, s.nextUid) == Go && Texts(p, s.outbox) != []
  }

  predicate Below(us: seq<nat>, n: nat) {
    forall i :: 0 <= i < |us| ==> us[i] < n
  }

  lemma {:induction false} TextsCounted(p: Peer, xs: seq<Item>, u: nat)
    requires u in Texts(p, xs)
    ensures Count(xs, u) > 0
  {
    if xs != [] {
      var n := |xs| - 1;
      assert Texts(p, xs) == Texts(p, xs[..n]) + TextOf(p, xs[n]);
      if u in Texts(p, xs[..n]) {
        TextsCounted(p, xs[..n], u);
      }
    }
  }

  /** Entries composed so far are numbered below the next number. */
  lemma NumbersBelow(s: State, p: Peer)
    requires Holds(s, [])
    ensures Below(Texts(p, s.sent), s.nextUid) && Below(Texts(p, s.outbox), s.nextUid)
  {
    forall i | 0 <= i < |Texts(p, s.sent)| ensures Texts(p, s.sent)[i] < s.nextUid {
      TextsCounted(p, s.sent, Texts(p, s.sent)[i]);
      assert OncePlaced(s, [], Texts(p, s.sent)[i]);
    }
    forall i | 0 <= i < |Texts(p, s.outbox)| ensures Texts(p, s.outbox)[i] < s.nextUid {
      TextsCounted(p, s.outbox, Texts(p, s.outbox)[i]);
      assert OncePlaced(s, [], Texts(p, s.outbox)[i]);
    }
  }

  lemma AscendingLast(us: seq<nat>, u: nat)
    requires Ascending(us) && Below(us, u)
    ensures Ascending(us + [u])
  {}

  lemma NotAscending(us: seq<nat>, u: nat, vs: seq<nat>)
    requires vs != [] && Below(vs, u)
    ensures !Ascending(us + [u] + vs)
  {
    var w := us + [u] + vs;
    assert w[|us|] == u && w[|us| + 1] == vs[0];
  }

  /** What a live send does to the texts to p. */
  lemma ComposedTexts(env: Env, s: State, kind: Kind, p0: Peer, attests: Option<nat>, p: Peer)
    ensures var t, v := Composed(env, s, kind, p0, attests), Live(env, kind, p0, s.nextUid);
            var mine := if kind == Text && p0 == p then [s.nextUid] else [];
            && Texts(p, t.sent) == Texts(p, s.sent) + (if v == Go then mine else [])
            && Texts(p, t.outbox) == Texts(p, s.outbox) + (if v == Queue then mine else [])
  {
    TextsAppend(p, s.sent, NewItem(s.nextUid, kind, p0, attests));
    TextsAppend(p, s.outbox, Item(s.nextUid, kind, p0, NewRow(env, s), attests));
    NotedTexts(env, env.up > 0, s.nextUid, p0, SentNew(s, kind, p0, attests, env.up > 0), p);
    hide Texts, Live, Noted;
  }

  /** A new last number among the sent or the waiting keeps the order exactly when it does
      not pass a waiting one. */
  lemma OrderAfter(a: seq<nat>, b: seq<nat>, u: nat)
    requires Ascending(a + b) && Below(a + b, u)
    ensures Ascending(a + (b + [u]))
    ensures Ascending((a + [u]) + b) <==> b == []
  {
    assert (a + b) + [u] == a + (b + [u]);
    AscendingLast(a + b, u);
    if b == [] {
      assert (a + [u]) + b == (a + b) + [u];
    } else {
      assert forall i :: 0 <= i < |b| ==> b[i] == (a + b)[|a| + i];
      NotAscending(a, u, b);
    }
  }

  lemma ComposeInOrder(s: State, e: Event, p: Peer)
    requires Holds(s, []) && InOrder(s, p, []) && e.Compose?
    ensures InOrder(Step(s, e), p, []) <==> !Overtakes(s, e, p)
  {
    NumbersBelow(s, p);
    ComposedTexts(e.env, s, e.kind, e.p, e.attests, p);
    var (a, b, u, t) := (Texts(p, s.sent), Texts(p, s.outbox), s.nextUid, Step(s, e));
    assert Below(a + b, u);
    assert a + b + [] == a + b;
    assert Texts(p, t.sent) + Texts(p, t.outbox) + Texts(p, []) == Texts(p, t.sent) + Texts(p, t.outbox);
    hide Holds, Texts, Live, Ascending, Below, Composed;
    OrderAfter(a, b, u);
    assert a + [] == a && b + [] == b;
  }

  lemma FlushInOrder(s: State, env: Env, p: Peer)
    requires InOrder(s, p, [])
    ensures InOrder(Drained(env, s), p, [])
  {
    assert Texts(p, s.sent) + Texts(p, s.outbox) + [] == Texts(p, s.sent) + [] + Texts(p, s.outbox);
    assert s.outbox[0..] == s.outbox;
    DrainInOrder(env, s.outbox, 0, s.(outbox := []), p);
  }

  ghost predicate NoneOvertakes(ss: seq<State>, es: seq<Event>, p: Peer)
    requires |ss| == |es| + 1
  {
    forall k :: 0 <= k < |es| ==> !Overtakes(ss[k], es[k], p)
  }

  /** Texts to one peer keep their order over any number of drains, whatever was requeued
      and whenever the connection fell, as long as no text sent live overtakes the queue. */
  lemma {:induction false} TextsKeepTheirOrder(ss: seq<State>, es: seq<Event>, p: Peer, k: nat)
    requires Run(ss, es) && NoneOvertakes(ss, es, p) && k <= |es|
    ensures InOrder(ss[k], p, [])
  {
    if k > 0 {
      TextsKeepTheirOrder(ss, es, p, k - 1);
      EveryEntryInOnePlace(ss, es, k - 1);
      hide InOrder, Holds, Overtakes;
      if es[k - 1].Compose? {
        ComposeInOrder(ss[k - 1], es[k - 1], p);
      } else {
        FlushInOrder(ss[k - 1], es[k - 1].env, p);
      }
    }
  }

  /** The hypothesis is exactly what order needs, and the code can break it: a text is
      sent live past a queued one exactly when a text to the peer is still waiting at a
      moment the peer is open, keyed and ready. */
  lemma OrderLostExactlyByOvertaking(ss: seq<State>, es: seq<Event>, p: Peer, k: nat)
    requires Run(ss, es) && k < |es| && es[k].Compose? && InOrder(ss[k], p, [])
    ensures InOrder(ss[k + 1], p, []) <==>
              !(&& es[k].kind == Text && es[k].p == p && Texts(p, ss[k].outbox) != []
                && es[k].env.up > 0 && p in es[k].env.keys && p !in es[k].env.gated && EncOf(es[k].env, p) == Ready)
  {
    EveryEntryInOnePlace(ss, es, k);
    ComposeInOrder(ss[k], es[k], p);
    hide InOrder, Holds, Step;
  }

  /** Such a run: a text is queued while the socket is down, the socket comes back, and a
      second text is sent before anything has drained the queue. */
  lemma SecondTextOvertakes(down: Env, back: Env, p: Peer) returns (ss: seq<State>, es: seq<Event>)
    requires down.up == 0 && p in down.keys && back.up > 0 && p in back.keys && p !in back.gated
    requires EncOf(back, p) == Ready
    ensures Run(ss, es) && |ss| == |es| + 1
    ensures es == [Compose(down, Text, p, None), Compose(back, Text, p, None)]
    ensures InOrder(ss[1], p, []) && !InOrder(ss[2], p, [])
  {
    es := [Compose(down, Text, p, None), Compose(back, Text, p, None)];
    var s1 := Step(Start(), es[0]);
    ss := [Start(), s1, Step(s1, es[1])];
    assert Run(ss, es);
    assert s1.sent == [] && s1.outbox == [Item(0, Text, p, NewRow(down, Start()), None)];
    assert Texts(p, s1.outbox) == [0] && Texts(p, s1.sent) == [];
    assert Texts(p, s1.sent) + Texts(p, s1.outbox) + Texts(p, []) == [0];
    OrderLostExactlyByOvertaking(ss, es, p, 1);
  }

  // ---- the client object ---------------------------------------------------------------------------

  class Client {
    var outbox: seq<Item>
    var rows: set<nat>
    var nextRow: nat
    var nextUid: nat
    var sent: seq<Item>
    var dropped: seq<Item>
    var replaced: seq<Item>
    var steps: nat
    var handed: nat
    var flushInProgress: bool

    ghost function View(): State
      reads this
    {
      State(outbox, rows, nextRow, nextUid, sent, dropped, replaced, steps, handed)
    }

    constructor ()
      ensures View() == Start() && !flushInProgress
    {
      outbox, rows, nextRow, nextUid := [], {}, 0, 0;
      sent, dropped, replaced, steps, handed, flushInProgress := [], [], [], 0, 0, false;
    }

    /** queueOutbox and its siblings for the other kinds. */
    method Enqueue(env: Env, kind: Kind, p: Peer, attests: Option<nat>)
      modifies this`outbox, this`rows, this`nextRow, this`nextUid
      ensures View() == Enqueued(env, old(View()), kind, p, attests)
    {
      var dbId := None;
      if env.persists {
        dbId := Some(nextRow);
        rows := rows + {nextRow};
      }
      nextRow := nextRow + 1;
      outbox := outbox + [Item(nextUid, kind, p, dbId, attests)];
      nextUid := nextUid + 1;
    }

    method Requeue(x: Item)
      modifies this`outbox
      ensures View() == old(View()).(outbox := old(View()).outbox + [x])
    {
      outbox := outbox + [x];
    }

    method DeleteRow(x: Item)
      modifies this`rows
      ensures View() == old(View()).(rows := old(View()).rows - RowSet(x))
    {
      if x.row.Some? {
        rows := rows - {x.row.value};
      }
    }

    method Discard(x: Item)
      modifies this`dropped, this`rows
      ensures View() == old(View()).(dropped := old(View()).dropped + [x], rows := old(View()).rows - RowSet(x))
    {
      dropped := dropped + [x];
      DeleteRow(x);
    }

    method EncryptFor(env: Env, p: Peer) returns (r: Enc)
      modifies this`steps
      ensures r == EncOf(env, p) && steps == old(steps) + (if r == Ready then 1 else 0)
    {
      r := EncOf(env, p);
      if r == Ready {
        steps := steps + 1;
      }
    }

    method SendFrame(x: Item, up: bool)
      modifies this`sent, this`handed
      ensures sent == old(sent) + [x]
      ensures handed == old(handed) + (if up && Encrypted(x.kind) then 1 else 0)
    {
      sent := sent + [x];
      if up && Encrypted(x.kind) {
        handed := handed + 1;
      }
    }

    /** Encrypts an entry and sends the frame if that worked. */
    method EncryptAndSend(env: Env, x: Item, up: bool) returns (r: Enc)
      requires Encrypted(x.kind)
      modifies this`sent, this`handed, this`steps
      ensures r == EncOf(env, x.peer)
      ensures View() == if r == Ready then Sent(old(View()), x, up) else old(View())
    {
      r := EncryptFor(env, x.peer);
      if r == Ready {
        SendFrame(x, up);
      }
    }

    /** The same for a frame that was never queued. */
    method EncryptAndSendNew(env: Env, kind: Kind, p: Peer, up: bool) returns (r: Enc)
      requires Encrypted(kind)
      modifies this`sent, this`handed, this`steps, this`nextUid
      ensures r == EncOf(env, p)
      ensures View() == if r == Ready then SentNew(old(View()), kind, p, None, up) else old(View())
    {
      r := EncryptFor(env, p);
      if r == Ready {
        nextUid := nextUid + 1;
        SendFrame(Item(nextUid - 1, kind, p, None, None), up);
      }
    }

    /** transmitRekey */
    method TransmitRekey(env: Env, kind: Kind, p: Peer, up: bool)
      requires kind == Ping || kind == Pong
      modifies this`sent, this`handed, this`nextUid, this`steps
      ensures View() == if RekeyGoes(env, kind, p) then SentNew(old(View()), kind, p, None, up) else old(View())
    {
      if kind == Ping && p in env.gated { return; }
      if kind == Ping && p !in env.present { return; }
      var _ := EncryptAndSendNew(env, kind, p, up);
    }

    method NoteOutboundTo(env: Env, uid: nat, p: Peer, up: bool)
      modifies this`sent, this`handed, this`nextUid, this`steps
      ensures View() == Noted(env, up, uid, p, old(View()))
    {
      if uid in env.full && up && p in env.sessions {
        TransmitRekey(env, Ping, p, up);
      }
    }

    /** sendFile as a drain calls it. */
    method SendQueuedFile(env: Env, x: Item, up: bool) returns (o: Outcome)
      requires SourceOf(env, x.uid) != Missing && x.kind == File
      modifies this`outbox, this`rows, this`nextRow, this`nextUid, this`sent, this`steps, this`handed
      ensures o == FileOutcome(env, x)
      ensures View() == match o
                        case Transmit => Noted(env, up, x.uid, x.peer, Sent(old(View()), x, up))
                        case Replace => Enqueued(env, old(View()), File, x.peer, None)
                        case _ => old(View())
    {
      hide View, Noted, Enqueued, Sent;
      if !env.greeted {
        Enqueue(env, File, x.peer, None);
        return Replace;
      }
      if SourceOf(env, x.uid) == Unusable { return Drop; }
      var r := EncryptAndSend(env, x, up);
      if r == NotReady {
        Enqueue(env, File, x.peer, None);
        return Replace;
      }
      if r == Fails { return Drop; }
      NoteOutboundTo(env, x.uid, x.peer, up);
      o := Transmit;
    }

    /** One pass of the drain loop over the i-th entry. */
    method FlushOne(env: Env, i: nat, x: Item)
      modifies this`outbox, this`rows, this`nextRow, this`nextUid, this`sent, this`dropped, this`replaced,
               this`steps, this`handed
      ensures View() == Turn(env, i, x, old(View()))
    {
      hide View, Noted, RowSet, FileOutcome;
      if i >= env.up {
        Requeue(x);
        return;
      }
      if x.peer !in env.keys {
        Requeue(x);
        return;
      }
      if (x.kind == Text || x.kind == File) && x.peer in env.gated {
        Requeue(x);
        return;
      }
      if x.kind == File {
        FlushFile(env, i, x);
        return;
      }
      if x.kind == Handshake {
        var r := EncryptAndSend(env, x, true);
        if r != Ready {
          Requeue(x);
          return;
        }
        DeleteRow(x);
        return;
      }
      if x.kind == VerifyAck {
        FlushVerifyAck(env, i, x);
        return;
      }
      var r := EncryptAndSend(env, x, true);
      if r == NotReady {
        Requeue(x);
        return;
      }
      if r == Fails {
        Discard(x);
        return;
      }
      NoteOutboundTo(env, x.uid, x.peer, true);
      NotedKeepsRows(env, x.uid, x.peer, Sent(old(View()), x, true), RowSet(x));
      DeleteRow(x);
    }

    method FlushVerifyAck(env: Env, i: nat, x: Item)
      requires x.kind == VerifyAck && i < env.up && x.peer in env.keys
      modifies this`rows, this`sent, this`dropped, this`handed
      ensures View() == Turn(env, i, x, old(View()))
    {
      if x.attests.None? || x.attests != Some(env.keys[x.peer]) {
        Discard(x);
        return;
      }
      SendFrame(x, true);
      DeleteRow(x);
    }

    method FlushFile(env: Env, i: nat, x: Item)
      requires x.kind == File && i < env.up && x.peer in env.keys && x.peer !in env.gated
      modifies this`outbox, this`rows, this`nextRow, this`nextUid, this`sent, this`dropped, this`replaced,
               this`steps, this`handed
      ensures View() == Turn(env, i, x, old(View()))
    {
      hide Noted, RowSet, Enqueued, NewRow;
      if SourceOf(env, x.uid) == Missing {
        Discard(x);
        return;
      }
      NotedKeepsRows(env, x.uid, x.peer, Sent(View(), x, true), RowSet(x));
      var o := SendQueuedFile(env, x, true);
      if o == Drop {
        Discard(x);
        return;
      }
      if o == Replace {
        replaced := replaced + [x];
      }
      DeleteRow(x);
    }

    /** flushOutbox.  `reenter` says after which entries the handling that a send pumps
        calls it again. */
    method FlushOutbox(env: Env, reenter: set<nat>)
      modifies this
      ensures View() == if old(flushInProgress) then old(View()) else Drained(env, old(View()))
      ensures flushInProgress == old(flushInProgress)
      decreases if flushInProgress then 0 else 1
    {
      if flushInProgress { return; }
      if outbox == [] { return; }
      flushInProgress := true;
      var pending := outbox;
      outbox := [];
      ghost var taken := View();
      for i := 0 to |pending|
        invariant flushInProgress
        invariant DrainFrom(env, pending, i, View()) == DrainFrom(env, pending, 0, taken)
      {
        FlushOne(env, i, pending[i]);
        if i in reenter {
          FlushOutbox(env, {});
        }
      }
      flushInProgress := false;
    }

    // The live send paths, one method per kind.

    /** sendMessage */
    method SendMessage(env: Env, p: Peer)
      modifies this`outbox, this`rows, this`nextRow, this`nextUid, this`sent, this`dropped, this`replaced,
               this`steps, this`handed
      ensures View() == Composed(env, old(View()), Text, p, None)
    {
      hide View, Noted, Enqueued, SentNew;
      if p !in env.keys { return; }
      if p in env.gated || env.up == 0 {
        Enqueue(env, Text, p, None);
        return;
      }
      var uid := nextUid;
      NumberOf();
      var r := EncryptAndSendNew(env, Text, p, true);
      if r == Ready {
        NoteOutboundTo(env, uid, p, true);
      } else if r == NotReady {
        Enqueue(env, Text, p, None);
      }
    }

    /** sendFile, called by the user. */
    method SendFile(env: Env, p: Peer)
      modifies this`outbox, this`rows, this`nextRow, this`nextUid, this`sent, this`dropped, this`replaced,
               this`steps, this`handed
      ensures View() == Composed(env, old(View()), File, p, None)
    {
      hide View, Noted, Enqueued, SentNew;
      var uid := nextUid;
      NumberOf();
      if p in env.gated || !env.greeted || env.up == 0 {
        if SourceOf(env, uid) != Missing {
          Enqueue(env, File, p, None);
        }
        return;
      }
      if p !in env.keys || SourceOf(env, uid) != Sound { return; }
      var r := EncryptAndSendNew(env, File, p, true);
      if r == Ready {
        NoteOutboundTo(env, uid, p, true);
      } else if r == NotReady {
        Enqueue(env, File, p, None);
      }
    }

    method SendOrQueueHandshake(env: Env, p: Peer)
      modifies this`outbox, this`rows, this`nextRow, this`nextUid, this`sent, this`dropped, this`replaced,
               this`steps, this`handed
      ensures View() == Composed(env, old(View()), Handshake, p, None)
    {
      hide View, Enqueued, SentNew;
      if env.up == 0 || p !in env.keys {
        Enqueue(env, Handshake, p, None);
        return;
      }
      var r := EncryptAndSendNew(env, Handshake, p, true);
      if r != Ready {
        Enqueue(env, Handshake, p, None);
      }
    }

    method SendOrQueueVerifyAck(env: Env, p: Peer, attests: Option<nat>)
      modifies this`outbox, this`rows, this`nextRow, this`nextUid, this`sent, this`dropped, this`replaced,
               this`steps, this`handed
      ensures View() == Composed(env, old(View()), VerifyAck, p, attests)
    {
      if env.up == 0 {
        Enqueue(env, VerifyAck, p, attests);
        return;
      }
      nextUid := nextUid + 1;
      SendFrame(Item(nextUid - 1, VerifyAck, p, None, attests), true);
    }

    /** The edit path. */
    method SendEdit(env: Env, p: Peer)
      modifies this`outbox, this`rows, this`nextRow, this`nextUid, this`sent, this`dropped, this`replaced,
               this`steps, this`handed
      ensures View() == Composed(env, old(View()), Edit, p, None)
    {
      hide View, SentNew;
      if p !in env.keys || p in env.gated || env.up == 0 { return; }
      var _ := EncryptAndSendNew(env, Edit, p, true);
    }

    /** Every caller of transmitRekey looks for a connected socket and a session first. */
    method SendRekey(env: Env, kind: Kind, p: Peer)
      requires kind == Ping || kind == Pong
      modifies this`outbox, this`rows, this`nextRow, this`nextUid, this`sent, this`dropped, this`replaced,
               this`steps, this`handed
      ensures View() == Composed(env, old(View()), kind, p, None)
    {
      hide View, SentNew, RekeyGoes;
      if env.up > 0 && p in env.sessions {
        TransmitRekey(env, kind, p, true);
      }
    }

    lemma NumberOf()
      ensures View().nextUid == nextUid
    {}
  }

  lemma NotedKeepsRows(env: Env, uid: nat, p: Peer, s: State, gone: set<nat>)
    ensures var t := Noted(env, true, uid, p, s);
            Noted(env, true, uid, p, s.(rows := s.rows - gone)) == t.(rows := t.rows - gone)
  {}
}
