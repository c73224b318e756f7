/**
 The log stream told by what happened: which lines are numbered, and what every snapshot and
 every turn of the broadcaster hands to a client.
 */
module LogHistory {
  import opened LogRing

  /** The lines captured by the first k actions: all but those the broadcaster logs itself. */
  function PastAt(acts: seq<Action>, k: nat): seq<Line>
    requires k <= |acts|
  {
    if k == 0 then []
    else PastAt(acts, k - 1) + if acts[k - 1].Emit? && !acts[k - 1].flushing then [acts[k - 1].line] else []
  }

  predicate OnlineAt(acts: seq<Action>, k: nat, ws: Socket)
    requires k <= |acts|
  {
    k > 0 && (acts[k - 1] == Connect(ws) || (acts[k - 1] != Disconnect(ws) && OnlineAt(acts, k - 1, ws)))
  }

  /** The lines numbered lo + 1 to hi. */
  function Lines(past: seq<Line>, lo: nat, hi: nat): seq<Entry>
    requires lo <= hi <= |past|
  {
    seq(hi - lo, i requires 0 <= i < hi - lo => Entry(lo + i + 1, past[lo + i]))
  }

  /** How many lines the ring has evicted. */
  function Evicted(past: seq<Line>): (n: nat)
    ensures n <= |past|
  {
    if |past| <= LOG_RING_MAX then 0 else |past| - LOG_RING_MAX
  }

  /** Where a batch for a cursor at `c` begins, and where it ends. */
  function From(past: seq<Line>, c: nat): nat {
    if c <= Evicted(past) then Evicted(past) else c
  }

  function UpTo200(past: seq<Line>, c: nat): nat {
    if From(past, c) + LOG_BATCH_MAX <= |past| then From(past, c) + LOG_BATCH_MAX else |past|
  }

  /** The turn gives the client lines: its cursor is below the head of the pass and the send
      works. */
  predicate Feeds(s: State, a: Action, ws: Socket) {
    a.Visit? && a.ws == ws && a.ok && CursorOf(s, ws, a.head) < a.head
  }

  /** What action k hands to socket ws. */
  function Handed(s: State, past: seq<Line>, a: Action, ws: Socket): seq<Entry> {
    if a == Snapshot(ws, true) then Lines(past, Evicted(past), |past|)
    else if Feeds(s, a, ws) && CursorOf(s, ws, a.head) < |past| then
      Lines(past, From(past, CursorOf(s, ws, a.head)), UpTo200(past, CursorOf(s, ws, a.head)))
    else []
  }

  /** Where the cursor of ws stands after action k; -1 stands for none. */
  function CursorNext(s: State, past: seq<Line>, a: Action, ws: Socket): int {
    var c := if ws in s.cursors then s.cursors[ws] else -1;
    match a
    case Snapshot(v, _) => if v == ws then |past| else c
    case Visit(v, head, ok) =>
      if v != ws then c
      else if CursorOf(s, ws, head) >= head then CursorOf(s, ws, head)
      else if ok then UpTo200(past, CursorOf(s, ws, head)) else c
    case Prune => if ws in s.online then c else -1
    case Disconnect(v) => if v == ws then -1 else c
    case _ => c
  }

  lemma StepPast(s: State, a: Action, ws: Socket)
    ensures Step(s, a).past == s.past + if a.Emit? && !a.flushing then [a.line] else []
    ensures ws in Step(s, a).online <==> a == Connect(ws) || (a != Disconnect(ws) && ws in s.online)
  {
    hide Append, Since;
    assert s.past + [] == s.past;
  }

  lemma {:induction false} PastIs(ss: seq<State>, acts: seq<Action>, k: nat, ws: Socket)
    requires Run(ss, acts) && k <= |acts|
    ensures |ss| == |acts| + 1
    ensures ss[k].past == PastAt(acts, k)
    ensures ws in ss[k].online <==> OnlineAt(acts, k, ws)
  {
    hide Step, RingOk, ClientOk, Enabled, Got;
    if k > 0 {
      PastIs(ss, acts, k - 1, ws);
      StepPast(ss[k - 1], acts[k - 1], ws);
    }
  }

  lemma RingIsLines(s: State)
    requires RingOk(s)
    ensures s.ring == Lines(s.past, Evicted(s.past), |s.past|)
  {}

  lemma BatchIsLines(s: State, c: nat)
    requires RingOk(s) && c < s.no
    ensures From(s.past, c) < UpTo200(s.past, c) <= |s.past|
    ensures var b := Since(s.ring, c, LOG_BATCH_MAX);
            && b == Lines(s.past, From(s.past, c), UpTo200(s.past, c))
            && b != [] && b[|b| - 1].no == UpTo200(s.past, c)
  {
    var low := Evicted(s.past);
    var from := if c <= low then 0 else c - low;
    RingIsLines(s);
    BatchIsBlock(s.ring, low, c, from);
    hide Since, Newer;
  }

  /** What a step hands over and where it leaves the cursor. */
  predicate HandsOver(s: State, a: Action, ws: Socket) {
    var t := Step(s, a);
    && Got(t, ws) == Got(s, ws) + Handed(s, s.past, a, ws)
    && (if ws in t.cursors then t.cursors[ws] else -1) == CursorNext(s, s.past, a, ws)
  }

  lemma VisitHands(s: State, a: Action, ws: Socket)
    requires RingOk(s) && Enabled(s, a) && a.Visit?
    ensures HandsOver(s, a, ws)
  {
    assert Got(s, ws) + [] == Got(s, ws);
    SizeOfPast(s);
    var c := CursorOf(s, a.ws, a.head);
    if c < a.head { BatchIsLines(s, c); }
    hide Since, Lines, RingOk, From, UpTo200;
  }

  lemma SnapshotHands(s: State, a: Action, ws: Socket)
    requires RingOk(s) && a.Snapshot?
    ensures HandsOver(s, a, ws)
  {
    assert Got(s, ws) + [] == Got(s, ws);
    SizeOfPast(s);
    RingIsLines(s);
    hide Lines, RingOk;
  }

  lemma OtherHands(s: State, a: Action, ws: Socket)
    requires !a.Visit? && !a.Snapshot?
    ensures HandsOver(s, a, ws)
  {
    assert Got(s, ws) + [] == Got(s, ws);
    hide Append, Lines;
  }

  /** Over every run: the lines numbered are exactly those not logged by the broadcaster, in
      order, and the ring holds the last 400 of them; a snapshot hands over the whole ring, a
      successful turn the next 200 lines above the client's cursor that are not evicted, and
      nothing else ever reaches a client; and the cursor stands after the last line handed over,
      or at the head. */
  lemma LinesExactly(ss: seq<State>, acts: seq<Action>, k: nat, ws: Socket)
    requires Run(ss, acts) && k < |acts|
    ensures |ss| == |acts| + 1
    ensures var (s, t, past) := (ss[k], ss[k + 1], PastAt(acts, k));
            && s.past == past && s.no == |past| && s.ring == Lines(past, Evicted(past), |past|)
            && (ws in s.online <==> OnlineAt(acts, k, ws))
            && Got(t, ws) == Got(s, ws) + Handed(s, past, acts[k], ws)
            && (if ws in t.cursors then t.cursors[ws] else -1) == CursorNext(s, past, acts[k], ws)
  {
    hide Run, ClientOk, RingOk, Step, Enabled, PastAt, Lines, OnlineAt, Handed, CursorNext, Got, Evicted;
    PastIs(ss, acts, k, ws);
    RunAt(ss, acts, k, ws);
    var (s, a) := (ss[k], acts[k]);
    RingIsLines(s);
    SizeOfPast(s);
    match a
    case Visit(_, _, _) => VisitHands(s, a, ws);
    case Snapshot(_, _) => SnapshotHands(s, a, ws);
    case _ => OtherHands(s, a, ws);
  }

  lemma SizeOfPast(s: State)
    requires RingOk(s)
    ensures |s.past| == s.no
    ensures s.ring == [] ==> s.no == 0
  {}

  /** Two turns with working sends, no line coming between, bring a client with a cursor up to
      the head: the ring is two batches long. */
  lemma TwoTurnsCatchUp(ss: seq<State>, acts: seq<Action>, k: nat, ws: Socket)
    requires Run(ss, acts) && k + 1 < |acts| && ws in ss[k].cursors && ss[k].cursors[ws] <= ss[k].no
    requires acts[k] == acts[k + 1] == Visit(ws, ss[k].no, true)
    ensures ws in ss[k + 2].cursors && ss[k + 2].cursors[ws] == |PastAt(acts, k)|
  {
    LinesExactly(ss, acts, k, ws);
    LinesExactly(ss, acts, k + 1, ws);
    hide Run, Lines, Handed;
    assert PastAt(acts, k + 1) == PastAt(acts, k);
  }
}
