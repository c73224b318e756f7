/**
 server/server.py: the ring of log lines and its delivery to the clients, by one snapshot
 at login and batches from then on.

 The broadcaster's work for one client is one step; `head` in that step is the ring's head
 when its pass began, which may be older than the ring's head now.
 */
module LogRing {
  const LOG_RING_MAX: nat := 400
  const LOG_BATCH_MAX: nat := 200

  type Line = string
  type Socket = nat

  datatype Entry = Entry(no: nat, line: Line)

  datatype State = State(
    ring: seq<Entry>,
    no: nat,                           // _seq
    past: seq<Line>,                   // every line ever captured
    online: set<Socket>,
    known: set<Socket>,                // every socket that was ever online
    cursors: map<Socket, nat>,         // _log_cursor
    since: map<Socket, nat>,           // head when the socket got its snapshot
    got: map<Socket, seq<Entry>>)      // what reached the socket

  function Start(): State {
    State([], 0, [], {}, {}, map[], map[], map[])
  }

  /** ring.append on a deque with maxlen */
  function Append(ring: seq<Entry>, e: Entry): seq<Entry> {
    if |ring| < LOG_RING_MAX then ring + [e] else ring[1..] + [e]
  }

  function Newer(ring: seq<Entry>, cursor: nat): seq<Entry> {
    if ring == [] then []
    else if ring[0].no > cursor then [ring[0]] + Newer(ring[1..], cursor)
    else Newer(ring[1..], cursor)
  }

  /** since(cursor, limit) */
  function Since(ring: seq<Entry>, cursor: nat, limit: nat): seq<Entry> {
    var all := Newer(ring, cursor);
    if |all| <= limit then all else all[..limit]
  }

  function Got(s: State, ws: Socket): seq<Entry> {
    if ws in s.got then s.got[ws] else []
  }

  datatype Action =
    | Emit(line: Line, flushing: bool)                  // flushing: logged by the broadcaster itself
    | Connect(ws: Socket)
    | Snapshot(ws: Socket, ok: bool)                    // ok: the send did not fail
    | Prune
    | Visit(ws: Socket, head: nat, ok: bool)
    | Disconnect(ws: Socket)

  predicate Enabled(s: State, a: Action) {
    match a
    case Connect(ws) => ws !in s.known
    case Snapshot(ws, ok) => ws in s.online && ws !in s.since
    case Visit(ws, head, ok) => ws in s.known && head <= s.no && (ok ==> ws in s.online)
    case _ => true
  }

  function CursorOf(s: State, ws: Socket, head: nat): nat {
    if ws in s.cursors then s.cursors[ws] else head
  }

  /** One client's turn in a broadcaster pass. */
  function VisitStep(s: State, ws: Socket, head: nat, ok: bool): State {
    var cursor := CursorOf(s, ws, head);
    if cursor >= head then s.(cursors := s.cursors[ws := cursor])
    else
      var batch := Since(s.ring, cursor, LOG_BATCH_MAX);
      if batch == [] then s.(cursors := s.cursors[ws := head])
      else if !ok then s
      else s.(got := s.got[ws := Got(s, ws) + batch], cursors := s.cursors[ws := batch[|batch| - 1].no])
  }

  function Step(s: State, a: Action): State {
    match a
    case Emit(line, flushing) =>
      if flushing then s
      else s.(no := s.no + 1, past := s.past + [line], ring := Append(s.ring, Entry(s.no + 1, line)))
    case Connect(ws) => s.(online := s.online + {ws}, known := s.known + {ws})
    case Snapshot(ws, ok) =>
      var s1 := s.(cursors := s.cursors[ws := s.no], since := s.since[ws := s.no]);
      if s.ring == [] || !ok then s1 else s1.(got := s1.got[ws := Got(s1, ws) + s.ring])
    case Prune => s.(cursors := map ws | ws in s.cursors && ws in s.online :: s.cursors[ws])
    case Visit(ws, head, ok) => VisitStep(s, ws, head, ok)
    case Disconnect(ws) => s.(online := s.online - {ws}, cursors := s.cursors - {ws})
  }

  ghost predicate Run(ss: seq<State>, acts: seq<Action>) {
    && |ss| == |acts| + 1
    && ss[0] == Start()
    && forall k :: 0 <= k < |acts| ==> Enabled(ss[k], acts[k]) && ss[k + 1] == Step(ss[k], acts[k])
  }

  // ---- the ring -----------------------------------------------------------------------------------

  /** The ring is the contiguous block of the newest lines, ending at the head. */
  predicate RingOk(s: State) {
    && |s.past| == s.no
    && |s.ring| == (if s.no <= LOG_RING_MAX then s.no else LOG_RING_MAX)
    && forall i :: 0 <= i < |s.ring| ==> s.ring[i] == Entry(s.no - |s.ring| + 1 + i, s.past[s.no - |s.ring| + i])
  }

  predicate Contiguous(es: seq<Entry>, after: nat) {
    forall i :: 0 <= i < |es| ==> es[i].no == after + 1 + i
  }

  lemma {:induction false} NewerIsTail(ring: seq<Entry>, after: nat, cursor: nat)
    requires Contiguous(ring, after)
    ensures Newer(ring, cursor) == (if cursor <= after then ring
                                    else if cursor - after <= |ring| then ring[cursor - after..] else [])
  {
    if ring != [] {
      assert Contiguous(ring[1..], after + 1);
      NewerIsTail(ring[1..], after + 1, cursor);
      assert ring == [ring[0]] + ring[1..];
    }
  }

  lemma BatchIsBlock(ring: seq<Entry>, low: nat, cursor: nat, from: nat)
    requires Contiguous(ring, low) && cursor < low + |ring| && from == if cursor <= low then 0 else cursor - low
    ensures var n := if |ring| - from <= LOG_BATCH_MAX then |ring| - from else LOG_BATCH_MAX;
            Since(ring, cursor, LOG_BATCH_MAX) == ring[from..from + n]
  {
    NewerIsTail(ring, low, cursor);
    hide Newer;
  }

  /** What a batch holds: the lines right above the cursor that are still resident. */
  lemma BatchFacts(s: State, cursor: nat)
    requires RingOk(s) && cursor < s.no
    ensures var b := Since(s.ring, cursor, LOG_BATCH_MAX);
            var low := s.no - |s.ring|;
            && 0 < |b| <= LOG_BATCH_MAX
            && Contiguous(b, if cursor <= low then low else cursor)
            && b[|b| - 1].no <= s.no
            && forall i :: 0 <= i < |b| ==> 0 < b[i].no <= s.no && b[i].line == s.past[b[i].no - 1]
  {
    var low := s.no - |s.ring|;
    var from := if cursor <= low then 0 else cursor - low;
    BatchIsBlock(s.ring, low, cursor, from);
    hide Since;
    var b := Since(s.ring, cursor, LOG_BATCH_MAX);
    assert forall i :: 0 <= i < |b| ==> b[i] == s.ring[from + i];
  }

  // ---- what a client sees -------------------------------------------------------------------------

  predicate Increasing(es: seq<Entry>) {
    forall i, j :: 0 <= i < j < |es| ==> es[i].no < es[j].no
  }

  /** Every entry carries the line that has its number. */
  predicate Genuine(es: seq<Entry>, past: seq<Line>) {
    forall i :: 0 <= i < |es| ==> 0 < es[i].no <= |past| && es[i].line == past[es[i].no - 1]
  }

  predicate UpTo(es: seq<Entry>, n: nat) {
    forall i :: 0 <= i < |es| ==> es[i].no <= n
  }

  predicate Has(es: seq<Entry>, q: nat) {
    exists i :: 0 <= i < |es| && es[i].no == q
  }

  /** Lines after the snapshot and up to the cursor have reached the client or are evicted. */
  ghost predicate OnlyEvictedMissing(s: State, ws: Socket)
    requires ws in s.since && ws in s.cursors
  {
    forall q :: s.since[ws] < q <= s.cursors[ws] && !Has(Got(s, ws), q) ==> q + LOG_RING_MAX <= s.no
  }

  ghost predicate ClientOk(s: State, ws: Socket) {
    && Genuine(Got(s, ws), s.past)
    && (ws in s.online || ws in s.since || ws in s.cursors || Got(s, ws) != [] ==> ws in s.known)
    && (ws in s.online ==>
          if ws in s.cursors then s.cursors[ws] <= s.no && UpTo(Got(s, ws), s.cursors[ws]) else Got(s, ws) == [])
    && (ws in s.since && ws in s.online ==> ws in s.cursors && OnlyEvictedMissing(s, ws))
  }

  ghost predicate Inv(s: State) {
    RingOk(s) && forall ws :: ClientOk(s, ws)
  }

  /** The snapshot repeats a line that reached the socket before and is still resident. */
  predicate Repeats(s: State, a: Action, ws: Socket) {
    && a == Snapshot(ws, true)
    && Got(s, ws) != [] && s.ring != []
    && Got(s, ws)[|Got(s, ws)| - 1].no + |s.ring| > s.no
  }

  lemma RingStep(s: State, a: Action)
    requires RingOk(s) && Enabled(s, a)
    ensures RingOk(Step(s, a))
  {
    if a.Emit? && !a.flushing {
      RingGrows(s, a.line);
    } else {
      var t := Step(s, a);
      assert t.ring == s.ring && t.past == s.past && t.no == s.no;
      hide Step;
    }
  }

  lemma RingGrows(s: State, line: Line)
    requires RingOk(s)
    ensures RingOk(Step(s, Emit(line, false)))
  {
    var t := Step(s, Emit(line, false));
    var gone := if |s.ring| < LOG_RING_MAX then 0 else 1;
    assert t.ring == s.ring[gone..] + [Entry(s.no + 1, line)];
  }

  lemma EmitClient(s: State, a: Action, ws: Socket)
    requires RingOk(s) && ClientOk(s, ws) && a.Emit?
    ensures ClientOk(Step(s, a), ws)
  {
    hide RingOk, Has;
    assert |s.past| <= |Step(s, a).past|;
  }

  lemma RingFacts(s: State)
    requires RingOk(s)
    ensures Increasing(s.ring) && Genuine(s.ring, s.past) && UpTo(s.ring, s.no) && |s.past| == s.no
  {}

  lemma GenuineAppend(a: seq<Entry>, b: seq<Entry>, past: seq<Line>)
    requires Genuine(a, past) && Genuine(b, past)
    ensures Genuine(a + b, past)
  {}

  lemma GenuineUpTo(es: seq<Entry>, past: seq<Line>)
    requires Genuine(es, past)
    ensures UpTo(es, |past|)
  {}

  /** What a snapshot does to its socket. */
  lemma SnapshotEffect(s: State, ws: Socket, ok: bool)
    requires Enabled(s, Snapshot(ws, ok))
    ensures var t := Step(s, Snapshot(ws, ok));
            && t.past == s.past && t.no == s.no && t.ring == s.ring && t.online == s.online && t.known == s.known
            && ws in s.online && ws in t.since && ws in t.cursors && t.since[ws] == t.cursors[ws] == s.no
            && Got(t, ws) == Got(s, ws) + if ok then s.ring else []
  {
    assert Got(s, ws) + [] == Got(s, ws);
  }

  lemma SnapshotOwn(s: State, ws: Socket, ok: bool)
    requires RingOk(s) && ClientOk(s, ws) && Enabled(s, Snapshot(ws, ok))
    ensures ClientOk(Step(s, Snapshot(ws, ok)), ws)
  {
    hide Step, RingOk, Has, Increasing, Enabled, Got, Genuine, UpTo;
    SnapshotEffect(s, ws, ok);
    RingFacts(s);
    NothingGenuine(s.past);
    GenuineAppend(Got(s, ws), if ok then s.ring else [], s.past);
    GenuineUpTo(Got(s, ws) + if ok then s.ring else [], s.past);
  }

  lemma NothingGenuine(past: seq<Line>)
    ensures Genuine([], past)
  {}

  lemma SnapshotOther(s: State, v: Socket, ok: bool, ws: Socket)
    requires ClientOk(s, ws) && v != ws
    ensures ClientOk(Step(s, Snapshot(v, ok)), ws)
  {
    assert Got(Step(s, Snapshot(v, ok)), ws) == Got(s, ws);
    hide Increasing, Genuine, Has;
  }

  lemma HasAppend(a: seq<Entry>, b: seq<Entry>, q: nat)
    ensures Has(a + b, q) <==> Has(a, q) || Has(b, q)
  {
    if Has(a, q) {
      var i :| 0 <= i < |a| && a[i].no == q;
      assert (a + b)[i].no == q;
    }
    if Has(b, q) {
      var i :| 0 <= i < |b| && b[i].no == q;
      assert (a + b)[|a| + i].no == q;
    }
  }

  lemma InBatch(b: seq<Entry>, after: nat, q: nat)
    requires Contiguous(b, after) && b != [] && q <= b[|b| - 1].no
    ensures q <= after || Has(b, q)
  {
    if q > after {
      assert b[q - after - 1].no == q;
    }
  }

  lemma IncreasingAppend(a: seq<Entry>, b: seq<Entry>, n: nat)
    requires Increasing(a) && Increasing(b) && UpTo(a, n) && forall i :: 0 <= i < |b| ==> b[i].no > n
    ensures Increasing(a + b)
  {}

  /** What a turn that sends a batch does to its socket. */
  lemma BatchEffect(s: State, ws: Socket, head: nat)
    requires RingOk(s) && Enabled(s, Visit(ws, head, true)) && CursorOf(s, ws, head) < head
    ensures var (t, b) := (VisitStep(s, ws, head, true), Since(s.ring, CursorOf(s, ws, head), LOG_BATCH_MAX));
            && b != []
            && t == s.(got := t.got, cursors := t.cursors)
            && ws in s.cursors && ws in t.cursors && t.cursors[ws] == b[|b| - 1].no
            && Got(t, ws) == Got(s, ws) + b
  {
    BatchFacts(s, CursorOf(s, ws, head));
    hide Since, RingOk;
  }

  lemma NoneLost(s: State, ws: Socket, b: seq<Entry>, cursor: nat)
    requires RingOk(s) && cursor < s.no && b == Since(s.ring, cursor, LOG_BATCH_MAX) && b != []
    requires ws in s.since && ws in s.cursors && s.cursors[ws] == cursor && OnlyEvictedMissing(s, ws)
    ensures forall q :: s.since[ws] < q <= b[|b| - 1].no && !Has(Got(s, ws) + b, q) ==> q + LOG_RING_MAX <= s.no
  {
    BatchFacts(s, cursor);
    hide Since, Has, Got;
    var low := s.no - |s.ring|;
    forall q | s.since[ws] < q <= b[|b| - 1].no && !Has(Got(s, ws) + b, q) ensures q + LOG_RING_MAX <= s.no {
      HasAppend(Got(s, ws), b, q);
      InBatch(b, if cursor <= low then low else cursor, q);
    }
  }

  lemma BatchOwn(s: State, ws: Socket, head: nat)
    requires RingOk(s) && ClientOk(s, ws) && Enabled(s, Visit(ws, head, true)) && CursorOf(s, ws, head) < head
    ensures ClientOk(VisitStep(s, ws, head, true), ws)
  {
    var cursor := CursorOf(s, ws, head);
    BatchEffect(s, ws, head);
    BatchFacts(s, cursor);
    RingFacts(s);
    hide Since, RingOk, Has, VisitStep, Got, Genuine;
    var (t, b) := (VisitStep(s, ws, head, true), Since(s.ring, cursor, LOG_BATCH_MAX));
    BatchGenuine(b, s.past);
    GenuineAppend(Got(s, ws), b, s.past);
    BatchUpTo(Got(s, ws), b, cursor);
    if ws in s.since && ws in s.online { NoneLost(s, ws, b, cursor); }
  }

  lemma BatchGenuine(b: seq<Entry>, past: seq<Line>)
    requires forall i :: 0 <= i < |b| ==> 0 < b[i].no <= |past| && b[i].line == past[b[i].no - 1]
    ensures Genuine(b, past)
  {}

  lemma BatchUpTo(had: seq<Entry>, b: seq<Entry>, cursor: nat)
    requires b != [] && UpTo(had, cursor) && cursor < b[0].no
    requires exists after: nat :: Contiguous(b, after)
    ensures UpTo(had + b, b[|b| - 1].no)
  {
    var after: nat :| Contiguous(b, after);
  }

  lemma VisitSame(s: State, ws: Socket, head: nat, ok: bool)
    requires RingOk(s) && ClientOk(s, ws) && Enabled(s, Visit(ws, head, ok))
    ensures ClientOk(VisitStep(s, ws, head, ok), ws)
  {
    var cursor := CursorOf(s, ws, head);
    if cursor < head {
      if ok {
        BatchOwn(s, ws, head);
      } else {
        BatchFacts(s, cursor);
      }
    }
    hide Since, RingOk, Has, Genuine;
  }

  lemma StepClient(s: State, a: Action, ws: Socket)
    requires RingOk(s) && ClientOk(s, ws) && Enabled(s, a)
    ensures ClientOk(Step(s, a), ws)
  {
    match a
    case Emit(_, _) => EmitClient(s, a, ws);
    case Snapshot(v, ok) =>
      if v == ws {
        SnapshotOwn(s, ws, ok);
      } else {
        SnapshotOther(s, v, ok, ws);
      }
    case Visit(v, head, ok) =>
      if v == ws {
        VisitSame(s, ws, head, ok);
      }
    case _ =>
  }

  lemma {:induction false} RunInv(ss: seq<State>, acts: seq<Action>, k: nat)
    requires Run(ss, acts) && k <= |acts|
    ensures Inv(ss[k])
  {
    if k > 0 {
      RunInv(ss, acts, k - 1);
      RingStep(ss[k - 1], acts[k - 1]);
      forall ws ensures ClientOk(ss[k], ws) {
        StepClient(ss[k - 1], acts[k - 1], ws);
      }
    }
  }

  lemma {:induction false} RingAlwaysContiguous(ss: seq<State>, acts: seq<Action>, k: nat)
    requires Run(ss, acts) && k <= |acts|
    ensures RingOk(ss[k])
  {
    if k > 0 {
      RingAlwaysContiguous(ss, acts, k - 1);
      RingStep(ss[k - 1], acts[k - 1]);
    }
  }

  /** The branch for an empty batch below the head is never taken, in any run. */
  lemma EmptyBatchUnreachable(ss: seq<State>, acts: seq<Action>, k: nat)
    requires Run(ss, acts) && k < |acts| && acts[k].Visit?
    requires CursorOf(ss[k], acts[k].ws, acts[k].head) < acts[k].head
    ensures Since(ss[k].ring, CursorOf(ss[k], acts[k].ws, acts[k].head), LOG_BATCH_MAX) != []
  {
    RingAlwaysContiguous(ss, acts, k);
    BatchFacts(ss[k], CursorOf(ss[k], acts[k].ws, acts[k].head));
  }

  /** The order of login and broadcast matters.  A snapshot keeps a client's numbers
      increasing exactly when nothing had reached it before, or the ring has evicted all
      of what had. */
  lemma SnapshotKeepsOrderExactly(s: State, ws: Socket)
    requires RingOk(s) && Enabled(s, Snapshot(ws, true))
    requires Increasing(Got(s, ws)) && UpTo(Got(s, ws), s.no)
    ensures Increasing(Got(Step(s, Snapshot(ws, true)), ws))
            <==> Got(s, ws) == [] || s.ring == [] || Got(s, ws)[|Got(s, ws)| - 1].no + |s.ring| <= s.no
  {
    RingFacts(s);
    SnapshotEffect(s, ws, true);
    hide Step, Got;
    var (g, r) := (Got(s, ws), s.ring);
    assert g == [] ==> g + r == r;
    assert r == [] ==> g + r == g;
    if g != [] && r != [] {
      var both := Got(Step(s, Snapshot(ws, true)), ws);
      assert both[|g| - 1] == g[|g| - 1] && both[|g|] == r[0];
      assert r[0].no == s.no - |r| + 1;
      if g[|g| - 1].no + |r| <= s.no {
        assert UpTo(g, g[|g| - 1].no);
        IncreasingAppend(g, r, g[|g| - 1].no);
      }
    }
  }

  lemma AppendBreaks(a: seq<Entry>, b: seq<Entry>)
    ensures Increasing(a + b) ==> Increasing(a)
  {
    if Increasing(a + b) {
      forall i, j | 0 <= i < j < |a| ensures a[i].no < a[j].no {
        assert (a + b)[i] == a[i] && (a + b)[j] == a[j];
      }
    }
  }

  /** A batch only adds higher numbers. */
  lemma VisitIncreases(s: State, ws: Socket, head: nat, ok: bool)
    requires RingOk(s) && ClientOk(s, ws) && Enabled(s, Visit(ws, head, ok))
    ensures Increasing(Got(VisitStep(s, ws, head, ok), ws)) <==> Increasing(Got(s, ws))
  {
    var cursor := CursorOf(s, ws, head);
    if cursor < head && ok {
      BatchFacts(s, cursor);
      var (had, b) := (Got(s, ws), Since(s.ring, cursor, LOG_BATCH_MAX));
      hide Since, RingOk;
      assert Got(VisitStep(s, ws, head, ok), ws) == had + b;
      AppendBreaks(had, b);
      if Increasing(had) { IncreasingAppend(had, b, cursor); }
    }
  }

  /** One step keeps a socket's numbers increasing exactly if it is no snapshot that repeats
      a line, and nothing puts them in order again. */
  lemma StepIncreases(s: State, a: Action, ws: Socket)
    requires RingOk(s) && ClientOk(s, ws) && Enabled(s, a)
    ensures Increasing(Got(Step(s, a), ws)) <==> Increasing(Got(s, ws)) && !Repeats(s, a, ws)
  {
    if a.Visit? && a.ws == ws {
      VisitIncreases(s, ws, a.head, a.ok);
    } else if a.Snapshot? && a.ws == ws {
      SnapshotIncreases(s, ws, a.ok);
    } else {
      assert Got(Step(s, a), ws) == Got(s, ws);
    }
    hide Increasing;
  }

  lemma SnapshotIncreases(s: State, ws: Socket, ok: bool)
    requires RingOk(s) && ClientOk(s, ws) && Enabled(s, Snapshot(ws, ok))
    ensures Increasing(Got(Step(s, Snapshot(ws, ok)), ws)) <==> Increasing(Got(s, ws)) && !Repeats(s, Snapshot(ws, ok), ws)
  {
    GenuineUpTo(Got(s, ws), s.past);
    RingFacts(s);
    if ok && s.ring != [] {
      AppendBreaks(Got(s, ws), s.ring);
      if Increasing(Got(s, ws)) { SnapshotKeepsOrderExactly(s, ws); }
      assert Got(s, ws) == [] ==> Got(s, ws) + s.ring == s.ring;
    }
    hide Increasing, Genuine;
  }

  lemma RunAt(ss: seq<State>, acts: seq<Action>, k: nat, ws: Socket)
    requires Run(ss, acts) && k <= |acts|
    ensures |ss| == |acts| + 1 && RingOk(ss[k]) && ClientOk(ss[k], ws)
    ensures k < |acts| ==> Enabled(ss[k], acts[k]) && ss[k + 1] == Step(ss[k], acts[k])
    ensures k == 0 ==> Got(ss[k], ws) == []
  {
    hide RingOk, ClientOk, Step, Enabled;
    RunInv(ss, acts, k);
  }

  lemma {:induction false} NumbersIncrease(ss: seq<State>, acts: seq<Action>, k: nat, ws: Socket)
    requires Run(ss, acts) && k <= |acts|
    ensures |ss| == |acts| + 1
    ensures Increasing(Got(ss[k], ws)) <==> forall j :: 0 <= j < k ==> !Repeats(ss[j], acts[j], ws)
  {
    hide Run, Repeats, Step, ClientOk, RingOk, Enabled, Got;
    RunAt(ss, acts, k, ws);
    if k > 0 {
      NumbersIncrease(ss, acts, k - 1, ws);
      RunAt(ss, acts, k - 1, ws);
      StepIncreases(ss[k - 1], acts[k - 1], ws);
    }
  }

  /** Log streaming, over every run: across snapshot and batches a client sees only genuine
      lines; of the lines after its login and up to its cursor it lacks only some that the
      ring has evicted; and their numbers strictly increase if and only if no snapshot
      repeated a resident line. */
  lemma EachLineOnceInOrder(ss: seq<State>, acts: seq<Action>, k: nat, ws: Socket)
    requires Run(ss, acts) && k <= |acts|
    ensures |ss| == |acts| + 1
    ensures var s := ss[k];
            && Genuine(Got(s, ws), s.past)
            && (ws in s.online && ws in s.since ==> ws in s.cursors && OnlyEvictedMissing(s, ws))
            && (Increasing(Got(s, ws)) <==> forall j :: 0 <= j < k ==> !Repeats(ss[j], acts[j], ws))
  {
    hide Run, Increasing, Repeats;
    RunAt(ss, acts, k, ws);
    NumbersIncrease(ss, acts, k, ws);
  }

  /** And a pass can come first: a socket that is online but still waiting for its
      snapshot is given the next lines by the broadcaster, and then again by the snapshot. */
  lemma EarlyPassRepeatsLines(ws: Socket, one: Line)
    ensures var s1 := Step(Step(Start(), Connect(ws)), Visit(ws, 0, true));
            var s2 := Step(Step(s1, Emit(one, false)), Visit(ws, 1, true));
            Got(Step(s2, Snapshot(ws, true)), ws) == [Entry(1, one), Entry(1, one)]
  {
    var s1 := Step(Step(Start(), Connect(ws)), Visit(ws, 0, true));
    var e := Step(s1, Emit(one, false));
    assert e.ring == [Entry(1, one)] && e.ring[1..] == [];
    assert Newer(e.ring, 0) == [Entry(1, one)];
  }

  // ---- the objects ----------------------------------------------------------------------------------

  class ChatServer {
    var ring: seq<Entry>
    var no: nat
    var online: set<Socket>
    var logCursor: map<Socket, nat>
    ghost var past: seq<Line>
    ghost var known: set<Socket>
    ghost var snapshots: map<Socket, nat>
    var got: map<Socket, seq<Entry>>

    ghost function View(): State
      reads this
    {
      State(ring, no, past, online, known, logCursor, snapshots, got)
    }

    constructor ()
      ensures View() == Start()
    {
      ring, no, online, logCursor, got := [], 0, {}, map[], map[];
      past, known, snapshots := [], {}, map[];
    }

    method EmitRecord(line: Line, flushing: bool)
      modifies this
      ensures View() == Step(old(View()), Emit(line, flushing))
    {
      if flushing { return; }
      no := no + 1;
      past := past + [line];
      if |ring| >= LOG_RING_MAX {
        ring := ring[1..];
      }
      ring := ring + [Entry(no, line)];
    }

    method EntriesSince(cursor: nat, limit: nat) returns (es: seq<Entry>)
      ensures es == Since(ring, cursor, limit)
    {
      var all: seq<Entry> := [];
      for i := 0 to |ring|
        invariant all + Newer(ring[i..], cursor) == Newer(ring, cursor)
      {
        assert ring[i..][0] == ring[i] && ring[i..][1..] == ring[i + 1..];
        if ring[i].no > cursor {
          all := all + [ring[i]];
        }
      }
      es := if |all| <= limit then all else all[..limit];
    }

    method GoOnline(ws: Socket)
      modifies this`online, this`known
      ensures View() == Step(old(View()), Connect(ws))
    {
      online := online + {ws};
      known := known + {ws};
    }

    method Send(ws: Socket, lines: seq<Entry>, ok: bool)
      modifies this`got
      ensures got == if ok then old(got)[ws := (if ws in old(got) then old(got)[ws] else []) + lines] else old(got)
    {
      if ok {
        got := got[ws := (if ws in got then got[ws] else []) + lines];
      }
    }

    method SendLogSnapshot(ws: Socket, ok: bool)
      modifies this
      ensures View() == Step(old(View()), Snapshot(ws, ok))
    {
      logCursor := logCursor[ws := no];
      snapshots := snapshots[ws := no];
      var snapshot := ring;
      if snapshot == [] { return; }
      Send(ws, snapshot, ok);
    }

    method PruneCursors()
      modifies this`logCursor
      ensures View() == Step(old(View()), Prune)
    {
      logCursor := map ws | ws in logCursor && ws in online :: logCursor[ws];
    }

    /** The body of the broadcaster's loop for one socket. */
    method VisitClient(ws: Socket, head: nat, ok: bool)
      modifies this
      ensures View() == Step(old(View()), Visit(ws, head, ok))
    {
      var cursor := if ws in logCursor then logCursor[ws] else head;
      if cursor >= head {
        logCursor := logCursor[ws := cursor];
        return;
      }
      var batch := EntriesSince(cursor, LOG_BATCH_MAX);
      if batch == [] {
        logCursor := logCursor[ws := head];
        return;
      }
      Send(ws, batch, ok);
      if !ok { return; }
      logCursor := logCursor[ws := batch[|batch| - 1].no];
    }

    method GoOffline(ws: Socket)
      modifies this`online, this`logCursor
      ensures View() == Step(old(View()), Disconnect(ws))
    {
      online := online - {ws};
      logCursor := logCursor - {ws};
    }
  }
}
