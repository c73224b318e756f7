/**
 server/server.py once more, step by step between its awaits.

 A login puts the socket online and only then drains the backlog, one frame per await; a
 live delivery hands the frame over and moves the cursor after another await.  Every
 interleaving of these steps is a run.  Module Relay takes a login, and a live delivery,
 as one step each; `LoginUndisturbed` and `MsgUndisturbed` say that those are the runs in
 which nothing comes between.
 */
module RelayAwaits {
  import opened Relay

  /** A login's drain: the rounds left and what the batch fetched last still has to send. */
  datatype Drain = Drain(left: nat, unsent: seq<nat>)

  /** `acks` are the live deliveries whose cursor update is still to come. */
  datatype Server = Server(
    rows: seq<Row>, cursors: map<Nick, nat>, online: set<Nick>, out: seq<Delivery>,
    drains: map<Nick, Drain>, acks: set<Delivery>)

  datatype Task =
    | Online(nick: Nick)
    | Offline(nick: Nick)                      // also when a send to it fails
    | Fetch(nick: Nick)                        // history_for, or the end of the drain
    | SendOne(nick: Nick)                      // the next frame of the batch
    | Store(from: Nick, to: Nick, ok: bool)    // ok: the send to an online recipient did not fail
    | Confirm(d: Delivery)                     // advance_cursor after the live send
    | Abandon(d: Delivery)                     // the live send raised after handing the frame over

  function Unsent(s: Server, p: Nick): seq<nat> {
    if p in s.drains then s.drains[p].unsent else []
  }

  predicate Ready(s: Server, a: Task) {
    match a
    case Online(p) => p !in s.online && p !in s.drains
    case Offline(p) => p in s.online
    case Fetch(p) => p in s.drains && s.drains[p].unsent == []
    case SendOne(p) => p in s.drains && s.drains[p].unsent != []
    case Store(x, p, ok) => x in s.online && x != p && (ok ==> p in s.online)
    case Confirm(d) => d in s.acks
    case Abandon(d) => d in s.acks
  }

  function FetchStep(s: Server, p: Nick): Server
    requires Ready(s, Fetch(p))
  {
    var left := s.drains[p].left;
    var b := if left == 0 then [] else Batch(s.rows, p, Cursor(s.cursors, p), BATCH);
    if b == [] then s.(drains := s.drains - {p})
    else s.(drains := s.drains[p := Drain(left - 1, b)], cursors := Advance(s.cursors, p, After(b, 0)))
  }

  function Next(s: Server, a: Task): Server
    requires Ready(s, a)
  {
    match a
    case Online(p) => s.(online := s.online + {p}, drains := s.drains[p := Drain(ROUNDS, [])])
    case Offline(p) => s.(online := s.online - {p}, drains := s.drains - {p})
    case Fetch(p) => FetchStep(s, p)
    case SendOne(p) =>
      var d := s.drains[p];
      s.(out := s.out + [Delivery(p, d.unsent[0])], drains := s.drains[p := d.(unsent := d.unsent[1..])])
    case Store(x, p, ok) =>
      var s1 := s.(rows := s.rows + [Row(x, p)]);
      var d := Delivery(p, |s1.rows|);
      if ok then s1.(out := s1.out + [d], acks := s1.acks + {d}) else s1
    case Confirm(d) => s.(cursors := Advance(s.cursors, d.to, d.id), acks := s.acks - {d})
    case Abandon(d) => s.(acks := s.acks - {d})
  }

  function Initial(): Server {
    Server([], map[], {}, [], map[], {})
  }

  ghost predicate Tasks(ss: seq<Server>, acts: seq<Task>) {
    && |ss| == |acts| + 1
    && ss[0] == Initial()
    && forall k :: 0 <= k < |acts| ==> Ready(ss[k], acts[k]) && ss[k + 1] == Next(ss[k], acts[k])
  }

  // ---- what becomes of one frame ---------------------------------------------------------------

  /** How often a frame was handed over. */
  function Handed(out: seq<Delivery>, d: Delivery): nat {
    if out == [] then 0 else Handed(out[..|out| - 1], d) + (if out[|out| - 1] == d then 1 else 0)
  }

  lemma HandedAppend(out: seq<Delivery>, x: Delivery, d: Delivery)
    ensures Handed(out + [x], d) == Handed(out, d) + (if x == d then 1 else 0)
  {
    assert (out + [x])[..|out|] == out;
  }

  /** Frame `id` for p was not handed over twice, and once p's cursor has passed it, it was
      handed over or is about to be. */
  predicate FrameOk(s: Server, p: Nick, id: nat) {
    var n := Handed(s.out, Delivery(p, id));
    n <= 1 && (id <= Cursor(s.cursors, p) ==> n == 1 || id in Unsent(s, p))
  }

  /** The step goes wrong for frame `id` of p: the drain sends what a live delivery already
      handed over, also one whose send then raised, so that it may or may not have arrived;
      or the connection drops with the frame fetched and not sent; or a live delivery's
      cursor update passes the frame while it still waits. */
  predicate Slips(s: Server, a: Task, p: Nick, id: nat)
    requires Ready(s, a)
  {
    var n := Handed(s.out, Delivery(p, id));
    match a
    case SendOne(q) => q == p && s.drains[p].unsent[0] == id && n > 0
    case Offline(q) => q == p && id in Unsent(s, p) && n == 0
    case Confirm(d) => d.to == p && Cursor(s.cursors, p) < id <= d.id && n == 0
    case _ => false
  }

  ghost predicate Sane(s: Server) {
    && (forall p :: Cursor(s.cursors, p) <= |s.rows|)
    && (forall d :: Handed(s.out, d) > 0 ==> d.id <= |s.rows|)
    && (forall d <- s.acks :: d.id <= |s.rows|)
    && (forall p :: UnsentBelow(s, p))
  }

  predicate UnsentBelow(s: Server, p: Nick) {
    forall id :: id in Unsent(s, p) ==> id <= Cursor(s.cursors, p)
  }

  /** A batch starts above the cursor and ends where the new cursor is. */
  lemma BatchRange(rows: seq<Row>, p: Nick, cursor: nat)
    ensures var b := Batch(rows, p, cursor, BATCH);
            && (forall i :: 0 <= i < |b| ==> cursor < b[i] <= After(b, cursor))
            && cursor <= After(b, cursor) <= Max(cursor, |rows|)
    ensures var b := Batch(rows, p, cursor, BATCH);
            forall id :: cursor < id <= After(b, cursor) && IsFor(rows, id, p) ==> id in b
  {
    PartyFacts(rows, p, cursor, |rows|);
    PartyAscends(rows, p, cursor, |rows|);
    PartyHas(rows, p, cursor, |rows|);
    hide Party;
    var all, b := Party(rows, p, cursor, |rows|), Batch(rows, p, cursor, BATCH);
    assert forall i :: 0 <= i < |b| ==> b[i] == all[i] <= all[|b| - 1] == After(b, cursor);
    forall id | cursor < id <= After(b, cursor) && IsFor(rows, id, p) ensures id in b {
      var k :| 0 <= k < |all| && all[k] == id;
      assert b != [] && all[k] <= all[|b| - 1];
      assert b[k] == id;
    }
  }

  predicate Ascends(ids: seq<nat>) {
    forall i, j :: 0 <= i < j < |ids| ==> ids[i] < ids[j]
  }

  lemma AscendsCons(id: nat, rest: seq<nat>)
    requires Ascends(rest) && forall i :: 0 <= i < |rest| ==> id < rest[i]
    ensures Ascends([id] + rest)
  {
    var all := [id] + rest;
    assert forall i :: 0 < i < |all| ==> all[i] == rest[i - 1];
  }

  lemma {:induction false} PartyAscends(rows: seq<Row>, p: Nick, lo: nat, hi: nat)
    requires hi <= |rows|
    ensures Ascends(Party(rows, p, lo, hi))
    decreases hi - lo
  {
    if lo < hi {
      PartyAscends(rows, p, lo + 1, hi);
      PartyFacts(rows, p, lo + 1, hi);
      AscendsCons(lo + 1, Party(rows, p, lo + 1, hi));
      hide Ascends;
    }
  }

  lemma {:induction false} PartyHas(rows: seq<Row>, p: Nick, lo: nat, hi: nat)
    requires hi <= |rows|
    ensures forall id :: lo < id <= hi && IsFor(rows, id, p) ==> id in Party(rows, p, lo, hi)
    decreases hi - lo
  {
    if lo < hi {
      PartyHas(rows, p, lo + 1, hi);
      forall id | lo < id <= hi && IsFor(rows, id, p) ensures id in Party(rows, p, lo, hi) {
        assert id != lo + 1 ==> id in Party(rows, p, lo + 1, hi);
      }
    }
  }

  lemma UnsentAfterFetch(s: Server, p: Nick)
    requires Sane(s) && Ready(s, Fetch(p))
    ensures var t := FetchStep(s, p);
            var (c, c') := (Cursor(s.cursors, p), Cursor(t.cursors, p));
            && c <= c' <= |s.rows| && UnsentBelow(t, p)
            && (forall id :: id in Unsent(t, p) ==> id > c)
            && (forall id :: c < id <= c' && IsFor(s.rows, id, p) ==> id in Unsent(t, p))
  {
    BatchRange(s.rows, p, Cursor(s.cursors, p));
    hide Batch;
    assert Cursor(s.cursors, p) <= |s.rows|;
  }

  /** The step hands over d. */
  predicate Hands(s: Server, a: Task, d: Delivery)
    requires Ready(s, a)
  {
    match a
    case SendOne(p) => d == Delivery(p, s.drains[p].unsent[0])
    case Store(_, p, ok) => ok && d == Delivery(p, |s.rows| + 1)
    case _ => false
  }

  lemma HandedAfter(s: Server, a: Task, d: Delivery)
    requires Ready(s, a)
    ensures Handed(Next(s, a).out, d) == Handed(s.out, d) + (if Hands(s, a, d) then 1 else 0)
    ensures Sane(s) && Hands(s, a, d) ==> d.id <= |Next(s, a).rows|
  {
    if a.SendOne? {
      HandedAppend(s.out, Delivery(a.nick, s.drains[a.nick].unsent[0]), d);
      assert Sane(s) ==> UnsentBelow(s, a.nick) && Cursor(s.cursors, a.nick) <= |s.rows|;
      assert s.drains[a.nick].unsent[0] in Unsent(s, a.nick);
    } else if a.Store? && a.ok {
      HandedAppend(s.out, Delivery(a.to, |s.rows| + 1), d);
    }
    hide Handed;
  }

  lemma CursorAfter(s: Server, a: Task, p: Nick)
    requires Sane(s) && Ready(s, a)
    ensures var t := Next(s, a);
            && Cursor(s.cursors, p) <= Cursor(t.cursors, p) <= |t.rows|
            && UnsentBelow(t, p)
  {
    hide Handed, Batch;
    assert UnsentBelow(s, p) && Cursor(s.cursors, p) <= |s.rows|;
    if a == Fetch(p) {
      UnsentAfterFetch(s, p);
    } else {
      assert forall id :: id in Unsent(Next(s, a), p) ==> id in Unsent(s, p);
    }
  }

  lemma NextSane(s: Server, a: Task)
    requires Sane(s) && Ready(s, a)
    ensures Sane(Next(s, a))
  {
    hide Handed, Batch, UnsentBelow, Cursor;
    var t := Next(s, a);
    forall p ensures Cursor(t.cursors, p) <= |t.rows| && UnsentBelow(t, p) {
      CursorAfter(s, a, p);
    }
    forall d | Handed(t.out, d) > 0 ensures d.id <= |t.rows| {
      HandedAfter(s, a, d);
    }
  }

  lemma SaneAt(s: Server, p: Nick)
    requires Sane(s)
    ensures Cursor(s.cursors, p) <= |s.rows| && UnsentBelow(s, p)
  {
    hide Handed;
  }

  lemma FetchFrame(s: Server, p: Nick, id: nat)
    requires Sane(s) && Ready(s, Fetch(p)) && IsFor(s.rows, id, p)
    ensures FrameOk(Next(s, Fetch(p)), p, id) <==> FrameOk(s, p, id)
  {
    UnsentAfterFetch(s, p);
    hide Handed, Batch, Sane, UnsentBelow, Cursor;
  }

  lemma SendOneFrame(s: Server, p: Nick, id: nat)
    requires Sane(s) && Ready(s, SendOne(p)) && IsFor(s.rows, id, p)
    ensures FrameOk(Next(s, SendOne(p)), p, id) <==> FrameOk(s, p, id) && !Slips(s, SendOne(p), p, id)
  {
    HandedAfter(s, SendOne(p), Delivery(p, id));
    SaneAt(s, p);
    hide Handed, Sane, Cursor;
    var us := s.drains[p].unsent;
    assert id in us <==> id == us[0] || id in us[1..];
    assert us[0] in Unsent(s, p);
  }

  lemma ConfirmFrame(s: Server, d: Delivery, p: Nick, id: nat)
    requires Sane(s) && Ready(s, Confirm(d)) && IsFor(s.rows, id, p)
    ensures FrameOk(Next(s, Confirm(d)), p, id) <==> FrameOk(s, p, id) && !Slips(s, Confirm(d), p, id)
  {
    SaneAt(s, p);
    assert id in Unsent(s, p) ==> id <= Cursor(s.cursors, p);
    hide Handed, Sane;
  }

  lemma OfflineFrame(s: Server, p: Nick, id: nat)
    requires Sane(s) && Ready(s, Offline(p)) && IsFor(s.rows, id, p)
    ensures FrameOk(Next(s, Offline(p)), p, id) <==> FrameOk(s, p, id) && !Slips(s, Offline(p), p, id)
  {
    SaneAt(s, p);
    assert id in Unsent(s, p) ==> id <= Cursor(s.cursors, p);
    hide Handed, Sane;
  }

  /** A step that is none of p's drain and no cursor update leaves the frame as it is. */
  lemma OtherFrame(s: Server, a: Task, p: Nick, id: nat)
    requires Sane(s) && Ready(s, a) && IsFor(s.rows, id, p)
    requires a != Fetch(p) && a != SendOne(p) && a != Offline(p) && !a.Confirm?
    ensures FrameOk(Next(s, a), p, id) <==> FrameOk(s, p, id)
  {
    HandedAfter(s, a, Delivery(p, id));
    hide Handed, Batch, Sane;
  }

  /** One step keeps a frame in order unless it slips there, and nothing repairs it later. */
  lemma FrameStep(s: Server, a: Task, p: Nick, id: nat)
    requires Sane(s) && Ready(s, a) && IsFor(s.rows, id, p)
    ensures FrameOk(Next(s, a), p, id) <==> FrameOk(s, p, id) && !Slips(s, a, p, id)
  {
    if a == Fetch(p) {
      FetchFrame(s, p, id);
      hide Next, FrameOk, Sane, Handed;
    } else if a == SendOne(p) {
      SendOneFrame(s, p, id);
    } else if a == Offline(p) {
      OfflineFrame(s, p, id);
    } else if a.Confirm? {
      ConfirmFrame(s, a.d, p, id);
    } else {
      OtherFrame(s, a, p, id);
      hide Next, FrameOk, Sane, Handed;
    }
  }

  // ---- whole runs --------------------------------------------------------------------------------

  lemma {:induction false} TasksSane(ss: seq<Server>, acts: seq<Task>, k: nat)
    requires Tasks(ss, acts) && k <= |acts|
    ensures Sane(ss[k])
  {
    if k > 0 {
      TasksSane(ss, acts, k - 1);
      hide Sane, Next;
      NextSane(ss[k - 1], acts[k - 1]);
    }
  }

  lemma NewFrameOk(s: Server, a: Task, p: Nick, id: nat)
    requires Sane(s) && Ready(s, a) && !IsFor(s.rows, id, p) && IsFor(Next(s, a).rows, id, p)
    ensures id == |s.rows| + 1 && FrameOk(Next(s, a), p, id)
  {
    HandedAfter(s, a, Delivery(p, id));
    assert Handed(s.out, Delivery(p, id)) > 0 ==> id <= |s.rows|;
    assert Cursor(s.cursors, p) <= |s.rows|;
    hide Handed, Batch;
  }

  lemma UnstoredDoesNotSlip(s: Server, a: Task, p: Nick, id: nat)
    requires Sane(s) && Ready(s, a) && id > |s.rows|
    ensures !Slips(s, a, p, id)
  {
    assert UnsentBelow(s, p) && Cursor(s.cursors, p) <= |s.rows|;
    assert a == SendOne(p) ==> s.drains[p].unsent[0] in Unsent(s, p);
    hide Handed;
  }

  lemma {:induction false} RowsGrow(ss: seq<Server>, acts: seq<Task>, j: nat, k: nat)
    requires Tasks(ss, acts) && j <= k <= |acts|
    ensures |ss[j].rows| <= |ss[k].rows|
    decreases k
  {
    if j < k {
      RowsGrow(ss, acts, j, k - 1);
      hide Batch;
      assert ss[k] == Next(ss[k - 1], acts[k - 1]);
    }
  }

  /** Exactly once, exactly: over every interleaving, a frame stored for p is in order, that
      is, handed over at most once and not passed over, if and only if no step so far slipped
      for it.  Nothing ever repairs a slip. */
  lemma {:induction false} FrameOnceExactly(ss: seq<Server>, acts: seq<Task>, k: nat, p: Nick, id: nat)
    requires Tasks(ss, acts) && k <= |acts| && IsFor(ss[k].rows, id, p)
    ensures FrameOk(ss[k], p, id) <==> forall i :: 0 <= i < k ==> !Slips(ss[i], acts[i], p, id)
  {
    assert k > 0;
    TasksSane(ss, acts, k - 1);
    if IsFor(ss[k - 1].rows, id, p) {
      FrameOnceExactly(ss, acts, k - 1, p, id);
      hide Sane, Next, Slips, FrameOk;
      FrameStep(ss[k - 1], acts[k - 1], p, id);
    } else {
      NewFrameOk(ss[k - 1], acts[k - 1], p, id);
      forall i | 0 <= i < k ensures !Slips(ss[i], acts[i], p, id) {
        RowsGrow(ss, acts, i, k - 1);
        TasksSane(ss, acts, i);
        UnstoredDoesNotSlip(ss[i], acts[i], p, id);
      }
    }
  }

  /** Once p's drain is over, each frame up to p's cursor was handed over exactly once if and
      only if no step slipped for it. */
  lemma DeliveredOnceExactly(ss: seq<Server>, acts: seq<Task>, k: nat, p: Nick, id: nat)
    requires Tasks(ss, acts) && k <= |acts| && IsFor(ss[k].rows, id, p)
    requires p !in ss[k].drains && id <= Cursor(ss[k].cursors, p)
    ensures Handed(ss[k].out, Delivery(p, id)) == 1 <==> forall i :: 0 <= i < k ==> !Slips(ss[i], acts[i], p, id)
  {
    FrameOnceExactly(ss, acts, k, p, id);
    hide Slips, Tasks, Handed;
  }

  /** A live delivery during a login loses the backlog: p goes online with a frame waiting, a
      message to p arrives before the drain's first query, and the frame is passed over. */
  lemma LiveDuringLoginLoses(s: Server, x: Nick, p: Nick, id: nat)
    requires Sane(s) && Ready(s, Online(p)) && x in s.online && x != p
    requires IsFor(s.rows, id, p) && id > Cursor(s.cursors, p) && Handed(s.out, Delivery(p, id)) == 0
    ensures var s1 := Next(s, Online(p));
            && Ready(s1, Store(x, p, true))
            && var s2 := Next(s1, Store(x, p, true));
               && Ready(s2, Confirm(Delivery(p, |s2.rows|)))
               && !FrameOk(Next(s2, Confirm(Delivery(p, |s2.rows|))), p, id)
  {
    HandedAppend(s.out, Delivery(p, |s.rows| + 1), Delivery(p, id));
    hide Handed;
  }

  // ---- order ---------------------------------------------------------------------------------------

  /** What p was handed, in order. */
  function Got(s: Server, p: Nick): seq<nat> {
    Received(s.rows, s.out, p)
  }

  /** A live delivery among the first n steps handed frame `id` to p. */
  ghost predicate LiveBefore(ss: seq<Server>, acts: seq<Task>, n: nat, p: Nick, id: nat)
    requires n <= |acts| < |ss|
  {
    exists m :: 0 <= m < n && acts[m].Store? && acts[m].to == p && acts[m].ok && |ss[m].rows| + 1 == id
  }

  /** The drain hands p a frame after a live delivery handed it a later one, or the same. */
  ghost predicate Overtaken(ss: seq<Server>, acts: seq<Task>, n: nat, p: Nick)
    requires n < |acts| < |ss| && Ready(ss[n], acts[n])
  {
    && acts[n] == SendOne(p)
    && var u := ss[n].drains[p].unsent[0];
       IsFor(ss[n].rows, u, p) && exists id :: id >= u && LiveBefore(ss, acts, n, p, id)
  }

  lemma {:induction false} ReceivedIsHanded(rows: seq<Row>, out: seq<Delivery>, p: Nick, id: nat)
    ensures id in Received(rows, out, p) <==> IsFor(rows, id, p) && Handed(out, Delivery(p, id)) > 0
    decreases |out|
  {
    if out != [] { ReceivedIsHanded(rows, out[..|out| - 1], p, id); }
  }

  /** What p was handed without a live delivery is below what its drain still holds, which
      ascends. */
  ghost predicate DrainAscends(ss: seq<Server>, acts: seq<Task>, n: nat, p: Nick)
    requires n <= |acts| < |ss|
  {
    && Ascends(Unsent(ss[n], p))
    && forall id :: Handed(ss[n].out, Delivery(p, id)) > 0 && !LiveBefore(ss, acts, n, p, id) ==> Low(ss[n], p, id)
  }

  predicate Low(s: Server, p: Nick, id: nat) {
    id <= Cursor(s.cursors, p) && forall u :: u in Unsent(s, p) ==> id < u
  }

  lemma LiveGrows(ss: seq<Server>, acts: seq<Task>, n: nat, p: Nick, id: nat)
    requires n < |acts| < |ss|
    ensures LiveBefore(ss, acts, n + 1, p, id) <==>
              LiveBefore(ss, acts, n, p, id)
              || (acts[n].Store? && acts[n].to == p && acts[n].ok && |ss[n].rows| + 1 == id)
  {
    if acts[n].Store? && acts[n].to == p && acts[n].ok && |ss[n].rows| + 1 == id {
      assert LiveBefore(ss, acts, n + 1, p, id);
    }
  }

  /** What is low stays low. */
  lemma LowStays(s: Server, a: Task, p: Nick, id: nat)
    requires Sane(s) && Ready(s, a) && Low(s, p, id)
    ensures Low(Next(s, a), p, id)
  {
    CursorAfter(s, a, p);
    if a == Fetch(p) {
      UnsentAfterFetch(s, p);
    } else {
      assert forall u :: u in Unsent(Next(s, a), p) ==> u in Unsent(s, p);
    }
    hide Handed, Batch, Sane, UnsentBelow;
  }

  lemma SentIsLow(s: Server, p: Nick)
    requires Sane(s) && Ready(s, SendOne(p)) && Ascends(Unsent(s, p))
    ensures Low(Next(s, SendOne(p)), p, s.drains[p].unsent[0])
  {
    assert UnsentBelow(s, p) && s.drains[p].unsent[0] in Unsent(s, p);
    hide Handed, Sane;
  }

  lemma UnsentAscends(s: Server, a: Task, p: Nick)
    requires Ready(s, a) && Ascends(Unsent(s, p)) && Cursor(s.cursors, p) <= |s.rows|
    ensures Ascends(Unsent(Next(s, a), p))
  {
    if a == Fetch(p) { PartyAscends(s.rows, p, Cursor(s.cursors, p), |s.rows|); }
    hide Party, Handed;
  }

  lemma {:induction false} DrainsAscend(ss: seq<Server>, acts: seq<Task>, n: nat, p: Nick)
    requires Tasks(ss, acts) && n <= |acts|
    ensures |ss| == |acts| + 1 && DrainAscends(ss, acts, n, p)
  {
    if n > 0 {
      DrainsAscend(ss, acts, n - 1, p);
      TasksSane(ss, acts, n - 1);
      DrainAscendsOn(ss, acts, n - 1, p);
    }
  }

  lemma DrainAscendsOn(ss: seq<Server>, acts: seq<Task>, n: nat, p: Nick)
    requires n < |acts| < |ss| && Sane(ss[n]) && Ready(ss[n], acts[n]) && ss[n + 1] == Next(ss[n], acts[n])
    requires DrainAscends(ss, acts, n, p)
    ensures DrainAscends(ss, acts, n + 1, p)
  {
    var (s, a) := (ss[n], acts[n]);
    assert Cursor(s.cursors, p) <= |s.rows|;
    hide Sane, Next, Ready, LiveBefore, Low, Handed, Ascends;
    UnsentAscends(s, a, p);
    forall id | Handed(ss[n + 1].out, Delivery(p, id)) > 0 && !LiveBefore(ss, acts, n + 1, p, id) ensures Low(ss[n + 1], p, id) {
      HandedAfter(s, a, Delivery(p, id));
      LiveGrows(ss, acts, n, p, id);
      if Hands(s, a, Delivery(p, id)) {
        SentIsLow(s, p);
      } else {
        LowStays(s, a, p, id);
      }
    }
  }

  lemma {:induction false} HandedAt(out: seq<Delivery>, i: nat)
    requires i < |out|
    ensures Handed(out, out[i]) > 0
    decreases |out|
  {
    if i < |out| - 1 {
      HandedAt(out[..|out| - 1], i);
      assert out[..|out| - 1][i] == out[i];
    }
  }

  /** What the step adds to what p was handed. */
  function Gives(s: Server, a: Task, p: Nick): seq<nat>
    requires Ready(s, a)
  {
    match a
    case SendOne(q) => if q == p && IsFor(s.rows, s.drains[q].unsent[0], p) then [s.drains[q].unsent[0]] else []
    case Store(_, q, ok) => if ok && q == p then [|s.rows| + 1] else []
    case _ => []
  }

  lemma GotAfter(s: Server, a: Task, p: Nick)
    requires Sane(s) && Ready(s, a)
    ensures Got(Next(s, a), p) == Got(s, p) + Gives(s, a, p)
  {
    if a.SendOne? {
      var d := Delivery(a.nick, s.drains[a.nick].unsent[0]);
      assert (s.out + [d])[..|s.out|] == s.out;
    } else if a.Store? {
      forall i | 0 <= i < |s.out| ensures s.out[i].id <= |s.rows| {
        HandedAt(s.out, i);
      }
      var r := Row(a.from, a.to);
      var d := Delivery(a.to, |s.rows| + 1);
      ReceivedGrowing(s.rows, r, s.out, p);
      assert (s.out + [d])[..|s.out|] == s.out;
    }
    hide Handed, Batch;
  }

  lemma AscendsSnoc(ids: seq<nat>, id: nat)
    ensures Ascends(ids + [id]) <==> Ascends(ids) && forall y :: y in ids ==> y < id
  {
    var all := ids + [id];
    if Ascends(all) {
      forall i, j | 0 <= i < j < |ids| ensures ids[i] < ids[j] { assert all[i] < all[j]; }
      forall y | y in ids ensures y < id {
        var i :| 0 <= i < |ids| && ids[i] == y;
        assert all[i] < all[|ids|];
      }
    } else if (forall y :: y in ids ==> y < id) && Ascends(ids) {
      forall i, j | 0 <= i < j < |all| ensures all[i] < all[j] {
        assert all[i] == ids[i] && (j < |ids| ==> all[j] == ids[j]) && ids[i] in ids;
      }
    }
  }

  lemma TaskAt(ss: seq<Server>, acts: seq<Task>, n: nat)
    requires Tasks(ss, acts)
    ensures |ss| == |acts| + 1
    ensures n < |acts| ==> Ready(ss[n], acts[n]) && ss[n + 1] == Next(ss[n], acts[n])
  {
    hide Next, Ready;
  }

  lemma NoneLiveAtStart(ss: seq<Server>, acts: seq<Task>, p: Nick, id: nat)
    requires |acts| < |ss|
    ensures !LiveBefore(ss, acts, 0, p, id)
  {}

  lemma {:induction false} LiveIsHanded(ss: seq<Server>, acts: seq<Task>, n: nat, p: Nick, id: nat)
    requires Tasks(ss, acts) && n <= |acts|
    ensures |ss| == |acts| + 1
    ensures LiveBefore(ss, acts, n, p, id) ==> id in Got(ss[n], p)
    decreases n
  {
    hide Tasks, Sane, Next, Ready, LiveBefore, Got;
    TaskAt(ss, acts, n);
    if n > 0 {
      LiveIsHanded(ss, acts, n - 1, p, id);
      TaskAt(ss, acts, n - 1);
      TasksSane(ss, acts, n - 1);
      LiveGrows(ss, acts, n - 1, p, id);
      GotAfter(ss[n - 1], acts[n - 1], p);
    } else {
      NoneLiveAtStart(ss, acts, p, id);
    }
  }

  /** One step keeps what p was handed in id order exactly if it is no drain's send of an
      overtaken frame. */
  lemma OrderStep(ss: seq<Server>, acts: seq<Task>, n: nat, p: Nick)
    requires Tasks(ss, acts) && n < |acts|
    ensures |ss| == |acts| + 1 && Ready(ss[n], acts[n])
    ensures Ascends(Got(ss[n + 1], p)) <==> Ascends(Got(ss[n], p)) && !Overtaken(ss, acts, n, p)
  {
    var (s, a) := (ss[n], acts[n]);
    TasksSane(ss, acts, n);
    DrainsAscend(ss, acts, n, p);
    assert ss[n + 1] == Next(s, a) && Ready(s, a);
    GotAfter(s, a, p);
    AscendsSnoc(Got(s, p), if Gives(s, a, p) == [] then 0 else Gives(s, a, p)[0]);
    assert Got(s, p) + [] == Got(s, p);
    if a.Store? {
      NewestLast(s, p);
    } else if a == SendOne(p) && IsFor(s.rows, s.drains[p].unsent[0], p) {
      SendInOrder(ss, acts, n, p);
    }
    hide Tasks, Sane, Next, LiveBefore, Got, Ascends, DrainAscends, Handed;
  }

  lemma NewestLast(s: Server, p: Nick)
    requires Sane(s)
    ensures forall y :: y in Got(s, p) ==> y < |s.rows| + 1
  {
    forall y | y in Got(s, p) ensures y < |s.rows| + 1 {
      ReceivedIsHanded(s.rows, s.out, p, y);
    }
  }

  lemma SendInOrder(ss: seq<Server>, acts: seq<Task>, n: nat, p: Nick)
    requires Tasks(ss, acts) && n < |acts| && |ss| == |acts| + 1 && Ready(ss[n], acts[n])
    requires acts[n] == SendOne(p) && DrainAscends(ss, acts, n, p) && IsFor(ss[n].rows, ss[n].drains[p].unsent[0], p)
    ensures Overtaken(ss, acts, n, p) <==> !(forall y :: y in Got(ss[n], p) ==> y < ss[n].drains[p].unsent[0])
  {
    var (s, u) := (ss[n], ss[n].drains[p].unsent[0]);
    assert u in Unsent(s, p);
    hide Tasks, LiveBefore, Got;
    if Overtaken(ss, acts, n, p) {
      var id :| id >= u && LiveBefore(ss, acts, n, p, id);
      LiveIsHanded(ss, acts, n, p, id);
    } else {
      forall y | y in Got(s, p) ensures y < u {
        GotIsHanded(s, p, y);
        assert LiveBefore(ss, acts, n, p, y) ==> y < u;
      }
    }
  }

  lemma GotIsHanded(s: Server, p: Nick, id: nat)
    ensures id in Got(s, p) ==> Handed(s.out, Delivery(p, id)) > 0
  {
    ReceivedIsHanded(s.rows, s.out, p, id);
  }

  /** The order of arrival, exactly: over every interleaving a recipient is handed its frames
      in id order if and only if no drain ever hands it a frame after a live delivery handed
      it a later one, or that one. */
  lemma {:induction false} InOrderExactly(ss: seq<Server>, acts: seq<Task>, k: nat, p: Nick)
    requires Tasks(ss, acts) && k <= |acts|
    ensures |ss| == |acts| + 1 && forall n :: 0 <= n < |acts| ==> Ready(ss[n], acts[n])
    ensures Ascends(Got(ss[k], p)) <==> forall n :: 0 <= n < k ==> !Overtaken(ss, acts, n, p)
  {
    if k > 0 {
      InOrderExactly(ss, acts, k - 1, p);
      OrderStep(ss, acts, k - 1, p);
      hide Tasks, Overtaken, Got, Ascends;
    }
  }

  // ---- who is online, and what is still to be confirmed -----------------------------------------

  predicate OnlineAt(acts: seq<Task>, k: nat, p: Nick)
    requires k <= |acts|
  {
    k > 0 && (acts[k - 1] == Online(p) || (acts[k - 1] != Offline(p) && OnlineAt(acts, k - 1, p)))
  }

  function Stored(acts: seq<Task>, k: nat): nat
    requires k <= |acts|
  {
    if k == 0 then 0 else Stored(acts, k - 1) + if acts[k - 1].Store? then 1 else 0
  }

  /** The frame was delivered live, and its cursor update neither came nor was given up since. */
  predicate Awaited(acts: seq<Task>, k: nat, d: Delivery)
    requires k <= |acts|
  {
    && k > 0
    && var a := acts[k - 1];
       if a.Store? && a.ok && d == Delivery(a.to, Stored(acts, k)) then true
       else a != Confirm(d) && a != Abandon(d) && Awaited(acts, k - 1, d)
  }

  /** What one step does to these. */
  lemma TaskTells(s: Server, a: Task, p: Nick, d: Delivery)
    requires Ready(s, a)
    ensures var t := Next(s, a);
            && t.rows == s.rows + (if a.Store? then [Row(a.from, a.to)] else [])
            && (p in t.online <==> a == Online(p) || (a != Offline(p) && p in s.online))
            && (p in t.drains ==> (a == Online(p) || (a != Offline(p) && p in s.drains)))
            && (d in t.acks <==> || (a.Store? && a.ok && d == Delivery(a.to, |s.rows| + 1))
                                 || (a != Confirm(d) && a != Abandon(d) && d in s.acks))
  {
    hide Batch;
    assert s.rows + [] == s.rows;
  }

  /** Over every interleaving: a user is online exactly between going online and going offline, only
      users online have a drain, and a live delivery awaits its cursor update exactly until that
      comes or is given up. */
  lemma {:induction false} TasksTold(ss: seq<Server>, acts: seq<Task>, k: nat, p: Nick, d: Delivery)
    requires Tasks(ss, acts) && k <= |acts|
    ensures |ss| == |acts| + 1
    ensures |ss[k].rows| == Stored(acts, k)
    ensures p in ss[k].online <==> OnlineAt(acts, k, p)
    ensures p in ss[k].drains ==> p in ss[k].online
    ensures d in ss[k].acks <==> Awaited(acts, k, d)
  {
    hide Next, Ready;
    if k > 0 {
      TasksTold(ss, acts, k - 1, p, d);
      TaskTells(ss[k - 1], acts[k - 1], p, d);
    }
  }

  /** A frame is handed only to a user online. */
  lemma OnlyOnline(s: Server, a: Task, p: Nick)
    requires Ready(s, a) && p !in s.online && p !in s.drains
    ensures |s.out| <= |Next(s, a).out|
    ensures Next(s, a).out[..|s.out|] == s.out
    ensures forall i :: |s.out| <= i < |Next(s, a).out| ==> Next(s, a).out[i].to != p
  {
    hide Batch;
  }

  /** Between going offline and online again nothing is handed to a user. */
  lemma {:induction false} QuietOffline(ss: seq<Server>, acts: seq<Task>, j: nat, k: nat, p: Nick)
    requires Tasks(ss, acts) && j < k <= |acts| && acts[j] == Offline(p)
    requires forall i :: j < i < k ==> acts[i] != Online(p)
    ensures |ss[j].out| <= |ss[k].out|
    ensures forall i :: |ss[j].out| <= i < |ss[k].out| ==> ss[k].out[i].to != p
    ensures !OnlineAt(acts, k, p)
  {
    if k > j + 1 {
      QuietOffline(ss, acts, j, k - 1, p);
      TasksTold(ss, acts, k - 1, p, Delivery(p, 0));
      OnlyOnline(ss[k - 1], acts[k - 1], p);
      hide Next, Ready, Stored, Awaited;
    }
  }

  // ---- the steps of module Relay ----------------------------------------------------------------

  function Coarse(s: Server): State {
    State(s.rows, s.cursors, s.online, s.out)
  }

  /** p's drain alone, up to its end. */
  function Settle(s: Server, p: Nick): Server
    decreases if p in s.drains then s.drains[p].left + 1 else 0, |Unsent(s, p)|
  {
    if p !in s.drains then s
    else if Unsent(s, p) != [] then Settle(Next(s, SendOne(p)), p)
    else Settle(Next(s, Fetch(p)), p)
  }

  lemma DeliveriesCons(p: Nick, id: nat, rest: seq<nat>)
    ensures Deliveries(p, [id] + rest) == [Delivery(p, id)] + Deliveries(p, rest)
  {}

  lemma DrainedAbove(rows: seq<Row>, p: Nick, cursor: nat, rounds: nat)
    ensures var ids := Drained(rows, p, cursor, rounds); ids != [] ==> After(ids, 0) > cursor
  {
    BatchesConcatenate(rows, p, cursor, rounds);
    PartyFacts(rows, p, cursor, |rows|);
  }

  lemma AdvanceTwice(cursors: map<Nick, nat>, p: Nick, a: nat, b: nat)
    requires a <= b
    ensures Advance(Advance(cursors, p, a), p, b) == Advance(cursors, p, b)
  {}

  lemma SendOneLeaves(s: Server, p: Nick)
    requires Ready(s, SendOne(p))
    ensures var (t, us) := (Next(s, SendOne(p)), s.drains[p].unsent);
            && t == s.(out := s.out + [Delivery(p, us[0])], drains := t.drains)
            && t.drains[p] == Drain(s.drains[p].left, us[1..]) && t.drains - {p} == s.drains - {p}
  {
    assert Next(s, SendOne(p)).drains - {p} == s.drains - {p};
  }

  lemma FetchLeaves(s: Server, p: Nick)
    requires Ready(s, Fetch(p))
    ensures var (t, left, c) := (Next(s, Fetch(p)), s.drains[p].left, Cursor(s.cursors, p));
            var b := if left == 0 then [] else Batch(s.rows, p, c, BATCH);
            && t.drains - {p} == s.drains - {p}
            && (if b == [] then
                  t == s.(drains := s.drains - {p}) && Drained(s.rows, p, c, left) == []
                else
                  && t == s.(cursors := Advance(s.cursors, p, After(b, 0)), drains := t.drains)
                  && p in t.drains && t.drains[p] == Drain(left - 1, b)
                  && Cursor(t.cursors, p) == After(b, 0)
                  && Drained(s.rows, p, c, left) == b + Drained(s.rows, p, After(b, 0), left - 1))
  {
    var left := s.drains[p].left;
    if left > 0 {
      DrainedStep(s.rows, p, Cursor(s.cursors, p), left);
    } else {
      NoRounds(s.rows, p, Cursor(s.cursors, p));
    }
    hide Batch, Drained;
    assert Next(s, Fetch(p)).drains - {p} == s.drains - {p};
  }

  /** t is s after what is left of p's drain: the rest of its batch was handed over, and
      then what the remaining rounds fetch. */
  predicate Settled(s: Server, p: Nick, t: Server)
    requires p in s.drains
  {
    var ids := Drained(s.rows, p, Cursor(s.cursors, p), s.drains[p].left);
    && t.rows == s.rows && t.online == s.online && t.acks == s.acks && t.drains == s.drains - {p}
    && t.out == s.out + Deliveries(p, s.drains[p].unsent + ids)
    && t.cursors == if ids == [] then s.cursors else Advance(s.cursors, p, After(ids, 0))
  }

  lemma SendSettles(s: Server, p: Nick, t: Server)
    requires Ready(s, SendOne(p))
    ensures p in Next(s, SendOne(p)).drains
    ensures Settled(Next(s, SendOne(p)), p, t) ==> Settled(s, p, t)
  {
    SendOneLeaves(s, p);
    hide Next, Drained, Deliveries;
    var us, ids := s.drains[p].unsent, Drained(s.rows, p, Cursor(s.cursors, p), s.drains[p].left);
    assert us + ids == [us[0]] + (us[1..] + ids);
    DeliveriesCons(p, us[0], us[1..] + ids);
  }

  lemma FetchSettles(s: Server, p: Nick, t: Server)
    requires Ready(s, Fetch(p))
    ensures var s1 := Next(s, Fetch(p)); if p in s1.drains then Settled(s1, p, t) ==> Settled(s, p, t) else Settled(s, p, s1)
  {
    hide Next, Drained, Batch, Deliveries, Advance, Cursor;
    FetchLeaves(s, p);
    NoDeliveries(p);
    var s1, left, c := Next(s, Fetch(p)), s.drains[p].left, Cursor(s.cursors, p);
    assert s.drains[p].unsent + Drained(s.rows, p, c, left) == Drained(s.rows, p, c, left);
    if p in s1.drains {
      var b := s1.drains[p].unsent;
      AfterBoth(s.rows, s.cursors, p, b, left - 1);
    }
  }

  /** The cursor after a batch and after what the rounds behind it fetch. */
  lemma AfterBoth(rows: seq<Row>, cursors: map<Nick, nat>, p: Nick, b: seq<nat>, rounds: nat)
    requires b != []
    ensures var rest := Drained(rows, p, After(b, 0), rounds);
            Advance(cursors, p, After(b + rest, 0))
              == if rest == [] then Advance(cursors, p, After(b, 0))
                 else Advance(Advance(cursors, p, After(b, 0)), p, After(rest, 0))
  {
    DrainedAbove(rows, p, After(b, 0), rounds);
    hide Drained;
    var rest := Drained(rows, p, After(b, 0), rounds);
    if rest == [] {
      assert b + rest == b;
    } else {
      AdvanceTwice(cursors, p, After(b, 0), After(rest, 0));
    }
  }

  lemma {:induction false} SettleDrains(s: Server, p: Nick)
    requires p in s.drains
    ensures Settled(s, p, Settle(s, p))
    decreases s.drains[p].left, |s.drains[p].unsent|
  {
    var t := Settle(s, p);
    if s.drains[p].unsent != [] {
      SendOneLeaves(s, p);
      SendSettles(s, p, t);
      hide Settled, Next;
      SettleDrains(Next(s, SendOne(p)), p);
    } else {
      FetchLeaves(s, p);
      FetchSettles(s, p, t);
      hide Settled, Next, Drained, Batch;
      if p in Next(s, Fetch(p)).drains {
        SettleDrains(Next(s, Fetch(p)), p);
      }
    }
  }

  /** A login whose drain nothing interrupts is module Relay's. */
  lemma LoginUndisturbed(s: Server, p: Nick)
    requires Ready(s, Online(p))
    ensures var t := Settle(Next(s, Online(p)), p);
            Coarse(t) == Step(Coarse(s), Login(p)) && t.drains == s.drains && t.acks == s.acks
  {
    var s1 := Next(s, Online(p));
    SettleDrains(s1, p);
    assert s1.drains - {p} == s.drains;
    var ids := Drained(s.rows, p, Cursor(s.cursors, p), ROUNDS);
    assert [] + ids == ids;
    hide Drained, Settle;
  }

  /** A live message whose cursor update follows at once is module Relay's, and one to a
      recipient that is offline needs no update. */
  lemma MsgUndisturbed(s: Server, x: Nick, p: Nick)
    requires Ready(s, Store(x, p, p in s.online))
    ensures var s1 := Next(s, Store(x, p, p in s.online));
            var d := Delivery(p, |s1.rows|);
            && (p in s.online ==> Ready(s1, Confirm(d)))
            && Step(Coarse(s), Msg(x, p)) == Coarse(if p in s.online then Next(s1, Confirm(d)) else s1)
  {}
}
