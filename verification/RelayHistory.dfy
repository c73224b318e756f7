/**
 The relay told by what it was asked: who is online, which messages are stored, what each login
 and each message hands over and where a cursor stands follow from the list of actions.
 */
module RelayHistory {
  import opened Relay

  predicate OnlineAt(acts: seq<Action>, k: nat, p: Nick)
    requires k <= |acts|
  {
    k > 0 && (acts[k - 1] == Login(p) || (acts[k - 1] != Logout(p) && OnlineAt(acts, k - 1, p)))
  }

  /** Action k is a message that is stored: its sender is logged in and does not write to itself. */
  predicate Stores(acts: seq<Action>, k: nat)
    requires k < |acts|
  {
    acts[k].Msg? && acts[k].from != acts[k].to && OnlineAt(acts, k, acts[k].from)
  }

  /** The messages stored by the first k actions, in order. */
  function RowsAt(acts: seq<Action>, k: nat): seq<Row>
    requires k <= |acts|
  {
    if k == 0 then []
    else RowsAt(acts, k - 1) + if Stores(acts, k - 1) then [Row(acts[k - 1].from, acts[k - 1].to)] else []
  }

  /** The last frame handed to p, 0 if there is none. */
  function LastTo(out: seq<Delivery>, p: Nick): nat {
    if out == [] then 0
    else if out[|out| - 1].to == p then out[|out| - 1].id
    else LastTo(out[..|out| - 1], p)
  }

  predicate Increasing(ids: seq<nat>) {
    forall i, j :: 0 <= i < j < |ids| ==> ids[i] < ids[j]
  }

  /** The row of message `id` was sent by p or to p. */
  predicate Concerns(rows: seq<Row>, id: nat, p: Nick) {
    0 < id <= |rows| && (rows[id - 1].sender == p || rows[id - 1].recipient == p)
  }

  /** What a login of p hands over: ids in order, all of them messages p sent or was sent after
      the last one it had, and every such message unless the cap is reached, in which case those
      left out come later. */
  ghost predicate Backlog(rows: seq<Row>, p: Nick, last: nat, ids: seq<nat>) {
    && Increasing(ids) && |ids| <= CAP
    && (forall i :: 0 <= i < |ids| ==> last < ids[i] && Concerns(rows, ids[i], p))
    && (forall id: nat :: last < id && Concerns(rows, id, p) ==>
         id in ids || (|ids| == CAP && ids[CAP - 1] < id))
  }

  /** The state after the first k actions. */
  ghost predicate AsTold(s: State, acts: seq<Action>, k: nat)
    requires k <= |acts|
  {
    && s.rows == RowsAt(acts, k)
    && (forall p: Nick :: p in s.online <==> OnlineAt(acts, k, p))
    && (forall p: Nick :: Cursor(s.cursors, p) == LastTo(s.out, p))
    && InRange(s)
  }

  lemma {:induction false} PartyIncreases(rows: seq<Row>, p: Nick, lo: nat, hi: nat)
    requires hi <= |rows|
    ensures var all := Party(rows, p, lo, hi);
            && Increasing(all)
            && (forall id: nat :: lo < id <= hi && Concerns(rows, id, p) ==> id in all)
            && (forall i :: 0 <= i < |all| ==> lo < all[i] <= hi && Concerns(rows, all[i], p))
    decreases hi - lo
  {
    if lo < hi {
      PartyIncreases(rows, p, lo + 1, hi);
      var (all, rest) := (Party(rows, p, lo, hi), Party(rows, p, lo + 1, hi));
      if rows[lo].sender == p || rows[lo].recipient == p {
        assert all == [lo + 1] + rest;
        hide Party;
        FirstOfParty(rows, p, lo, hi, rest);
      }
    }
  }

  lemma FirstOfParty(rows: seq<Row>, p: Nick, lo: nat, hi: nat, rest: seq<nat>)
    requires lo < hi <= |rows| && Concerns(rows, lo + 1, p) && Increasing(rest)
    requires forall id: nat :: lo + 1 < id <= hi && Concerns(rows, id, p) ==> id in rest
    requires forall i :: 0 <= i < |rest| ==> lo + 1 < rest[i] <= hi && Concerns(rows, rest[i], p)
    ensures var all := [lo + 1] + rest;
            && Increasing(all)
            && (forall id: nat :: lo < id <= hi && Concerns(rows, id, p) ==> id in all)
            && (forall i :: 0 <= i < |all| ==> lo < all[i] <= hi && Concerns(rows, all[i], p))
  {
    hide Concerns;
    var all := [lo + 1] + rest;
    assert forall i :: 0 < i < |all| ==> all[i] == rest[i - 1];
  }

  lemma CutIsBacklog(rows: seq<Row>, p: Nick, last: nat, all: seq<nat>)
    requires Increasing(all)
    requires forall i :: 0 <= i < |all| ==> last < all[i] && Concerns(rows, all[i], p)
    requires forall id: nat :: last < id && Concerns(rows, id, p) ==> id in all
    ensures Backlog(rows, p, last, all[..Min(CAP, |all|)])
  {
    hide Concerns;
    var ids := all[..Min(CAP, |all|)];
    forall id: nat | last < id && Concerns(rows, id, p) ensures id in ids || (|ids| == CAP && ids[CAP - 1] < id) {
      var i :| 0 <= i < |all| && all[i] == id;
      if i < |ids| { assert ids[i] == id; }
    }
  }

  /** A login hands over the backlog. */
  lemma LoginHands(s: State, p: Nick)
    ensures Backlog(s.rows, p, Cursor(s.cursors, p), LoginIds(s, p))
  {
    var c := Cursor(s.cursors, p);
    BatchesConcatenate(s.rows, p, c, ROUNDS);
    PartyIncreases(s.rows, p, c, |s.rows|);
    hide Party, Drained;
    CutIsBacklog(s.rows, p, c, Party(s.rows, p, c, |s.rows|));
  }

  lemma {:induction false} LastToAppend(out: seq<Delivery>, q: Nick, ids: seq<nat>, p: Nick)
    ensures LastTo(out + Deliveries(q, ids), p) == if q == p && ids != [] then ids[|ids| - 1] else LastTo(out, p)
    decreases |ids|
  {
    if ids == [] {
      assert out + Deliveries(q, ids) == out;
    } else {
      var n := |ids| - 1;
      var all := out + Deliveries(q, ids);
      assert all[..|all| - 1] == out + Deliveries(q, ids[..n]);
      LastToAppend(out, q, ids[..n], p);
    }
  }

  lemma LoginTold(s: State, acts: seq<Action>, k: nat)
    requires k < |acts| && AsTold(s, acts, k) && acts[k].Login?
    ensures AsTold(Step(s, acts[k]), acts, k + 1)
  {
    var (p, t) := (acts[k].nick, Step(s, acts[k]));
    var ids := LoginIds(s, p);
    LoginEffect(s, p);
    LoginHands(s, p);
    assert t.out == s.out + Deliveries(p, ids);
    forall q: Nick ensures Cursor(t.cursors, q) == LastTo(t.out, q) {
      LastToAppend(s.out, p, ids, q);
      assert Cursor(s.cursors, q) == LastTo(s.out, q);
      hide Drained, Party, LastTo, Deliveries, Received, To;
    }
    hide Drained, Party, LastTo, Deliveries, Received, To;
  }

  lemma MsgTold(s: State, acts: seq<Action>, k: nat)
    requires k < |acts| && AsTold(s, acts, k) && acts[k].Msg?
    ensures AsTold(Step(s, acts[k]), acts, k + 1)
  {
    var (x, p, t) := (acts[k].from, acts[k].to, Step(s, acts[k]));
    var id := |s.rows| + 1;
    assert Deliveries(p, [id]) == [Delivery(p, id)];
    forall q: Nick ensures Cursor(t.cursors, q) == LastTo(t.out, q) {
      LastToAppend(s.out, p, [id], q);
      assert Cursor(s.cursors, q) == LastTo(s.out, q) <= |s.rows|;
      hide LastTo, Deliveries;
    }
    hide LastTo, Deliveries;
  }

  lemma {:induction false} RunTold(ss: seq<State>, acts: seq<Action>, k: nat)
    requires Run(ss, acts) && k <= |acts|
    ensures AsTold(ss[k], acts, k)
  {
    if k > 0 {
      RunTold(ss, acts, k - 1);
      hide AsTold, Step;
      match acts[k - 1]
      case Login(_) => LoginTold(ss[k - 1], acts, k - 1);
      case Logout(_) => LogoutTold(ss[k - 1], acts, k - 1);
      case Msg(_, _) => MsgTold(ss[k - 1], acts, k - 1);
    }
  }

  lemma LogoutTold(s: State, acts: seq<Action>, k: nat)
    requires k < |acts| && AsTold(s, acts, k) && acts[k].Logout?
    ensures AsTold(Step(s, acts[k]), acts, k + 1)
  {}

  /** Over every run the relay's state follows from the actions: the messages stored are those of
      senders logged in, a user is online exactly between login and logout, and a cursor stands
      at the last frame handed to its user. */
  lemma StateExactly(ss: seq<State>, acts: seq<Action>, k: nat, p: Nick)
    requires Run(ss, acts) && k <= |acts|
    ensures ss[k].rows == RowsAt(acts, k)
    ensures p in ss[k].online <==> OnlineAt(acts, k, p)
    ensures Cursor(ss[k].cursors, p) == LastTo(ss[k].out, p)
  {
    RunTold(ss, acts, k);
  }

  /** And what an action hands over: a login the backlog of that user, a message that is stored
      itself, if its recipient is online, and nothing else ever. */
  lemma HandsExactly(ss: seq<State>, acts: seq<Action>, k: nat) returns (ids: seq<nat>)
    requires Run(ss, acts) && k < |acts|
    ensures var rows := RowsAt(acts, k);
            match acts[k]
            case Login(p) => Backlog(rows, p, LastTo(ss[k].out, p), ids) && ss[k + 1].out == ss[k].out + Deliveries(p, ids)
            case Logout(_) => ss[k + 1].out == ss[k].out
            case Msg(_, p) =>
              ss[k + 1].out == ss[k].out + if Stores(acts, k) && OnlineAt(acts, k, p) then [Delivery(p, |rows| + 1)] else []
  {
    RunTold(ss, acts, k);
    if acts[k].Login? {
      ids := LoginIds(ss[k], acts[k].nick);
      LoginHands(ss[k], acts[k].nick);
      hide Drained, Backlog, LastTo, RowsAt;
    } else {
      ids := [];
    }
  }

  /** An action other than a login hands nothing to a user who is offline. */
  lemma OthersOnly(s: State, a: Action, p: Nick)
    requires p !in s.online && a != Login(p)
    ensures var t := Step(s, a);
            && s.out <= t.out && Cursor(t.cursors, p) == Cursor(s.cursors, p)
            && forall i :: |s.out| <= i < |t.out| ==> t.out[i].to != p
  {
    hide Drained;
  }

  /** Between a logout and the next login nothing is handed to the user and its cursor stays. */
  lemma {:induction false} QuietWhileOffline(ss: seq<State>, acts: seq<Action>, j: nat, k: nat, p: Nick)
    requires Run(ss, acts) && j < k <= |acts| && acts[j] == Logout(p)
    requires forall i :: j < i < k ==> acts[i] != Login(p)
    ensures |ss[j].out| <= |ss[k].out|
    ensures forall i :: |ss[j].out| <= i < |ss[k].out| ==> ss[k].out[i].to != p
    ensures Cursor(ss[k].cursors, p) == Cursor(ss[j].cursors, p)
    ensures !OnlineAt(acts, k, p)
  {
    if k > j + 1 {
      QuietWhileOffline(ss, acts, j, k - 1, p);
      RunTold(ss, acts, k - 1);
      OthersOnly(ss[k - 1], acts[k - 1], p);
      hide Step, RowsAt, LastTo, InRange;
    }
  }
}
