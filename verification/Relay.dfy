/**
 server/server.py: stored messages, one delivery cursor per recipient, the login drain and
 live delivery.

 A login with its drain, and a live delivery with its cursor update, are single steps here;
 RelayAwaits takes them apart.
 */
module Relay {
  type Nick = nat

  const BATCH: nat := 50
  const ROUNDS: nat := 400
  const CAP: nat := 20000

  datatype Row = Row(sender: Nick, recipient: Nick)

  /** Frame `id` handed to the socket of `to`. */
  datatype Delivery = Delivery(to: Nick, id: nat)

  /** rows[i] is the message with id i + 1; ids are never reused and rows never deleted. */
  datatype State = State(rows: seq<Row>, cursors: map<Nick, nat>, online: set<Nick>, out: seq<Delivery>)

  function Cursor(cursors: map<Nick, nat>, nick: Nick): nat {
    if nick in cursors then cursors[nick] else 0
  }

  function Max(a: nat, b: nat): nat {
    if a >= b then a else b
  }

  function Advance(cursors: map<Nick, nat>, nick: Nick, id: nat): map<Nick, nat> {
    cursors[nick := Max(Cursor(cursors, nick), id)]
  }

  predicate IsParty(r: Row, nick: Nick) {
    r.sender == nick || r.recipient == nick
  }

  /** Message `id` is addressed to p. */
  predicate IsFor(rows: seq<Row>, id: int, p: Nick) {
    0 < id <= |rows| && rows[id - 1].recipient == p
  }

  /** Ids in (lo, hi] of the rows nick is party to, ascending. */
  function Party(rows: seq<Row>, nick: Nick, lo: nat, hi: nat): seq<nat>
    requires hi <= |rows|
    decreases hi - lo
  {
    if lo >= hi then []
    else if IsParty(rows[lo], nick) then [lo + 1] + Party(rows, nick, lo + 1, hi)
    else Party(rows, nick, lo + 1, hi)
  }

  /** Ids in (lo, hi] of the rows addressed to nick, ascending. */
  function To(rows: seq<Row>, nick: Nick, lo: nat, hi: nat): seq<nat>
    requires hi <= |rows|
    decreases hi - lo
  {
    if lo >= hi then []
    else if rows[lo].recipient == nick then [lo + 1] + To(rows, nick, lo + 1, hi)
    else To(rows, nick, lo + 1, hi)
  }

  function Min(a: nat, b: nat): nat {
    if a <= b then a else b
  }

  /** history_for's query and the cursor it leaves. */
  function Batch(rows: seq<Row>, nick: Nick, cursor: nat, limit: nat): seq<nat> {
    var all := Party(rows, nick, cursor, |rows|);
    all[..Min(limit, |all|)]
  }

  function After(ids: seq<nat>, cursor: nat): nat {
    if ids == [] then cursor else ids[|ids| - 1]
  }

  /** At most `rounds` calls of history_for, stopping at the first empty batch. */
  function Drained(rows: seq<Row>, nick: Nick, cursor: nat, rounds: nat): seq<nat>
    decreases rounds
  {
    if rounds == 0 then []
    else
      var b := Batch(rows, nick, cursor, BATCH);
      if b == [] then [] else b + Drained(rows, nick, After(b, cursor), rounds - 1)
  }

  function Deliveries(nick: Nick, ids: seq<nat>): seq<Delivery> {
    seq(|ids|, i requires 0 <= i < |ids| => Delivery(nick, ids[i]))
  }

  datatype Action = Login(nick: Nick) | Logout(nick: Nick) | Msg(from: Nick, to: Nick)

  function Step(s: State, a: Action): State {
    match a
    case Login(p) =>
      var ids := Drained(s.rows, p, Cursor(s.cursors, p), ROUNDS);
      s.(online := s.online + {p}, out := s.out + Deliveries(p, ids),
         cursors := if ids == [] then s.cursors else Advance(s.cursors, p, After(ids, 0)))
    case Logout(p) => s.(online := s.online - {p})
    case Msg(x, p) =>
      if x !in s.online || x == p then s      // not logged in, or addressed to itself
      else
        var id := |s.rows| + 1;
        var s1 := s.(rows := s.rows + [Row(x, p)]);
        if p in s.online then s1.(out := s1.out + [Delivery(p, id)], cursors := Advance(s1.cursors, p, id)) else s1
  }

  ghost predicate Run(ss: seq<State>, acts: seq<Action>) {
    && |ss| == |acts| + 1
    && ss[0] == State([], map[], {}, [])
    && forall k :: 0 <= k < |acts| ==> ss[k + 1] == Step(ss[k], acts[k])
  }

  // ---- the batches ---------------------------------------------------------------------------

  lemma {:induction false} PartyFacts(rows: seq<Row>, nick: Nick, lo: nat, hi: nat)
    requires hi <= |rows|
    ensures forall i :: 0 <= i < |Party(rows, nick, lo, hi)| ==>
              lo < Party(rows, nick, lo, hi)[i] <= hi && IsParty(rows[Party(rows, nick, lo, hi)[i] - 1], nick)
    decreases hi - lo
  {
    if lo < hi { PartyFacts(rows, nick, lo + 1, hi); }
  }

  /** What is above the k-th id of the list is the rest of the list. */
  lemma {:induction false} PartySplit(rows: seq<Row>, nick: Nick, lo: nat, hi: nat, k: nat)
    requires hi <= |rows| && 0 < k <= |Party(rows, nick, lo, hi)|
    ensures Party(rows, nick, Party(rows, nick, lo, hi)[k - 1], hi) == Party(rows, nick, lo, hi)[k..]
    decreases hi - lo
  {
    if lo < hi {
      if IsParty(rows[lo], nick) {
        if k > 1 { PartySplit(rows, nick, lo + 1, hi, k - 1); }
      } else {
        PartySplit(rows, nick, lo + 1, hi, k);
      }
    }
  }

  /** The repeated batches concatenate to exactly the rows above the cursor, up to the cap
      on the number of batches. */
  lemma {:induction false} BatchesConcatenate(rows: seq<Row>, nick: Nick, cursor: nat, rounds: nat)
    ensures var all := Party(rows, nick, cursor, |rows|);
            Drained(rows, nick, cursor, rounds) == all[..Min(rounds * BATCH, |all|)]
    decreases rounds
  {
    var all := Party(rows, nick, cursor, |rows|);
    if rounds > 0 && all != [] {
      var b := Batch(rows, nick, cursor, BATCH);
      PartySplit(rows, nick, cursor, |rows|, |b|);
      BatchesConcatenate(rows, nick, After(b, cursor), rounds - 1);
      var rest := all[|b|..];
      assert all[..Min(rounds * BATCH, |all|)] == b + rest[..Min((rounds - 1) * BATCH, |rest|)];
    }
  }

  // ---- what a client has received ------------------------------------------------------------

  /** Ids of the frames addressed to p that reached p, in the order they did. */
  function Received(rows: seq<Row>, out: seq<Delivery>, p: Nick): seq<nat>
    decreases |out|
  {
    if out == [] then []
    else
      var d := out[|out| - 1];
      var before := Received(rows, out[..|out| - 1], p);
      if d.to == p && IsFor(rows, d.id, p) then before + [d.id] else before
  }

  function Filter(rows: seq<Row>, ids: seq<nat>, p: Nick): seq<nat> {
    if ids == [] then []
    else if IsFor(rows, ids[0], p) then [ids[0]] + Filter(rows, ids[1..], p)
    else Filter(rows, ids[1..], p)
  }

  lemma {:induction false} ReceivedAppend(rows: seq<Row>, out: seq<Delivery>, to: Nick, ids: seq<nat>, p: Nick)
    ensures Received(rows, out + Deliveries(to, ids), p)
         == Received(rows, out, p) + (if to == p then Filter(rows, ids, p) else [])
    decreases |ids|
  {
    if ids == [] {
      assert out + Deliveries(to, ids) == out;
    } else {
      var d := Delivery(to, ids[0]);
      assert out + Deliveries(to, ids) == (out + [d]) + Deliveries(to, ids[1..]);
      assert (out + [d])[..|out|] == out;
      ReceivedAppend(rows, out + [d], to, ids[1..], p);
    }
  }

  lemma {:induction false} ReceivedGrowing(rows: seq<Row>, r: Row, out: seq<Delivery>, p: Nick)
    requires forall i :: 0 <= i < |out| ==> out[i].id <= |rows|
    ensures Received(rows + [r], out, p) == Received(rows, out, p)
    decreases |out|
  {
    if out != [] { ReceivedGrowing(rows, r, out[..|out| - 1], p); }
  }

  lemma {:induction false} ToFacts(rows: seq<Row>, p: Nick, lo: nat, hi: nat)
    requires hi <= |rows|
    ensures var t := To(rows, p, lo, hi);
            && (forall i :: 0 <= i < |t| ==> lo < t[i] <= hi && IsFor(rows, t[i], p))
            && (forall i, j :: 0 <= i < j < |t| ==> t[i] < t[j])
            && (forall id :: lo < id <= hi && IsFor(rows, id, p) ==> id in t)
    decreases hi - lo
  {
    if lo < hi {
      ToFacts(rows, p, lo + 1, hi);
      var rest := To(rows, p, lo + 1, hi);
      if rows[lo].recipient == p {
        var t := To(rows, p, lo, hi);
        assert t == [lo + 1] + rest;
        assert forall i :: 0 < i < |t| ==> t[i] == rest[i - 1];
        assert t[0] == lo + 1;
      }
      forall id | lo < id <= hi && IsFor(rows, id, p) ensures id in To(rows, p, lo, hi) {
        assert id != lo + 1 ==> id in rest;
      }
    }
  }

  lemma {:induction false} ToSplit(rows: seq<Row>, p: Nick, lo: nat, mid: nat, hi: nat)
    requires lo <= mid <= hi <= |rows|
    ensures To(rows, p, lo, hi) == To(rows, p, lo, mid) + To(rows, p, mid, hi)
    decreases mid - lo
  {
    if lo < mid { ToSplit(rows, p, lo + 1, mid, hi); }
  }

  lemma {:induction false} ToGrowing(rows: seq<Row>, r: Row, p: Nick, lo: nat, hi: nat)
    requires hi <= |rows|
    ensures To(rows + [r], p, lo, hi) == To(rows, p, lo, hi)
    decreases hi - lo
  {
    if lo < hi { ToGrowing(rows, r, p, lo + 1, hi); }
  }

  /** Of the first k party rows above a cursor, those addressed to p are all the rows
      addressed to p up to the k-th. */
  lemma {:induction false} FilterParty(rows: seq<Row>, p: Nick, lo: nat, k: nat)
    requires k <= |Party(rows, p, lo, |rows|)|
    ensures var ids := Party(rows, p, lo, |rows|)[..k];
            && After(ids, lo) <= Max(lo, |rows|) && After(ids, lo) >= lo
            && (After(ids, lo) <= |rows| ==> Filter(rows, ids, p) == To(rows, p, lo, After(ids, lo)))
    decreases |rows| - lo
  {
    var all := Party(rows, p, lo, |rows|);
    if lo < |rows| && k > 0 {
      if IsParty(rows[lo], p) {
        FilterParty(rows, p, lo + 1, k - 1);
        PartyFacts(rows, p, lo + 1, |rows|);
        var rest := Party(rows, p, lo + 1, |rows|);
        assert all[..k] == [lo + 1] + rest[..k - 1];
        assert all[..k][1..] == rest[..k - 1];
        assert After(all[..k], lo) == After(rest[..k - 1], lo + 1);
      } else {
        FilterParty(rows, p, lo + 1, k);
        assert After(all[..k], lo) == After(all[..k], lo + 1);
      }
    }
  }

  // ---- the invariant ---------------------------------------------------------------------------

  predicate InRange(s: State) {
    && (forall p <- s.cursors :: s.cursors[p] <= |s.rows|)
    && (forall i :: 0 <= i < |s.out| ==> s.out[i].id <= |s.rows|)
  }

  function Got(s: State, p: Nick): seq<nat> {
    Received(s.rows, s.out, p)
  }

  /** p has received exactly the rows addressed to it up to its cursor. */
  predicate UpToCursor(s: State, p: Nick) {
    Cursor(s.cursors, p) <= |s.rows| && Got(s, p) == To(s.rows, p, 0, Cursor(s.cursors, p))
  }

  predicate NothingAbove(s: State, p: Nick) {
    Cursor(s.cursors, p) <= |s.rows| && To(s.rows, p, Cursor(s.cursors, p), |s.rows|) == []
  }

  ghost predicate Inv(s: State) {
    InRange(s) && forall p :: UpToCursor(s, p) && (p in s.online ==> NothingAbove(s, p))
  }

  /** What a login hands over. */
  function LoginIds(s: State, p: Nick): seq<nat> {
    Drained(s.rows, p, Cursor(s.cursors, p), ROUNDS)
  }

  lemma LoginEffect(s: State, p: Nick)
    requires InRange(s)
    ensures var all := Party(s.rows, p, Cursor(s.cursors, p), |s.rows|);
            var s' := Step(s, Login(p));
            var c' := Cursor(s'.cursors, p);
            && LoginIds(s, p) == all[..Min(CAP, |all|)]
            && Cursor(s.cursors, p) <= c' <= |s.rows|
            && c' == After(LoginIds(s, p), Cursor(s.cursors, p))
            && Got(s', p) == Got(s, p) + To(s.rows, p, Cursor(s.cursors, p), c')
            && InRange(s')
  {
    var c := Cursor(s.cursors, p);
    var all := Party(s.rows, p, c, |s.rows|);
    var ids := LoginIds(s, p);
    BatchesConcatenate(s.rows, p, c, ROUNDS);
    FilterParty(s.rows, p, c, |ids|);
    PartyFacts(s.rows, p, c, |s.rows|);
    ReceivedAppend(s.rows, s.out, p, ids, p);
  }

  lemma LoginOthers(s: State, p: Nick, q: Nick)
    requires q != p
    ensures var s' := Step(s, Login(p)); Got(s', q) == Got(s, q) && Cursor(s'.cursors, q) == Cursor(s.cursors, q)
  {
    ReceivedAppend(s.rows, s.out, p, LoginIds(s, p), q);
  }

  predicate NoneFor(rows: seq<Row>, ids: seq<nat>, p: Nick) {
    forall i :: 0 <= i < |ids| ==> !IsFor(rows, ids[i], p)
  }

  /** Rows addressed to p among the backlog that a login's cap leaves behind. */
  predicate LeftBehind(s: State, p: Nick) {
    var all := Party(s.rows, p, Cursor(s.cursors, p), |s.rows|);
    |all| > CAP && !NoneFor(s.rows, all[CAP..], p)
  }

  lemma {:induction false} TailForP(rows: seq<Row>, p: Nick, lo: nat)
    requires lo <= |rows|
    ensures To(rows, p, lo, |rows|) == [] <==> NoneFor(rows, Party(rows, p, lo, |rows|), p)
    decreases |rows| - lo
  {
    if lo < |rows| {
      TailForP(rows, p, lo + 1);
      var rest := Party(rows, p, lo + 1, |rows|);
      if IsParty(rows[lo], p) {
        NoneForCons(rows, lo + 1, rest, p);
      }
    }
  }

  lemma NoneForCons(rows: seq<Row>, id: nat, ids: seq<nat>, p: Nick)
    ensures NoneFor(rows, [id] + ids, p) <==> !IsFor(rows, id, p) && NoneFor(rows, ids, p)
  {
    var all := [id] + ids;
    assert forall i :: 0 <= i < |ids| ==> ids[i] == all[i + 1];
    assert all[0] == id;
    assert forall i :: 0 < i < |all| ==> all[i] == ids[i - 1];
  }

  /** A login hands over everything stored for p exactly when the cap leaves none of p's
      rows behind; rows p sent itself count towards the cap. */
  lemma LoginDeliversAllExactly(s: State, p: Nick)
    requires Inv(s)
    ensures var s' := Step(s, Login(p));
            && UpToCursor(s', p)
            && (NothingAbove(s', p) <==> !LeftBehind(s, p))
            && (Got(s', p) == To(s.rows, p, 0, |s.rows|) <==> !LeftBehind(s, p))
  {
    var c := Cursor(s.cursors, p);
    var all := Party(s.rows, p, c, |s.rows|);
    var s' := Step(s, Login(p));
    var c' := Cursor(s'.cursors, p);
    assert UpToCursor(s, p);
    LoginEffect(s, p);
    ToSplit(s.rows, p, 0, c, c');
    ToSplit(s.rows, p, 0, c', |s.rows|);
    assert NothingAbove(s', p) <==> !LeftBehind(s, p) by {
      TailForP(s.rows, p, c');
      RestOfParty(s, p);
    }
    hide Party, To, Step, Drained;
  }

  /** Above the cursor a login leaves, the party rows are those beyond the cap. */
  lemma RestOfParty(s: State, p: Nick)
    requires InRange(s)
    ensures var all := Party(s.rows, p, Cursor(s.cursors, p), |s.rows|);
            var c' := Cursor(Step(s, Login(p)).cursors, p);
            Party(s.rows, p, c', |s.rows|) == all[Min(CAP, |all|)..]
  {
    LoginEffect(s, p);
    var all := Party(s.rows, p, Cursor(s.cursors, p), |s.rows|);
    if all != [] {
      PartySplit(s.rows, p, Cursor(s.cursors, p), |s.rows|, Min(CAP, |all|));
    }
  }

  /** A message that is stored: the sender is logged in and does not address itself. */
  predicate Accepted(s: State, x: Nick, p: Nick) {
    x in s.online && x != p
  }

  lemma MsgEffect(s: State, x: Nick, p: Nick, q: Nick)
    requires InRange(s) && Accepted(s, x, p)
    ensures var s' := Step(s, Msg(x, p));
            var live := q == p && p in s.online;
            && InRange(s') && s'.rows == s.rows + [Row(x, p)]
            && Got(s', q) == Got(s, q) + (if live then [|s'.rows|] else [])
            && Cursor(s'.cursors, q) == (if live then |s'.rows| else Cursor(s.cursors, q))
  {
    var s' := Step(s, Msg(x, p));
    var id := |s'.rows|;
    ReceivedGrowing(s.rows, Row(x, p), s.out, q);
    assert Deliveries(p, [id]) == [Delivery(p, id)];
    ReceivedAppend(s'.rows, s.out, p, [id], q);
    assert IsFor(s'.rows, id, p);
    assert Filter(s'.rows, [id], p) == [id];
  }

  lemma MsgInv(s: State, x: Nick, p: Nick, q: Nick)
    requires InRange(s) && Accepted(s, x, p)
    requires UpToCursor(s, q) && (q in s.online ==> NothingAbove(s, q))
    ensures var s' := Step(s, Msg(x, p)); UpToCursor(s', q) && (q in s'.online ==> NothingAbove(s', q))
  {
    var s' := Step(s, Msg(x, p));
    var (n, c) := (|s.rows|, Cursor(s.cursors, q));
    MsgEffect(s, x, p, q);
    ToGrowing(s.rows, Row(x, p), q, 0, c);
    ToGrowing(s.rows, Row(x, p), q, c, n);
    ToSplit(s'.rows, q, 0, c, n);
    ToSplit(s'.rows, q, 0, n, n + 1);
    ToSplit(s'.rows, q, c, n, n + 1);
    assert To(s'.rows, q, n, n + 1) == if p == q then [n + 1] else [];
    hide Received, Step;
  }

  lemma LoginInv(s: State, p: Nick)
    requires Inv(s) && !LeftBehind(s, p)
    ensures Inv(Step(s, Login(p)))
  {
    var s' := Step(s, Login(p));
    LoginEffect(s, p);
    LoginDeliversAllExactly(s, p);
    forall q | q != p ensures UpToCursor(s', q) && (q in s'.online ==> NothingAbove(s', q)) {
      assert UpToCursor(s, q);
      LoginOthers(s, p, q);
    }
  }

  lemma StepInv(s: State, a: Action)
    requires Inv(s) && (a.Login? ==> !LeftBehind(s, a.nick))
    ensures Inv(Step(s, a))
  {
    match a
    case Login(p) => LoginInv(s, p);
    case Logout(p) =>
      var s' := Step(s, a);
      forall q ensures UpToCursor(s', q) && (q in s'.online ==> NothingAbove(s', q)) {
        assert UpToCursor(s, q);
      }
    case Msg(x, p) =>
      if Accepted(s, x, p) {
        MsgEffect(s, x, p, p);
        forall q ensures UpToCursor(Step(s, a), q) && (q in Step(s, a).online ==> NothingAbove(Step(s, a), q)) {
          assert UpToCursor(s, q);
          MsgInv(s, x, p, q);
        }
      }
  }

  /** No login of the run leaves anything behind its cap. */
  ghost predicate CapSuffices(ss: seq<State>, acts: seq<Action>)
    requires |ss| == |acts| + 1
  {
    forall k :: 0 <= k < |acts| && acts[k].Login? ==> !LeftBehind(ss[k], acts[k].nick)
  }

  lemma {:induction false} RunInv(ss: seq<State>, acts: seq<Action>, k: nat)
    requires Run(ss, acts) && k <= |acts| && CapSuffices(ss, acts)
    ensures Inv(ss[k])
  {
    if k > 0 {
      RunInv(ss, acts, k - 1);
      hide Inv, Step, LeftBehind;
      StepInv(ss[k - 1], acts[k - 1]);
    }
  }

  /** Exactly once, in order: over every run whose logins stay within the cap, what p has
      received is, in id order and without repetition, a prefix of all frames ever stored
      for p, and all of them while p is online. */
  lemma ExactlyOnceInOrder(ss: seq<State>, acts: seq<Action>, k: nat, p: Nick)
    requires Run(ss, acts) && k <= |acts| && CapSuffices(ss, acts)
    ensures var (got, stored) := (Got(ss[k], p), To(ss[k].rows, p, 0, |ss[k].rows|));
            && got <= stored
            && (p in ss[k].online ==> got == stored)
            && (forall i, j :: 0 <= i < j < |got| ==> got[i] < got[j])
            && (p in ss[k].online ==> forall id :: IsFor(ss[k].rows, id, p) ==> id in got)
  {
    var s := ss[k];
    RunInv(ss, acts, k);
    assert UpToCursor(s, p);
    ToSplit(s.rows, p, 0, Cursor(s.cursors, p), |s.rows|);
    ToFacts(s.rows, p, 0, |s.rows|);
  }

  // ---- without the cap hypothesis ----------------------------------------------------------------

  /** What survives every run: never twice, never out of order, never above the cursor. */
  ghost predicate Weak(s: State) {
    InRange(s) && forall p :: Orderly(s, p)
  }

  predicate Orderly(s: State, p: Nick) {
    var got := Got(s, p);
    && (forall i, j :: 0 <= i < j < |got| ==> got[i] < got[j])
    && (forall i :: 0 <= i < |got| ==> got[i] <= Cursor(s.cursors, p))
  }

  lemma LoginOrderly(s: State, p: Nick, q: Nick)
    requires InRange(s) && Orderly(s, q)
    ensures Orderly(Step(s, Login(p)), q)
  {
    var s' := Step(s, Login(p));
    if p == q {
      LoginEffect(s, p);
      ToFacts(s.rows, p, Cursor(s.cursors, p), Cursor(s'.cursors, p));
    } else {
      LoginOthers(s, p, q);
    }
    hide Step, Received, To, Drained, Party;
  }

  lemma MsgOrderly(s: State, x: Nick, p: Nick, q: Nick)
    requires InRange(s) && Orderly(s, q) && Accepted(s, x, p)
    ensures Orderly(Step(s, Msg(x, p)), q)
  {
    MsgEffect(s, x, p, q);
    assert q == p ==> Cursor(s.cursors, q) <= |s.rows|;
    hide Step, Received;
  }

  lemma WeakStep(s: State, a: Action)
    requires Weak(s)
    ensures Weak(Step(s, a))
  {
    if a.Login? { LoginEffect(s, a.nick); }
    if a.Msg? && Accepted(s, a.from, a.to) { MsgEffect(s, a.from, a.to, a.to); }
    forall q ensures Orderly(Step(s, a), q) {
      assert Orderly(s, q);
      if a.Login? { LoginOrderly(s, a.nick, q); }
      if a.Msg? && Accepted(s, a.from, a.to) { MsgOrderly(s, a.from, a.to, q); }
    }
  }

  /** In every run whatever: no frame reaches a client twice, and ids only grow. */
  lemma {:induction false} NeverTwiceNeverBack(ss: seq<State>, acts: seq<Action>, k: nat)
    requires Run(ss, acts) && k <= |acts|
    ensures Weak(ss[k])
  {
    if k > 0 {
      NeverTwiceNeverBack(ss, acts, k - 1);
      hide Weak, Step;
      WeakStep(ss[k - 1], acts[k - 1]);
    }
  }

  /** A frame for p that p's cursor has passed without its being received. */
  predicate Passed(s: State, p: Nick, id: nat) {
    id <= Cursor(s.cursors, p) && id !in Got(s, p)
  }

  lemma PassedStays(s: State, a: Action, p: Nick, id: nat)
    requires Weak(s) && Passed(s, p, id)
    ensures Passed(Step(s, a), p, id)
  {
    if a.Login? {
      if a.nick == p {
        LoginEffect(s, p);
        ToFacts(s.rows, p, Cursor(s.cursors, p), Cursor(Step(s, a).cursors, p));
      } else {
        LoginOthers(s, a.nick, p);
      }
    } else if a.Msg? && Accepted(s, a.from, a.to) {
      MsgEffect(s, a.from, a.to, p);
    }
    hide Step, Received, To, Drained;
  }

  function Perform(s: State, acts: seq<Action>): State
    decreases |acts|
  {
    if acts == [] then s else Perform(Step(s, acts[0]), acts[1..])
  }

  lemma {:induction false} PassedForEver(s: State, acts: seq<Action>, p: Nick, id: nat)
    requires Weak(s) && Passed(s, p, id)
    ensures Passed(Perform(s, acts), p, id)
    decreases |acts|
  {
    if acts != [] {
      hide Step, Weak, Passed;
      WeakStep(s, acts[0]);
      PassedStays(s, acts[0], p, id);
      PassedForEver(Step(s, acts[0]), acts[1..], p, id);
    }
  }

  lemma SameTail(a: seq<nat>, b: seq<nat>, x: nat)
    ensures a + [x] == b + [x] <==> a == b
  {
    assert a == (a + [x])[..|a|] && b == (b + [x])[..|b|];
    assert a + [x] == b + [x] ==> |a| == |a + [x]| - 1 == |b|;
  }

  lemma LoginThenMsg(s: State, x: Nick, p: Nick)
    requires Inv(s) && x in s.online && x != p
    ensures var s1 := Step(s, Login(p)); var s2 := Step(s1, Msg(x, p));
            && (Got(s2, p) == To(s2.rows, p, 0, |s2.rows|) <==> !LeftBehind(s, p))
            && Got(s2, p) == Got(s1, p) + [|s2.rows|]
            && s2.rows == s.rows + [Row(x, p)] && Cursor(s2.cursors, p) == |s2.rows|
  {
    var s1 := Step(s, Login(p));
    var n := |s.rows|;
    assert InRange(s) && s1.rows == s.rows && p in s1.online && x in s1.online;
    hide Inv, InRange, LeftBehind, Got, To, Step, Cursor, UpToCursor, NothingAbove, Drained, Party;
    LoginEffect(s, p);
    LoginDeliversAllExactly(s, p);
    MsgEffect(s1, x, p, p);
    var rows2 := s.rows + [Row(x, p)];
    ToGrowing(s.rows, Row(x, p), p, 0, n);
    ToSplit(rows2, p, 0, n, n + 1);
    ToLast(s.rows, Row(x, p), p);
    SameTail(Got(s1, p), To(s.rows, p, 0, n), n + 1);
  }

  lemma ToLast(rows: seq<Row>, r: Row, p: Nick)
    requires r.recipient == p
    ensures To(rows + [r], p, |rows|, |rows| + 1) == [|rows| + 1]
  {
    assert To(rows + [r], p, |rows| + 1, |rows| + 1) == [];
  }

  lemma LossWitness(s: State, x: Nick, p: Nick) returns (id: nat)
    requires Inv(s) && Weak(s) && x in s.online && x != p && LeftBehind(s, p)
    ensures var s2 := Step(Step(s, Login(p)), Msg(x, p)); IsFor(s2.rows, id, p) && Passed(s2, p, id)
  {
    var s1 := Step(s, Login(p));
    var c' := Cursor(s1.cursors, p);
    LoginEffect(s, p);
    LoginOrderly(s, p, p) by { assert Orderly(s, p); }
    LoginDeliversAllExactly(s, p);
    LoginThenMsg(s, x, p);
    ToFacts(s.rows, p, c', |s.rows|);
    id := To(s.rows, p, c', |s.rows|)[0];
    assert id !in Got(s1, p);
    hide Inv, Weak, LeftBehind, Received, To, Step;
  }

  lemma InvIsOrderly(s: State)
    requires Inv(s)
    ensures Weak(s)
  {
    forall p ensures Orderly(s, p) {
      assert UpToCursor(s, p);
      ToFacts(s.rows, p, 0, Cursor(s.cursors, p));
    }
  }

  /** The cap is exactly what the property needs.  After a login of p followed by one live
      message to p, p holds every frame stored for it if and only if the login left none
      behind; otherwise some frame has been passed over and no continuation delivers it. */
  lemma CapDecidesLoss(s: State, x: Nick, p: Nick)
    requires Inv(s) && x in s.online && x != p
    ensures var s2 := Step(Step(s, Login(p)), Msg(x, p));
            && (Got(s2, p) == To(s2.rows, p, 0, |s2.rows|) <==> !LeftBehind(s, p))
            && (LeftBehind(s, p) ==>
                  exists id :: IsFor(s2.rows, id, p) && forall acts :: id !in Got(Perform(s2, acts), p))
  {
    var s1 := Step(s, Login(p));
    var s2 := Step(s1, Msg(x, p));
    InvIsOrderly(s);
    LoginThenMsg(s, x, p);
    WeakStep(s, Login(p));
    WeakStep(s1, Msg(x, p));
    if LeftBehind(s, p) {
      var id := LossWitness(s, x, p);
      hide Weak, Inv, Step, LeftBehind;
      forall acts ensures id !in Got(Perform(s2, acts), p) {
        PassedForEver(s2, acts, p, id);
      }
    }
  }

  // ---- the relay object ----------------------------------------------------------------------------

  lemma PartyNext(rows: seq<Row>, nick: Nick, lo: nat, hi: nat)
    requires hi <= |rows|
    ensures if lo >= hi then Party(rows, nick, lo, hi) == []
            else Party(rows, nick, lo, hi) == (if IsParty(rows[lo], nick) then [lo + 1] else []) + Party(rows, nick, lo + 1, hi)
  {}

  lemma DrainedStep(rows: seq<Row>, nick: Nick, cursor: nat, rounds: nat)
    requires rounds > 0
    ensures var b := Batch(rows, nick, cursor, BATCH);
            if b == [] then Drained(rows, nick, cursor, rounds) == []
            else && After(b, 0) > cursor
                 && Drained(rows, nick, cursor, rounds) == b + Drained(rows, nick, After(b, 0), rounds - 1)
  {
    PartyFacts(rows, nick, cursor, |rows|);
  }

  lemma NoRounds(rows: seq<Row>, nick: Nick, cursor: nat)
    ensures Drained(rows, nick, cursor, 0) == []
  {}

  lemma DeliveriesParts(nick: Nick, a: seq<nat>, b: seq<nat>)
    ensures Deliveries(nick, a + b) == Deliveries(nick, a) + Deliveries(nick, b)
  {}

  lemma NoDeliveries(nick: Nick)
    ensures Deliveries(nick, []) == []
  {}

  class Server {
    var rows: seq<Row>
    var cursors: map<Nick, nat>
    var online: set<Nick>
    var out: seq<Delivery>

    ghost function View(): State
      reads this
    {
      State(rows, cursors, online, out)
    }

    constructor ()
      ensures View() == State([], map[], {}, [])
    {
      rows, cursors, online, out := [], map[], {}, [];
    }

    method SaveMessage(sender: Nick, recipient: Nick) returns (id: nat)
      modifies this`rows
      ensures rows == old(rows) + [Row(sender, recipient)] && id == |rows|
    {
      rows := rows + [Row(sender, recipient)];
      id := |rows|;
    }

    method AdvanceCursor(recipient: Nick, lastId: nat)
      modifies this`cursors
      ensures cursors == Advance(old(cursors), recipient, lastId)
    {
      if recipient in cursors && cursors[recipient] >= lastId {
        cursors := cursors[recipient := cursors[recipient]];
      } else {
        cursors := cursors[recipient := lastId];
      }
    }

    /** The query of history_for, and the newest id it returns. */
    method Select(nick: Nick, cursor: nat, limit: nat) returns (ids: seq<nat>, maxId: nat)
      ensures ids == Batch(rows, nick, cursor, limit)
      ensures maxId == After(ids, cursor) && (ids != [] ==> maxId > cursor)
    {
      hide Party;
      ids, maxId := [], cursor;
      var i := cursor;
      ghost var all := Party(rows, nick, cursor, |rows|);
      while i < |rows| && |ids| < limit
        invariant cursor <= i && (i <= |rows| || i == cursor) && |ids| <= limit
        invariant maxId == After(ids, cursor) && cursor <= maxId <= i && (ids != [] ==> maxId > cursor)
        invariant all == ids + Party(rows, nick, i, |rows|)
      {
        PartyNext(rows, nick, i, |rows|);
        if rows[i].sender == nick || rows[i].recipient == nick {
          ids := ids + [i + 1];
          maxId := i + 1;
        }
        i := i + 1;
      }
      PartyNext(rows, nick, i, |rows|);
      assert |ids| < limit ==> all == ids;
      assert |ids| == limit ==> all[..limit] == ids;
    }

    /** history_for: the query, then the cursor moves to the newest id returned. */
    method HistoryFor(nick: Nick, limit: nat) returns (ids: seq<nat>)
      modifies this`cursors
      ensures ids == Batch(rows, nick, Cursor(old(cursors), nick), limit)
      ensures cursors == if ids == [] then old(cursors) else Advance(old(cursors), nick, After(ids, 0))
    {
      var cursor := if nick in cursors then cursors[nick] else 0;
      var maxId;
      ids, maxId := Select(nick, cursor, limit);
      if maxId > cursor {
        AdvanceCursor(nick, maxId);
      }
    }

    method SendAll(nick: Nick, batch: seq<nat>)
      modifies this`out
      ensures out == old(out) + Deliveries(nick, batch)
    {
      for i := 0 to |batch|
        invariant out == old(out) + Deliveries(nick, batch[..i])
      {
        assert Deliveries(nick, batch[..i + 1]) == Deliveries(nick, batch[..i]) + [Delivery(nick, batch[i])];
        out := out + [Delivery(nick, batch[i])];
      }
      assert batch[..|batch|] == batch;
    }

    /** The hello branch: online first, then the drain. */
    method Login(nick: Nick)
      modifies this
      ensures View() == Step(old(View()), Action.Login(nick))
    {
      hide Drained, Batch, Party, Deliveries;
      NoDeliveries(nick);
      online := online + {nick};
      ghost var all := Drained(rows, nick, Cursor(cursors, nick), ROUNDS);
      ghost var given: seq<nat> := [];
      for round := 0 to ROUNDS
        invariant rows == old(rows) && online == old(online) + {nick}
        invariant all == given + Drained(rows, nick, Cursor(cursors, nick), ROUNDS - round)
        invariant out == old(out) + Deliveries(nick, given)
        invariant cursors == if given == [] then old(cursors) else Advance(old(cursors), nick, After(given, 0))
        invariant given != [] ==> After(given, 0) > Cursor(old(cursors), nick)
      {
        DrainedStep(rows, nick, Cursor(cursors, nick), ROUNDS - round);
        var batch := HistoryFor(nick, BATCH);
        if batch == [] {
          assert all == given;
          break;
        }
        SendAll(nick, batch);
        DeliveriesParts(nick, given, batch);
        given := given + batch;
      }
      NoRounds(rows, nick, Cursor(cursors, nick));
      assert all == given;
    }

    method Logout(nick: Nick)
      modifies this`online
      ensures View() == Step(old(View()), Action.Logout(nick))
    {
      online := online - {nick};
    }

    /** The msg branch of a socket logged in as `nick`; false answers with an error. */
    method HandleMsg(nick: Nick, to: Nick) returns (ok: bool)
      modifies this
      ensures View() == Step(old(View()), Msg(nick, to))
      ensures ok <==> Accepted(old(View()), nick, to)
    {
      if nick !in online { return false; }
      if to == nick { return false; }
      var id := SaveMessage(nick, to);
      if to in online {
        out := out + [Delivery(to, id)];
        AdvanceCursor(to, id);
      }
      ok := true;
    }
  }
}
