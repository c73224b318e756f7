/**
 server/prekey_store.py: the pool of one-time prekeys.

 Every statement of the store is a transaction, so a run is an interleaving of whole
 publishes and claims.
 */
module Prekeys {
  import opened Wrappers
  import opened Least

  type Nick = nat
  type Pub = nat

  datatype OneTime = OneTime(id: nat, pub: Pub)

  /** The table one_time_prekeys, keyed by (nick, opk_id). */
  type Pool = map<(Nick, nat), Pub>

  function Ids(pool: Pool, nick: Nick): set<nat> {
    set k | k in pool && k.0 == nick :: k.1
  }

  /** INSERT OR IGNORE of a batch: an id already present keeps its key. */
  function Added(pool: Pool, nick: Nick, batch: seq<OneTime>): Pool
    decreases |batch|
  {
    if batch == [] then pool
    else
      var k := (nick, batch[0].id);
      Added(if k in pool then pool else pool[k := batch[0].pub], nick, batch[1..])
  }

  /** The row a claim takes: the least id present. */
  ghost function Next(pool: Pool, nick: Nick): (r: Option<OneTime>)
    ensures r.Some? <==> Ids(pool, nick) != {}
    ensures r.Some? ==> IsLeast(r.value.id, Ids(pool, nick))
    ensures r.Some? ==> (nick, r.value.id) in pool && pool[(nick, r.value.id)] == r.value.pub
  {
    if Ids(pool, nick) == {} then None
    else
      LeastExists(Ids(pool, nick));
      var id :| IsLeast(id, Ids(pool, nick));
      Some(OneTime(id, pool[(nick, id)]))
  }

  ghost function Claimed(pool: Pool, nick: Nick): Pool {
    match Next(pool, nick)
    case None => pool
    case Some(k) => pool - {(nick, k.id)}
  }

  lemma ClaimedIds(pool: Pool, nick: Nick, q: Nick)
    ensures Ids(Claimed(pool, nick), q) ==
              (if q == nick && Next(pool, nick).Some? then Ids(pool, q) - {Next(pool, nick).value.id} else Ids(pool, q))
  {
    assert forall id :: id in Ids(pool, q) <==> (q, id) in pool;
    assert forall id :: id in Ids(Claimed(pool, nick), q) <==> (q, id) in Claimed(pool, nick);
  }

  // ---- runs ------------------------------------------------------------------------------------

  datatype Served = Served(nick: Nick, key: OneTime)

  datatype State = State(pool: Pool, stored: nat, claims: seq<Served>)

  datatype Action = Publish(nick: Nick, batch: seq<OneTime>) | Claim(nick: Nick)

  ghost function Step(s: State, a: Action): State {
    match a
    case Publish(nick, batch) =>
      AddedGrows(s.pool, nick, batch);
      var pool := Added(s.pool, nick, batch);
      s.(pool := pool, stored := s.stored + (|pool| - |s.pool|))
    case Claim(nick) =>
      match Next(s.pool, nick)
      case None => s
      case Some(k) => s.(pool := Claimed(s.pool, nick), claims := s.claims + [Served(nick, k)])
  }

  lemma {:induction false} AddedGrows(pool: Pool, nick: Nick, batch: seq<OneTime>)
    ensures |Added(pool, nick, batch)| >= |pool|
    decreases |batch|
  {
    if batch != [] {
      var k := (nick, batch[0].id);
      var pool1 := if k in pool then pool else pool[k := batch[0].pub];
      if k !in pool { InsertSize(pool, k, batch[0].pub); }
      AddedGrows(pool1, nick, batch[1..]);
    }
  }

  lemma InsertSize(pool: Pool, k: (Nick, nat), pub: Pub)
    requires k !in pool
    ensures |pool[k := pub]| == |pool| + 1
  {
    assert pool[k := pub].Keys == pool.Keys + {k};
  }

  lemma RemoveSize(pool: Pool, k: (Nick, nat))
    requires k in pool
    ensures |pool - {k}| == |pool| - 1
  {
    assert pool == (pool - {k})[k := pool[k]];
    InsertSize(pool - {k}, k, pool[k]);
  }

  predicate WasClaimed(s: State, nick: Nick, id: nat) {
    exists i :: 0 <= i < |s.claims| && s.claims[i].nick == nick && s.claims[i].key.id == id
  }

  predicate NoneTwice(claims: seq<Served>) {
    forall i, j :: 0 <= i < j < |claims| ==> claims[i].nick != claims[j].nick || claims[i].key.id != claims[j].key.id
  }

  /** A publish is safe when it brings back no id that was handed out. */
  predicate Safe(s: State, a: Action) {
    a.Publish? ==> forall i :: 0 <= i < |a.batch| ==> !WasClaimed(s, a.nick, a.batch[i].id)
  }

  /** No id in the pool was handed out before. */
  predicate Unserved(s: State) {
    forall k :: k in s.pool ==> !WasClaimed(s, k.0, k.1)
  }

  predicate Conserved(s: State) {
    s.stored == |s.claims| + |s.pool|
  }

  predicate Inv(s: State) {
    NoneTwice(s.claims) && Unserved(s) && Conserved(s)
  }

  lemma {:induction false} AddedKeys(pool: Pool, nick: Nick, batch: seq<OneTime>)
    ensures var t := Added(pool, nick, batch);
            && (forall k :: k in pool ==> k in t && t[k] == pool[k])
            && (forall k :: k in t <==> k in pool || (k.0 == nick && exists i :: 0 <= i < |batch| && batch[i].id == k.1))
    decreases |batch|
  {
    if batch != [] {
      var k0 := (nick, batch[0].id);
      var pool1 := if k0 in pool then pool else pool[k0 := batch[0].pub];
      var t := Added(pool, nick, batch);
      AddedKeys(pool1, nick, batch[1..]);
      forall k ensures k in t <==> k in pool || (k.0 == nick && exists i :: 0 <= i < |batch| && batch[i].id == k.1) {
        if i :| 0 <= i < |batch| && batch[i].id == k.1 {
          assert i > 0 ==> batch[1..][i - 1].id == k.1;
          assert i == 0 && k.0 == nick ==> k in pool1;
        }
        if j :| 0 <= j < |batch[1..]| && batch[1..][j].id == k.1 {
          assert batch[j + 1].id == k.1;
        }
        assert k == k0 ==> batch[0].id == k.1;
      }
    }
  }

  ghost predicate Run(ss: seq<State>, acts: seq<Action>) {
    && |ss| == |acts| + 1
    && ss[0] == State(map[], 0, [])
    && forall k :: 0 <= k < |acts| ==> ss[k + 1] == Step(ss[k], acts[k])
  }

  // ---- the properties ----------------------------------------------------------------------------

  lemma PublishInv(s: State, nick: Nick, batch: seq<OneTime>)
    requires Inv(s) && Safe(s, Publish(nick, batch))
    ensures Inv(Step(s, Publish(nick, batch)))
  {
    AddedKeys(s.pool, nick, batch);
    AddedGrows(s.pool, nick, batch);
    var s' := Step(s, Publish(nick, batch));
    forall k | k in s'.pool ensures !WasClaimed(s', k.0, k.1) {
      assert !WasClaimed(s, k.0, k.1);
    }
  }

  lemma ClaimInv(s: State, nick: Nick)
    requires Inv(s)
    ensures Inv(Step(s, Claim(nick)))
  {
    var s' := Step(s, Claim(nick));
    var next := Next(s.pool, nick);
    if next.Some? {
      var id := next.value.id;
      RemoveSize(s.pool, (nick, id));
      assert !WasClaimed(s, nick, id);
      forall k | k in s'.pool ensures !WasClaimed(s', k.0, k.1) {
        assert !WasClaimed(s, k.0, k.1);
      }
    }
  }

  ghost predicate AllSafe(ss: seq<State>, acts: seq<Action>)
    requires |ss| == |acts| + 1
  {
    forall k :: 0 <= k < |acts| ==> Safe(ss[k], acts[k])
  }

  /** Over any interleaving of publishes and claims in which no publish brings back an id
      already handed out: no (nick, id) is served twice, and stored = claimed + remaining. */
  lemma {:induction false} ServedOnceAndConserved(ss: seq<State>, acts: seq<Action>, k: nat)
    requires Run(ss, acts) && AllSafe(ss, acts) && k <= |acts|
    ensures Inv(ss[k])
  {
    if k == 0 {
      assert |ss[0].pool| == 0;
    } else {
      ServedOnceAndConserved(ss, acts, k - 1);
      match acts[k - 1]
      case Publish(nick, batch) => PublishInv(ss[k - 1], nick, batch);
      case Claim(nick) => ClaimInv(ss[k - 1], nick);
    }
  }

  /** n claims for nick in a row. */
  ghost function Claims(s: State, nick: Nick, n: nat): State
    decreases n
  {
    if n == 0 then s else Claims(Step(s, Claim(nick)), nick, n - 1)
  }

  ghost function Below(pool: Pool, nick: Nick, id: nat): set<nat> {
    set j | j in Ids(pool, nick) && j < id
  }

  lemma {:induction false} ReachesId(s: State, nick: Nick, id: nat) returns (n: nat)
    requires id in Ids(s.pool, nick)
    ensures n > 0 && s.claims <= Claims(s, nick, n).claims
    ensures var c := Claims(s, nick, n).claims; |c| > |s.claims| && c[|c| - 1].nick == nick && c[|c| - 1].key.id == id
    decreases |Below(s.pool, nick, id)|
  {
    var next := Next(s.pool, nick).value;
    var s1 := Step(s, Claim(nick));
    if next.id == id {
      assert Claims(s, nick, 1) == s1;
      n := 1;
    } else {
      ClaimedIds(s.pool, nick, nick);
      assert next.id in Below(s.pool, nick, id);
      assert Below(s1.pool, nick, id) == Below(s.pool, nick, id) - {next.id};
      var m := ReachesId(s1, nick, id);
      n := m + 1;
      assert Claims(s, nick, n) == Claims(s1, nick, m);
    }
  }

  lemma {:induction false} ClaimsKeep(s: State, nick: Nick, n: nat)
    requires NoneTwice(s.claims) && forall id <- Ids(s.pool, nick) :: !WasClaimed(s, nick, id)
    ensures NoneTwice(Claims(s, nick, n).claims)
    decreases n
  {
    if n > 0 {
      var s1 := Step(s, Claim(nick));
      ClaimedIds(s.pool, nick, nick);
      forall id | id in Ids(s1.pool, nick) ensures !WasClaimed(s1, nick, id) {
        assert id in Ids(s.pool, nick);
        assert !WasClaimed(s, nick, id);
      }
      if Next(s.pool, nick).Some? {
        assert !WasClaimed(s, nick, Next(s.pool, nick).value.id);
      }
      ClaimsKeep(s1, nick, n - 1);
    }
  }

  /** The hypothesis is exactly what is needed: enough further claims for nick serve some
      id a second time if and only if an id already handed out is back in nick's pool. */
  lemma ServedTwiceExactlyIfReadded(s: State, nick: Nick)
    requires NoneTwice(s.claims)
    ensures (exists n: nat :: !NoneTwice(Claims(s, nick, n).claims))
            <==> (exists id :: id in Ids(s.pool, nick) && WasClaimed(s, nick, id))
  {
    if id :| id in Ids(s.pool, nick) && WasClaimed(s, nick, id) {
      var n := ReachesId(s, nick, id);
      var c := Claims(s, nick, n).claims;
      var i :| 0 <= i < |s.claims| && s.claims[i].nick == nick && s.claims[i].key.id == id;
      assert c[i] == s.claims[i];
      assert !NoneTwice(c);
    } else {
      forall n: nat ensures NoneTwice(Claims(s, nick, n).claims) {
        ClaimsKeep(s, nick, n);
      }
    }
  }

  // ---- which key is served -------------------------------------------------------------------------

  /** The key a batch states first for the id. */
  function FirstIn(batch: seq<OneTime>, id: nat): Option<Pub> {
    if batch == [] then None else if batch[0].id == id then Some(batch[0].pub) else FirstIn(batch[1..], id)
  }

  /** The key held for nick's id after k actions, told by the actions: the first one published
      since the id was last claimed, and a claim takes the least id held. */
  ghost function Held(acts: seq<Action>, k: nat, nick: Nick, id: nat): Option<Pub>
    requires k <= |acts|
    decreases k, 0
  {
    if k == 0 then None else
    var before := Held(acts, k - 1, nick, id);
    match acts[k - 1]
    case Publish(who, batch) => if who == nick && before.None? then FirstIn(batch, id) else before
    case Claim(who) => if who == nick && Due(acts, k - 1, nick, id) then None else before
  }

  ghost predicate Due(acts: seq<Action>, k: nat, nick: Nick, id: nat)
    requires k <= |acts|
    decreases k, 1
  {
    Held(acts, k, nick, id).Some? && forall j: nat :: j < id ==> Held(acts, k, nick, j).None?
  }

  function Find(pool: Pool, nick: Nick, id: nat): Option<Pub> {
    if (nick, id) in pool then Some(pool[(nick, id)]) else None
  }

  lemma {:induction false} AddedFinds(pool: Pool, who: Nick, batch: seq<OneTime>, nick: Nick, id: nat)
    ensures Find(Added(pool, who, batch), nick, id)
         == if who == nick && Find(pool, nick, id).None? then FirstIn(batch, id) else Find(pool, nick, id)
    decreases |batch|
  {
    if batch != [] {
      var k := (who, batch[0].id);
      AddedFinds(if k in pool then pool else pool[k := batch[0].pub], who, batch[1..], nick, id);
    }
  }

  ghost predicate PoolIs(pool: Pool, acts: seq<Action>, k: nat)
    requires k <= |acts|
  {
    forall nick, id: nat :: Find(pool, nick, id) == Held(acts, k, nick, id)
  }

  lemma InIds(pool: Pool, nick: Nick, id: nat)
    ensures id in Ids(pool, nick) <==> Find(pool, nick, id).Some?
  {}

  /** The row a claim takes is the least id held, with the key held for it. */
  lemma NextIsLeast(pool: Pool, acts: seq<Action>, k: nat, nick: Nick, id: nat)
    requires k <= |acts| && PoolIs(pool, acts, k)
    ensures Next(pool, nick).Some? && Next(pool, nick).value.id == id <==> Due(acts, k, nick, id)
    ensures Due(acts, k, nick, id) ==> Next(pool, nick) == Some(OneTime(id, Held(acts, k, nick, id).value))
  {
    hide Held, Ids;
    var next := Next(pool, nick);
    forall j: nat ensures j in Ids(pool, nick) <==> Held(acts, k, nick, j).Some? {
      InIds(pool, nick, j);
      assert Find(pool, nick, j) == Held(acts, k, nick, j);
    }
    if Due(acts, k, nick, id) {
      assert id in Ids(pool, nick) && IsLeast(next.value.id, Ids(pool, nick));
    }
    assert Find(pool, nick, id) == Held(acts, k, nick, id);
  }

  lemma {:induction false} PoolExactly(ss: seq<State>, acts: seq<Action>, k: nat)
    requires Run(ss, acts) && k <= |acts|
    ensures PoolIs(ss[k].pool, acts, k)
  {
    hide Added, Claimed, PoolIs, Held, Next;
    if k > 0 {
      PoolExactly(ss, acts, k - 1);
      PoolStep(ss[k - 1], acts[k - 1]);
      if acts[k - 1].Publish? {
        PublishIs(ss[k - 1].pool, acts, k - 1);
      } else {
        ClaimIs(ss[k - 1].pool, acts, k - 1);
      }
    } else {
      NothingYet(acts);
    }
  }

  lemma NothingYet(acts: seq<Action>)
    ensures PoolIs(map[], acts, 0)
  {}

  lemma PoolStep(s: State, a: Action)
    ensures Step(s, a).pool == if a.Publish? then Added(s.pool, a.nick, a.batch) else Claimed(s.pool, a.nick)
  {}

  lemma PublishIs(pool: Pool, acts: seq<Action>, k: nat)
    requires k < |acts| && PoolIs(pool, acts, k) && acts[k].Publish?
    ensures PoolIs(Added(pool, acts[k].nick, acts[k].batch), acts, k + 1)
  {
    hide Added, FirstIn, Find;
    forall nick, id: nat ensures Find(Added(pool, acts[k].nick, acts[k].batch), nick, id) == Held(acts, k + 1, nick, id) {
      AddedFinds(pool, acts[k].nick, acts[k].batch, nick, id);
      assert Find(pool, nick, id) == Held(acts, k, nick, id);
    }
  }

  lemma ClaimIs(pool: Pool, acts: seq<Action>, k: nat)
    requires k < |acts| && PoolIs(pool, acts, k) && acts[k].Claim?
    ensures PoolIs(Claimed(pool, acts[k].nick), acts, k + 1)
  {
    var who := acts[k].nick;
    forall nick, id: nat ensures Find(Claimed(pool, who), nick, id) == Held(acts, k + 1, nick, id) {
      NextIsLeast(pool, acts, k, who, id);
      assert Find(pool, nick, id) == Held(acts, k, nick, id);
      hide Next, Due;
    }
  }

  /** Over every run a claim serves exactly the least id held, with the key its publish first
      stored, and nothing if none is held; publishes serve nothing. */
  lemma ServedExactly(ss: seq<State>, acts: seq<Action>, k: nat, id: nat)
    requires Run(ss, acts) && k < |acts|
    ensures acts[k].Publish? ==> ss[k + 1].claims == ss[k].claims
    ensures acts[k].Claim? && Due(acts, k, acts[k].nick, id) ==>
              ss[k + 1].claims == ss[k].claims + [Served(acts[k].nick, OneTime(id, Held(acts, k, acts[k].nick, id).value))]
    ensures acts[k].Claim? ==>
              (ss[k + 1].claims == ss[k].claims <==> NoneHeld(acts, k, acts[k].nick))
  {
    hide Held, Added, Next, Due;
    PoolExactly(ss, acts, k);
    if acts[k].Claim? {
      NextIsLeast(ss[k].pool, acts, k, acts[k].nick, id);
      NothingHeld(ss[k].pool, acts, k, acts[k].nick);
      assert Next(ss[k].pool, acts[k].nick).Some? ==> |ss[k + 1].claims| == |ss[k].claims| + 1;
    }
  }

  ghost predicate NoneHeld(acts: seq<Action>, k: nat, nick: Nick)
    requires k <= |acts|
  {
    forall j: nat :: NotHeld(acts, k, nick, j)
  }

  ghost predicate NotHeld(acts: seq<Action>, k: nat, nick: Nick, id: nat)
    requires k <= |acts|
  {
    Held(acts, k, nick, id).None?
  }

  lemma NothingHeld(pool: Pool, acts: seq<Action>, k: nat, nick: Nick)
    requires k <= |acts| && PoolIs(pool, acts, k)
    ensures Next(pool, nick).None? <==> NoneHeld(acts, k, nick)
  {
    hide Held, Next;
    forall j: nat ensures j in Ids(pool, nick) <==> !NotHeld(acts, k, nick, j) {
      InIds(pool, nick, j);
      assert Find(pool, nick, j) == Held(acts, k, nick, j);
    }
    if Next(pool, nick).Some? {
      assert Next(pool, nick).value.id in Ids(pool, nick);
    }
  }

  // ---- the store object ----------------------------------------------------------------------------

  datatype Bundle = Bundle(ik: Pub, spk: Pub, sig: nat, oneTime: Option<OneTime>)

  class PrekeyStore {
    var oneTime: Pool
    var signed: map<Nick, (Pub, nat)>

    constructor ()
      ensures oneTime == map[] && signed == map[]
    {
      oneTime, signed := map[], map[];
    }

    method SetSignedPrekey(nick: Nick, pub: Pub, sig: nat)
      modifies this`signed
      ensures signed == old(signed)[nick := (pub, sig)]
    {
      signed := signed[nick := (pub, sig)];
    }

    method Count(nick: Nick) returns (n: nat)
      ensures n == |Ids(oneTime, nick)|
    {
      n := |Ids(oneTime, nick)|;
    }

    method AddOneTimePrekeys(nick: Nick, batch: seq<OneTime>) returns (stored: int)
      modifies this`oneTime
      ensures oneTime == Added(old(oneTime), nick, batch)
      ensures stored == |oneTime| - |old(oneTime)| >= 0
    {
      var before := Count(nick);
      ghost var pool0 := oneTime;
      for i := 0 to |batch|
        invariant Added(oneTime, nick, batch[i..]) == Added(pool0, nick, batch)
        invariant |oneTime| - |pool0| == |Ids(oneTime, nick)| - |Ids(pool0, nick)| >= 0
      {
        assert batch[i..][0] == batch[i] && batch[i..][1..] == batch[i + 1..];
        if (nick, batch[i].id) !in oneTime {
          InsertIds(oneTime, nick, batch[i].id, batch[i].pub);
          oneTime := oneTime[(nick, batch[i].id) := batch[i].pub];
        }
      }
      var after := Count(nick);
      stored := after - before;
    }

    /** SELECT opk_id, opk_pub … ORDER BY opk_id LIMIT 1 */
    method SelectLeast(nick: Nick) returns (row: Option<OneTime>)
      ensures row == Next(oneTime, nick)
    {
      var ids := Ids(oneTime, nick);
      if ids == {} { return None; }
      LeastExists(ids);
      var id :| IsLeast(id, ids);
      row := Some(OneTime(id, oneTime[(nick, id)]));
    }

    /** The DELETE … RETURNING path. */
    method ClaimOneTimePrekey(nick: Nick) returns (row: Option<OneTime>)
      modifies this`oneTime
      ensures row == Next(old(oneTime), nick) && oneTime == Claimed(old(oneTime), nick)
    {
      row := SelectLeast(nick);
      if row.Some? {
        oneTime := oneTime - {(nick, row.value.id)};
      }
    }

    /** _claim_fallback.  races[i] says that in round i another claim takes the selected
        row between the SELECT and the DELETE. */
    method ClaimFallback(nick: Nick, races: seq<bool>) returns (row: Option<OneTime>)
      modifies this`oneTime
      ensures exists lost: nat :: LostRaces(races, lost)
                && row == Next(AfterClaims(old(oneTime), nick, lost), nick)
                && oneTime == AfterClaims(old(oneTime), nick, lost + 1)
      ensures races == [] ==> row == Next(old(oneTime), nick) && oneTime == Claimed(old(oneTime), nick)
    {
      ghost var pool0 := oneTime;
      var i: nat := 0;
      while true
        invariant oneTime == AfterClaims(pool0, nick, i) && LostRaces(races, i)
        decreases |Ids(oneTime, nick)|
      {
        row := SelectLeast(nick);
        ClaimedIds(oneTime, nick, nick);
        AfterOneMore(pool0, nick, i);
        if row.None? { return; }
        var raced := i < |races| && races[i];
        var deleted := 0;
        // Whoever deletes it, the row is gone at the end of the round.
        oneTime := oneTime - {(nick, row.value.id)};
        if !raced {
          deleted := 1;
        }
        if deleted == 1 { return; }
        i := i + 1;
      }
    }

    /** get_bundle: a one-time prekey is spent only on a bundle that is served. */
    method GetBundle(nick: Nick, identity: Option<Pub>) returns (b: Option<Bundle>)
      modifies this`oneTime
      ensures if nick !in signed || identity.None? then b.None? && oneTime == old(oneTime)
              else && b == Some(Bundle(identity.value, signed[nick].0, signed[nick].1, Next(old(oneTime), nick)))
                   && oneTime == Claimed(old(oneTime), nick)
    {
      if nick !in signed || identity.None? { return None; }
      var claimed := ClaimOneTimePrekey(nick);
      b := Some(Bundle(identity.value, signed[nick].0, signed[nick].1, claimed));
    }
  }

  ghost function AfterClaims(pool: Pool, nick: Nick, n: nat): Pool {
    if n == 0 then pool else Claimed(AfterClaims(pool, nick, n - 1), nick)
  }

  lemma AfterOneMore(pool: Pool, nick: Nick, n: nat)
    ensures AfterClaims(pool, nick, n + 1) == Claimed(AfterClaims(pool, nick, n), nick)
  {}

  predicate LostRaces(races: seq<bool>, n: nat) {
    n <= |races| && forall i :: 0 <= i < n ==> races[i]
  }

  lemma InsertIds(pool: Pool, nick: Nick, id: nat, pub: Pub)
    requires (nick, id) !in pool
    ensures |pool[(nick, id) := pub]| == |pool| + 1
    ensures |Ids(pool[(nick, id) := pub], nick)| == |Ids(pool, nick)| + 1
  {
    InsertSize(pool, (nick, id), pub);
    assert forall j :: j in Ids(pool, nick) <==> (nick, j) in pool;
    assert forall j :: j in Ids(pool[(nick, id) := pub], nick) <==> (nick, j) in pool[(nick, id) := pub];
    assert Ids(pool[(nick, id) := pub], nick) == Ids(pool, nick) + {id};
  }
}
