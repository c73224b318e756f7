/**
 The re-bootstrap guard of client/src/chatclient.cpp: what a handshake that states another
 identity than the one held makes the client do, and why that ends.

 `State` is what the client keeps about one peer; `Client` at the end keeps it for all.
 */
module Rebootstrap {
  import opened Wrappers

  type Id = nat

  /** A "msg" frame from the peer; only a handshake states an identity.  `no` tells the others
      apart. */
  datatype Frame = Handshake(ik: Option<Id>) | Other(no: nat)

  datatype State = State(
    held: Option<Id>,       // m_peerKeys
    adopted: Option<Id>,    // m_rebootstrapAdopted
    stash: seq<Frame>,      // m_pendingFrames
    asked: nat,             // getkey requests sent
    refetches: nat,         // those of them a handshake caused
    passed: seq<Frame>)     // frames that went on to the ratchet

  predicate Mismatch(s: State, f: Frame) {
    f.Handshake? && f.ik.Some? && f.ik != s.held
  }

  function OnFrame(s: State, f: Frame): State {
    if s.held.None? then
      s.(stash := s.stash + [f], asked := s.asked + 1)
    else if !Mismatch(s, f) then
      s.(passed := s.passed + [f])
    else if s.adopted != f.ik then
      s.(adopted := f.ik, held := f.ik, stash := s.stash + [f], asked := s.asked + 1, refetches := s.refetches + 1)
    else
      s
  }

  function OnFrames(s: State, fs: seq<Frame>): State
    decreases |fs|
  {
    if fs == [] then s else OnFrames(OnFrame(s, fs[0]), fs[1..])
  }

  /** The relay states key r, in answer to a request or unasked. */
  function OnKey(s: State, r: Id): State {
    OnFrames(s.(held := Some(r), stash := []), s.stash)
  }

  datatype Event = Arrives(f: Frame) | KeyReply | KeyUpdate

  /** The state together with the requests the relay has not answered yet. */
  datatype Session = Session(s: State, outstanding: nat)

  predicate Enabled(w: Session, e: Event) {
    e.KeyReply? ==> w.outstanding > 0
  }

  function Step(w: Session, e: Event, r: Id): Session
    requires Enabled(w, e)
    ensures Step(w, e, r).s.asked >= w.s.asked
  {
    var s' := if e.Arrives? then OnFrame(w.s, e.f) else OnKey(w.s, r);
    AskedGrows(w.s.(held := Some(r), stash := []), w.s.stash);
    Session(s', w.outstanding + (s'.asked - w.s.asked) - (if e.KeyReply? then 1 else 0))
  }

  lemma {:induction false} AskedGrows(s: State, fs: seq<Frame>)
    ensures OnFrames(s, fs).asked >= s.asked
    decreases |fs|
  {
    if fs != [] { AskedGrows(OnFrame(s, fs[0]), fs[1..]); }
  }

  function Start(held: Option<Id>): Session {
    Session(State(held, None, [], 0, 0, []), 0)
  }

  /** ws lists the states of a session whose relay states r throughout. */
  ghost predicate Run(ws: seq<Session>, es: seq<Event>, r: Id) {
    && |ws| == |es| + 1
    && (exists held :: ws[0] == Start(held))
    && forall k :: 0 <= k < |es| ==> Enabled(ws[k], es[k]) && ws[k + 1] == Step(ws[k], es[k], r)
  }

  /** Every handshake of the run that states an identity at all states `stale`. */
  predicate OnlyStates(es: seq<Event>, stale: Id) {
    forall k :: 0 <= k < |es| && es[k].Arrives? ==> States(es[k].f, stale)
  }

  predicate States(f: Frame, stale: Id) {
    f.Handshake? && f.ik.Some? ==> f.ik.value == stale
  }

  // ---- one stale identity ----------------------------------------------------------------

  predicate Local(s: State, stale: Id) {
    && (s.adopted.None? || s.adopted == Some(stale))
    && s.refetches == (if s.adopted.None? then 0 else 1)
    && (forall i :: 0 <= i < |s.stash| ==> States(s.stash[i], stale))
    && s.refetches <= s.asked
  }

  lemma OnFrameLocal(s: State, f: Frame, stale: Id)
    requires Local(s, stale) && States(f, stale)
    ensures var t := OnFrame(s, f);
            && Local(t, stale)
            && (t.stash != s.stash ==> t.asked > s.asked)
            && (s.held.Some? ==> t.held.Some? && (t.held != s.held ==> t.asked > s.asked))
  {}

  lemma {:induction false} OnFramesLocal(s: State, fs: seq<Frame>, stale: Id)
    requires Local(s, stale) && forall i :: 0 <= i < |fs| ==> States(fs[i], stale)
    ensures var t := OnFrames(s, fs);
            && Local(t, stale) && t.asked >= s.asked
            && (t.stash != s.stash ==> t.asked > s.asked)
            && (s.held.Some? ==> t.held.Some? && (t.held != s.held ==> t.asked > s.asked))
    decreases |fs|
  {
    if fs != [] {
      OnFrameLocal(s, fs[0], stale);
      OnFramesLocal(OnFrame(s, fs[0]), fs[1..], stale);
    }
  }

  /** Unanswered requests account for everything unfinished. */
  predicate Inv(w: Session, stale: Id, r: Id) {
    && Local(w.s, stale)
    && (w.s.stash != [] ==> w.outstanding > 0)
    && (w.s.asked > 0 && w.outstanding == 0 ==> w.s.held == Some(r))
    && w.outstanding <= w.s.asked
  }

  lemma StepInv(w: Session, e: Event, stale: Id, r: Id)
    requires Inv(w, stale, r) && Enabled(w, e) && (e.Arrives? ==> States(e.f, stale))
    ensures Inv(Step(w, e, r), stale, r)
  {
    if e.Arrives? {
      OnFrameLocal(w.s, e.f, stale);
    } else {
      OnFramesLocal(w.s.(held := Some(r), stash := []), w.s.stash, stale);
    }
  }

  lemma {:induction false} RunInv(ws: seq<Session>, es: seq<Event>, stale: Id, r: Id, k: nat)
    requires Run(ws, es, r) && OnlyStates(es, stale) && k <= |es|
    ensures Inv(ws[k], stale, r)
  {
    if k > 0 {
      RunInv(ws, es, stale, r, k - 1);
      StepInv(ws[k - 1], es[k - 1], stale, r);
    }
  }

  /** Re-bootstrap termination.  However often handshakes stating one identity are
      replayed, they cause at most one refetch, and once the relay has answered every
      request nothing is stashed and the relay's key is the one held. */
  lemma ReBootstrapConverges(ws: seq<Session>, es: seq<Event>, stale: Id, r: Id)
    requires Run(ws, es, r) && OnlyStates(es, stale)
    ensures var w := ws[|es|];
            && w.s.refetches <= 1
            && (w.outstanding == 0 ==> w.s.stash == [])
            && (w.outstanding == 0 && w.s.asked > 0 ==> w.s.held == Some(r))
  {
    RunInv(ws, es, stale, r, |es|);
  }

  /** n answers of the relay in a row, or as many as it owes. */
  function Replies(w: Session, r: Id, n: nat): Session
    decreases n
  {
    if n == 0 || w.outstanding == 0 then w else Replies(Step(w, KeyReply, r), r, n - 1)
  }

  /** And the relay does get there: from every state of such a run, as many answers as it
      owes, and one more if the refetch is still to come, end the exchange. */
  lemma {:induction false} AnswersSettle(w: Session, stale: Id, r: Id)
    requires Inv(w, stale, r)
    ensures var w' := Replies(w, r, w.outstanding + 1 - w.s.refetches);
            && w'.outstanding == 0 && w'.s.stash == []
            && (w.outstanding > 0 ==> w'.s.held == Some(r))
    decreases w.outstanding + 1 - w.s.refetches
  {
    if w.outstanding > 0 {
      var w1 := Step(w, KeyReply, r);
      StepInv(w, KeyReply, stale, r);
      OneAskPerRefetch(w.s.(held := Some(r), stash := []), w.s.stash);
      AnswersSettle(w1, stale, r);
    }
  }

  lemma {:induction false} OneAskPerRefetch(s: State, fs: seq<Frame>)
    requires s.held.Some?
    ensures OnFrames(s, fs).asked - s.asked == OnFrames(s, fs).refetches - s.refetches
    decreases |fs|
  {
    if fs != [] { OneAskPerRefetch(OnFrame(s, fs[0]), fs[1..]); }
  }

  lemma AnswersSettleInRuns(ws: seq<Session>, es: seq<Event>, stale: Id, r: Id, k: nat)
    requires Run(ws, es, r) && OnlyStates(es, stale) && k <= |es|
    ensures ws[k].s.refetches <= 1
    ensures var w := ws[k];
            var w' := Replies(w, r, w.outstanding + 1 - w.s.refetches);
            && w'.outstanding == 0 && w'.s.stash == []
            && (w.outstanding > 0 ==> w'.s.held == Some(r))
  {
    RunInv(ws, es, stale, r, k);
    AnswersSettle(ws[k], stale, r);
  }

  // ---- any handshakes at all -----------------------------------------------------------------

  predicate Matters(f: Frame) {
    f.Handshake? && f.ik.Some?
  }

  predicate Only(fs: seq<Frame>, x: Id, y: Id) {
    forall i :: 0 <= i < |fs| && Matters(fs[i]) ==> fs[i].ik.value == x || fs[i].ik.value == y
  }

  /** The stash from its first handshake on that states neither x nor the adopted identity. */
  function From(fs: seq<Frame>, x: Id, adopted: Option<Id>): (g: seq<Frame>)
    ensures g != [] ==> Matters(g[0]) && g[0].ik != Some(x) && g[0].ik != adopted
  {
    if fs == [] then []
    else if Matters(fs[0]) && fs[0].ik != Some(x) && fs[0].ik != adopted then fs
    else From(fs[1..], x, adopted)
  }

  /** The last identity stated, or x. */
  function Last(fs: seq<Frame>, x: Id): Id {
    if fs == [] then x
    else Last(fs[1..], if Matters(fs[0]) then fs[0].ik.value else x)
  }

  /** Whether the relay's answers end the exchange, read off the stash: skip the leading
      handshakes that state the relay's key or the identity adopted last; nothing may be
      left, or the rest states only the relay's key and its own first identity, and ends
      with that identity. */
  predicate Settles(s: State, r: Id) {
    var g := From(s.stash, r, s.adopted);
    g == [] || (Only(g, r, g[0].ik.value) && Last(g, r) == g[0].ik.value)
  }

  /** What stays stashed of frames handled after identity x was adopted. */
  function Again(fs: seq<Frame>, x: Id): (g: seq<Frame>)
    ensures |g| <= |fs|
  {
    if fs == [] then []
    else if Matters(fs[0]) && fs[0].ik.value != x then [fs[0]] + Again(fs[1..], fs[0].ik.value)
    else Again(fs[1..], x)
  }

  lemma {:induction false} OnceAdopted(s: State, fs: seq<Frame>, x: Id)
    requires s.held == Some(x) && s.adopted == Some(x)
    ensures var (t, g) := (OnFrames(s, fs), Again(fs, x));
            && t.stash == s.stash + g && t.asked == s.asked + |g|
            && t.held == t.adopted == Some(Last(fs, x))
    decreases |fs|
  {
    if fs != [] {
      OnceAdopted(OnFrame(s, fs[0]), fs[1..], if Matters(fs[0]) then fs[0].ik.value else x);
    }
  }

  function Restashed(fs: seq<Frame>, r: Id, adopted: Option<Id>): seq<Frame> {
    var g := From(fs, r, adopted);
    if g == [] then [] else [g[0]] + Again(g[1..], g[0].ik.value)
  }

  /** One answer: what is stashed again, and how many requests that costs. */
  lemma {:induction false} Answered(s: State, fs: seq<Frame>, r: Id)
    requires s.held == Some(r) && s.stash == []
    ensures var (t, g) := (OnFrames(s, fs), Restashed(fs, r, s.adopted));
            && t.stash == g && t.asked == s.asked + |g|
            && (g == [] ==> t.held == Some(r) && t.adopted == s.adopted)
            && (g != [] ==> t.adopted == Some(Last(From(fs, r, s.adopted), r)))
    decreases |fs|
  {
    if fs != [] {
      var t := OnFrame(s, fs[0]);
      if Matters(fs[0]) && fs[0].ik != Some(r) && fs[0].ik != s.adopted {
        OnceAdopted(t, fs[1..], fs[0].ik.value);
      } else {
        Answered(t, fs[1..], r);
      }
    }
  }

  lemma AnswerStep(w: Session, r: Id)
    requires w.outstanding > 0
    ensures var (t, g) := (Step(w, KeyReply, r), Restashed(w.s.stash, r, w.s.adopted));
            && t.s.stash == g && t.outstanding == w.outstanding - 1 + |g|
            && (g == [] ==> t.s.held == Some(r) && t.s.adopted == w.s.adopted)
            && (g != [] ==> t.s.adopted == Some(Last(From(w.s.stash, r, w.s.adopted), r)))
  {
    Answered(w.s.(held := Some(r), stash := []), w.s.stash, r);
  }

  // A stash that an answer leaves: every handshake states something, and no two neighbours
  // state the same.

  predicate Clean(fs: seq<Frame>) {
    && (forall i :: 0 <= i < |fs| ==> Matters(fs[i]))
    && (forall i :: 0 < i < |fs| ==> fs[i].ik != fs[i - 1].ik)
  }

  lemma {:induction false} AgainFacts(fs: seq<Frame>, x: Id, r: Id, y: Id)
    ensures var g := Again(fs, x);
            && Clean(g) && (g != [] ==> g[0].ik != Some(x))
            && Last(g, x) == Last(fs, x)
            && (x == r || x == y ==> (Only(g, r, y) <==> Only(fs, r, y)))
    decreases |fs|
  {
    if fs != [] {
      var x1 := if Matters(fs[0]) then fs[0].ik.value else x;
      var rest := Again(fs[1..], x1);
      AgainFacts(fs[1..], x1, r, y);
      OnlyCons(fs[0], fs[1..], r, y);
      assert [fs[0]] + fs[1..] == fs;
      if Matters(fs[0]) && fs[0].ik.value != x {
        OnlyCons(fs[0], rest, r, y);
        assert ([fs[0]] + rest)[1..] == rest;
      }
    }
  }

  lemma OnlyCons(f: Frame, fs: seq<Frame>, x: Id, y: Id)
    ensures Only([f] + fs, x, y) <==> (Matters(f) ==> f.ik.value == x || f.ik.value == y) && Only(fs, x, y)
  {
    var all := [f] + fs;
    assert all[0] == f;
    assert forall i :: 0 <= i < |fs| ==> fs[i] == all[i + 1];
    assert forall i :: 0 < i < |all| ==> all[i] == fs[i - 1];
  }

  lemma {:induction false} CleanStays(f: Frame, fs: seq<Frame>)
    requires Matters(f) && Clean([f] + fs)
    ensures Again(fs, f.ik.value) == fs
    decreases |fs|
  {
    if fs != [] {
      assert ([f] + fs)[1] == fs[0] && ([f] + fs)[0] == f;
      assert fs == [fs[0]] + fs[1..];
      assert forall i :: 0 <= i < |fs| ==> fs[i] == ([f] + fs)[i + 1];
      CleanStays(fs[0], fs[1..]);
    }
  }

  /** The stash an answer leaves keeps the first and the last identity, and which are stated. */
  lemma RestashedFacts(fs: seq<Frame>, r: Id, adopted: Option<Id>)
    ensures var (g, c) := (From(fs, r, adopted), Restashed(fs, r, adopted));
            && Clean(c) && (g == [] <==> c == [])
            && (g != [] ==> c[0] == g[0] && Last(c, r) == Last(g, r)
                            && (Only(c, r, g[0].ik.value) <==> Only(g, r, g[0].ik.value)))
  {
    var g := From(fs, r, adopted);
    if g != [] {
      var y := g[0].ik.value;
      var again := Again(g[1..], y);
      AgainFacts(g[1..], y, r, y);
      OnlyCons(g[0], g[1..], r, y);
      OnlyCons(g[0], again, r, y);
      assert g == [g[0]] + g[1..];
      assert ([g[0]] + again)[1..] == again;
    }
  }

  lemma {:induction false} FromClean(c: seq<Frame>, r: Id, x: Id)
    requires Clean(c)
    ensures var g := From(c, r, Some(x));
            && Clean(g) && |g| <= |c| && (g == [] <==> Only(c, r, x))
            && (g != [] ==> Last(g, r) == Last(c, r) && Restashed(c, r, Some(x)) == g)
    decreases |c|
  {
    if c != [] {
      OnlyCons(c[0], c[1..], r, x);
      assert c == [c[0]] + c[1..];
      if c[0].ik == Some(r) || c[0].ik == Some(x) {
        assert Clean(c[1..]);
        FromClean(c[1..], r, x);
        if c[1..] != [] { LastIgnores(c[1..], c[0].ik.value, r); }
      } else {
        CleanStays(c[0], c[1..]);
      }
    }
  }

  lemma LastIgnores(fs: seq<Frame>, x: Id, y: Id)
    requires fs != [] && Matters(fs[0])
    ensures Last(fs, x) == Last(fs, y)
  {}

  lemma {:induction false} LastStated(fs: seq<Frame>, x: Id)
    requires Clean(fs) && fs != []
    ensures Some(Last(fs, x)) == fs[|fs| - 1].ik
    decreases |fs|
  {
    if |fs| > 1 {
      LastStated(fs[1..], fs[0].ik.value);
    } else {
      assert fs[1..] == [];
    }
  }

  /** A stash that every answer reproduces, at the price of more requests than it settles. */
  predicate Spinning(w: Session, r: Id) {
    && Clean(w.s.stash) && w.s.stash != [] && w.outstanding > 0
    && w.s.adopted == Some(Last(w.s.stash, r))
    && w.s.stash[0].ik != Some(r) && w.s.stash[0].ik != w.s.adopted
  }

  lemma SpinOnce(w: Session, r: Id)
    requires Spinning(w, r)
    ensures var t := Step(w, KeyReply, r);
            Spinning(t, r) && t.s.stash == w.s.stash && t.outstanding == w.outstanding + |w.s.stash| - 1
            && |w.s.stash| >= 2
  {
    var c := w.s.stash;
    AnswerStep(w, r);
    CleanStays(c[0], c[1..]);
    assert c == [c[0]] + c[1..];
    LastStated(c, r);
  }

  lemma {:induction false} SpinsForEver(w: Session, r: Id, n: nat)
    requires Spinning(w, r)
    ensures var t := Replies(w, r, n);
            Spinning(t, r) && t.s.stash == w.s.stash && t.outstanding == w.outstanding + n * (|w.s.stash| - 1)
    decreases n
  {
    if n > 0 {
      SpinOnce(w, r);
      SpinsForEver(Step(w, KeyReply, r), r, n - 1);
    }
  }

  lemma {:induction false} CalmSettles(w: Session, r: Id)
    requires w.s.stash == []
    ensures var t := Replies(w, r, w.outstanding);
            t.outstanding == 0 && t.s.stash == [] && (w.outstanding > 0 || w.s.held == Some(r) ==> t.s.held == Some(r))
    decreases w.outstanding
  {
    if w.outstanding > 0 {
      AnswerStep(w, r);
      CalmSettles(Step(w, KeyReply, r), r);
    }
  }

  predicate Calm(w: Session, r: Id) {
    w.s.stash == [] && w.s.held == Some(r)
  }

  /** Where two answers lead: to a calm stash, or to a spinning one. */
  lemma TwoAnswers(w: Session, r: Id)
    requires w.outstanding > 0
    ensures var w1 := Step(w, KeyReply, r);
            if Settles(w.s, r) then
              Calm(w1, r) || (w1.outstanding > 0 && Calm(Step(w1, KeyReply, r), r))
            else
              w1.outstanding > 0 && (Spinning(w1, r) || Spinning(Step(w1, KeyReply, r), r))
  {
    var w1 := Step(w, KeyReply, r);
    var (g, c) := (From(w.s.stash, r, w.s.adopted), Restashed(w.s.stash, r, w.s.adopted));
    AnswerStep(w, r);
    RestashedFacts(w.s.stash, r, w.s.adopted);
    if c != [] {
      var x := Last(c, r);
      AnswerStep(w1, r);
      FromClean(c, r, x);
      RestashedFacts(c, r, Some(x));
      hide From, Again, Restashed, Step, Only, Clean;
    }
  }

  lemma {:induction false} AnswersCompose(w: Session, r: Id, n: nat, m: nat)
    ensures Replies(Replies(w, r, n), r, m) == Replies(w, r, n + m)
    decreases n
  {
    if n > 0 && w.outstanding > 0 { AnswersCompose(Step(w, KeyReply, r), r, n - 1, m); }
  }

  lemma Settled(w: Session, r: Id) returns (n: nat)
    requires w.outstanding > 0
    requires var w1 := Step(w, KeyReply, r); Calm(w1, r) || (w1.outstanding > 0 && Calm(Step(w1, KeyReply, r), r))
    ensures var t := Replies(w, r, n); t.outstanding == 0 && t.s.stash == [] && t.s.held == Some(r)
  {
    hide Step;
    var w1 := Step(w, KeyReply, r);
    if Calm(w1, r) {
      CalmSettles(w1, r);
      n := 1 + w1.outstanding;
    } else {
      var w2 := Step(w1, KeyReply, r);
      CalmSettles(w2, r);
      n := 2 + w2.outstanding;
      assert Replies(w1, r, n - 1) == Replies(w2, r, n - 2);
    }
  }

  lemma NeverSettled(w: Session, r: Id, n: nat)
    requires w.outstanding > 0
    requires var w1 := Step(w, KeyReply, r);
             w1.outstanding > 0 && (Spinning(w1, r) || Spinning(Step(w1, KeyReply, r), r))
    ensures Replies(w, r, n).outstanding > 0
  {
    hide Step;
    var w1 := Step(w, KeyReply, r);
    if n > 0 {
      if Spinning(w1, r) {
        SpinsForEver(w1, r, n - 1);
      } else if n > 1 {
        SpinsForEver(Step(w1, KeyReply, r), r, n - 2);
        assert Replies(w1, r, n - 1) == Replies(Step(w1, KeyReply, r), r, n - 2);
      }
    }
  }

  /** What ends the exchange, exactly, from any state whatever and with any handshakes in
      the stash: some number of the relay's answers settles every request if and only if
      Settles holds of the stash; then nothing is stashed and the relay's key is held.
      Otherwise the answers cause requests for ever. */
  lemma SettlesExactly(w: Session, r: Id)
    requires w.outstanding > 0
    ensures (exists n: nat :: Replies(w, r, n).outstanding == 0) <==> Settles(w.s, r)
    ensures Settles(w.s, r) ==>
              exists n: nat :: Replies(w, r, n).outstanding == 0 && Replies(w, r, n).s.stash == []
                               && Replies(w, r, n).s.held == Some(r)
  {
    TwoAnswers(w, r);
    hide Settles, Step, Spinning, Calm;
    if Settles(w.s, r) {
      var n := Settled(w, r);
    } else {
      forall n: nat ensures Replies(w, r, n).outstanding > 0 {
        NeverSettled(w, r, n);
      }
    }
  }

  /** The state after handshakes stating s1 and s2 reach a client that holds the relay's
      key r; `between` says that the relay answers in between. */
  function AfterTwo(s1: Id, s2: Id, r: Id, between: bool): Session {
    var w1 := Step(Start(Some(r)), Arrives(Handshake(Some(s1))), r);
    var w2 := if between && w1.outstanding > 0 then Step(w1, KeyReply, r) else w1;
    Step(w2, Arrives(Handshake(Some(s2))), r)
  }

  /** Two reachable cases of that.  With the relay's answer in between any two identities
      settle.  Without it they settle exactly if the two are the same or the first is the
      relay's own; a superseded identity followed by the current one does not. */
  lemma TwoHandshakes(s1: Id, s2: Id, r: Id)
    ensures var w := AfterTwo(s1, s2, r, true); w.outstanding == 0 || Settles(w.s, r)
    ensures var w := AfterTwo(s1, s2, r, false); w.outstanding == 0 || Settles(w.s, r) <==> s1 == s2 || s1 == r
  {
    var h1, h2 := Handshake(Some(s1)), Handshake(Some(s2));
    var w1 := Step(Start(Some(r)), Arrives(h1), r);
    OneStashed(s1, r);
    OneStashed(s2, r);
    if s1 != r {
      assert w1.s.stash == [h1] && w1.s.adopted == Some(s1) && w1.outstanding == 1;
      AnswerStep(w1, r);
      var w2 := Step(w1, KeyReply, r);
      assert w2.s.stash == [] && w2.outstanding == 0 && w2.s.held == Some(r) && w2.s.adopted == Some(s1);
      assert AfterTwo(s1, s2, r, true) == Step(w2, Arrives(h2), r);
      assert w2.s.stash + [h2] == [h2];
      if s2 != s1 {
        var w := AfterTwo(s1, s2, r, false);
        assert w.s.stash == [h1, h2] && w.s.adopted == Some(s2);
        assert From([h1, h2], r, Some(s2)) == [h1, h2];
        assert [h1, h2][1..] == [h2] && [h2][1..] == [];
        assert Last([h1, h2], r) == Last([h2], s1) == Last([], s2) == s2;
      }
    } else {
      assert w1.s.stash + [h2] == [h2];
    }
  }

  /** A lone handshake is dropped once its identity has been adopted. */
  lemma OneStashed(s: Id, r: Id)
    ensures var h := Handshake(Some(s)); From([h], r, Some(s)) == []
  {
    assert [Handshake(Some(s))][1..] == [];
  }

  // ---- what becomes of the frames ------------------------------------------------------------

  /** The frames that state no identity, in order. */
  function Plain(fs: seq<Frame>): seq<Frame> {
    if fs == [] then []
    else Plain(fs[..|fs| - 1]) + if Matters(fs[|fs| - 1]) then [] else [fs[|fs| - 1]]
  }

  lemma PlainAppend(fs: seq<Frame>, f: Frame)
    ensures Plain(fs + [f]) == Plain(fs) + if Matters(f) then [] else [f]
  {
    assert (fs + [f])[..|fs|] == fs;
  }

  lemma {:induction false} PlainParts(a: seq<Frame>, b: seq<Frame>)
    ensures Plain(a + b) == Plain(a) + Plain(b)
    decreases |b|
  {
    if b == [] {
      assert a + b == a;
    } else {
      var n := |b| - 1;
      assert a + b == (a + b[..n]) + [b[n]];
      PlainAppend(a + b[..n], b[n]);
      PlainParts(a, b[..n]);
    }
  }

  /** With a key held only handshakes wait. */
  predicate OnlyStatedWait(s: State) {
    s.held.Some? ==> Plain(s.stash) == []
  }

  lemma PlainOne(f: Frame)
    ensures Plain([f]) == (if Matters(f) then [] else [f]) && Plain([]) == []
  {
    assert [f][..0] == [];
  }

  lemma FramePasses(s: State, f: Frame)
    requires OnlyStatedWait(s)
    ensures var t := OnFrame(s, f);
            && OnlyStatedWait(t) && (s.held.Some? ==> t.held.Some?)
            && Plain(t.passed) + Plain(t.stash) == Plain(s.passed) + Plain(s.stash) + Plain([f])
            && (s.held.Some? ==> Plain(t.passed) == Plain(s.passed) + Plain([f]))
  {
    hide Plain;
    PlainOne(f);
    PlainAppend(s.stash, f);
    PlainAppend(s.passed, f);
    var (a, b, c) := (Plain(s.passed), Plain(s.stash), Plain([f]));
    assert a + (b + c) == (a + b) + c;
    assert c == [] ==> a + b + c == a + b && a + c == a;
    assert b == [] ==> (a + c) + b == a + b + c;
  }

  lemma {:induction false} FramesPass(s: State, fs: seq<Frame>)
    requires OnlyStatedWait(s) && s.held.Some?
    ensures var t := OnFrames(s, fs);
            OnlyStatedWait(t) && t.held.Some? && Plain(t.passed) == Plain(s.passed) + Plain(fs)
    decreases |fs|
  {
    if fs != [] {
      FramePasses(s, fs[0]);
      FramesPass(OnFrame(s, fs[0]), fs[1..]);
      assert fs == [fs[0]] + fs[1..];
      PlainParts([fs[0]], fs[1..]);
      hide OnFrame, Plain;
    }
  }

  /** The frames that arrived in the first k events. */
  function Arrived(es: seq<Event>, k: nat): seq<Frame>
    requires k <= |es|
  {
    if k == 0 then [] else Arrived(es, k - 1) + if es[k - 1].Arrives? then [es[k - 1].f] else []
  }

  lemma EventPasses(w: Session, e: Event, r: Id)
    requires OnlyStatedWait(w.s) && Enabled(w, e)
    ensures var t := Step(w, e, r).s;
            && OnlyStatedWait(t)
            && Plain(t.passed) + Plain(t.stash)
                 == Plain(w.s.passed) + Plain(w.s.stash) + Plain(if e.Arrives? then [e.f] else [])
  {
    if e.Arrives? {
      FramePasses(w.s, e.f);
    } else {
      var s0 := w.s.(held := Some(r), stash := []);
      assert Plain([]) == [];
      FramesPass(s0, w.s.stash);
      assert Plain(OnFrames(s0, w.s.stash).stash) == [];
    }
    hide OnFrame, Plain;
  }

  /** No ordinary frame is lost, repeated or overtaken, whatever handshakes come between: over
      every run those passed on and then those waiting are all that arrived, in order, and none
      waits once a key is held. */
  lemma {:induction false} PlainFramesPass(ws: seq<Session>, es: seq<Event>, r: Id, k: nat)
    requires Run(ws, es, r) && k <= |es|
    ensures Plain(ws[k].s.passed) + Plain(ws[k].s.stash) == Plain(Arrived(es, k))
    ensures ws[k].s.held.Some? ==> Plain(ws[k].s.stash) == []
  {
    hide OnFrame, OnFrames, Plain, Step;
    if k == 0 {
      NothingArrived(ws, es, r);
    } else {
      PlainFramesPass(ws, es, r, k - 1);
      EventPasses(ws[k - 1], es[k - 1], r);
      PlainParts(Arrived(es, k - 1), if es[k - 1].Arrives? then [es[k - 1].f] else []);
    }
  }

  lemma NothingArrived(ws: seq<Session>, es: seq<Event>, r: Id)
    requires Run(ws, es, r)
    ensures Plain(ws[0].s.passed) == [] && Plain(ws[0].s.stash) == [] && Plain(Arrived(es, 0)) == []
  {}

  /** A key is held after k events: the session began with one, or the relay stated one. */
  predicate KeyKnown(held: Option<Id>, es: seq<Event>, k: nat)
    requires k <= |es|
  {
    held.Some? || (k > 0 && (!es[k - 1].Arrives? || KeyKnown(held, es, k - 1)))
  }

  /** Frames that arrived while no key was held. */
  function Keyless(held: Option<Id>, es: seq<Event>, k: nat): nat
    requires k <= |es|
  {
    if k == 0 then 0
    else Keyless(held, es, k - 1) + if es[k - 1].Arrives? && !KeyKnown(held, es, k - 1) then 1 else 0
  }

  lemma {:induction false} FramesKeepKey(s: State, fs: seq<Frame>)
    requires s.held.Some?
    ensures OnFrames(s, fs).held.Some?
    decreases |fs|
  {
    if fs != [] { FramesKeepKey(OnFrame(s, fs[0]), fs[1..]); }
  }

  /** Requests, exactly: over every run one for each frame that came while no key was held, and
      one for each refetch. */
  lemma {:induction false} AskedExactly(ws: seq<Session>, es: seq<Event>, r: Id, k: nat)
    requires Run(ws, es, r) && k <= |es|
    ensures ws[k].s.held.Some? <==> KeyKnown(ws[0].s.held, es, k)
    ensures ws[k].s.asked == Keyless(ws[0].s.held, es, k) + ws[k].s.refetches
  {
    if k > 0 {
      AskedExactly(ws, es, r, k - 1);
      var s := ws[k - 1].s;
      if !es[k - 1].Arrives? {
        OneAskPerRefetch(s.(held := Some(r), stash := []), s.stash);
        FramesKeepKey(s.(held := Some(r), stash := []), s.stash);
      }
    }
  }

  /** A handshake passes on exactly if a key is held and it states that key. */
  lemma HandshakePasses(ws: seq<Session>, es: seq<Event>, r: Id, k: nat)
    requires Run(ws, es, r) && k < |es| && es[k].Arrives? && Matters(es[k].f)
    ensures var (s, t, f) := (ws[k].s, ws[k + 1].s, es[k].f);
            && t.passed == s.passed + (if s.held.Some? && f.ik == s.held then [f] else [])
            && (t.stash == s.stash + [f] <==> s.held.None? || (f.ik != s.held && f.ik != s.adopted))
            && (t.held != s.held <==> s.held.Some? && f.ik != s.held && f.ik != s.adopted)
            && (t.asked != s.asked <==> t.stash != s.stash)
  {
    assert |ws[k].s.stash + [es[k].f]| == |ws[k].s.stash| + 1;
  }

  // ---- the client object -----------------------------------------------------------------

  type Peer = nat

  class Client {
    var peerKeys: map<Peer, Id>
    var rebootstrapAdopted: map<Peer, Id>
    var pendingFrames: map<Peer, seq<Frame>>
    var asked: map<Peer, nat>
    var refetches: map<Peer, nat>
    var passed: map<Peer, seq<Frame>>

    ghost function About(p: Peer): State
      reads this
    {
      State(if p in peerKeys then Some(peerKeys[p]) else None,
            if p in rebootstrapAdopted then Some(rebootstrapAdopted[p]) else None,
            if p in pendingFrames then pendingFrames[p] else [],
            if p in asked then asked[p] else 0,
            if p in refetches then refetches[p] else 0,
            if p in passed then passed[p] else [])
    }

    constructor ()
      ensures forall p :: About(p) == Start(None).s
    {
      peerKeys, rebootstrapAdopted, pendingFrames := map[], map[], map[];
      asked, refetches, passed := map[], map[], map[];
    }

    method RequestKeyFor(p: Peer)
      modifies this`asked
      ensures About(p) == old(About(p)).(asked := old(About(p)).asked + 1)
      ensures forall q :: q != p ==> About(q) == old(About(q))
    {
      asked := asked[p := (if p in asked then asked[p] else 0) + 1];
    }

    method Stash(p: Peer, f: Frame)
      modifies this`pendingFrames
      ensures About(p) == old(About(p)).(stash := old(About(p)).stash + [f])
      ensures forall q :: q != p ==> About(q) == old(About(q))
    {
      pendingFrames := pendingFrames[p := (if p in pendingFrames then pendingFrames[p] else []) + [f]];
    }

    method Adopt(p: Peer, ik: Id)
      modifies this`rebootstrapAdopted, this`peerKeys, this`refetches
      ensures var s := old(About(p)); About(p) == s.(adopted := Some(ik), held := Some(ik), refetches := s.refetches + 1)
      ensures forall q :: q != p ==> About(q) == old(About(q))
    {
      rebootstrapAdopted := rebootstrapAdopted[p := ik];
      peerKeys := peerKeys[p := ik];
      refetches := refetches[p := (if p in refetches then refetches[p] else 0) + 1];
    }

    method HandleMsg(p: Peer, f: Frame)
      modifies this
      ensures About(p) == OnFrame(old(About(p)), f)
      ensures forall q :: q != p ==> About(q) == old(About(q))
    {
      if p !in peerKeys {
        Stash(p, f);
        RequestKeyFor(p);
        return;
      }
      if f.Handshake? && f.ik.Some? && f.ik.value != peerKeys[p] {
        var alreadyAdopted := p in rebootstrapAdopted && rebootstrapAdopted[p] == f.ik.value;
        if !alreadyAdopted {
          Adopt(p, f.ik.value);
          Stash(p, f);
          RequestKeyFor(p);
        }
        // A frame already adopted once still differs from the key held, so it is dropped.
        return;
      }
      passed := passed[p := (if p in passed then passed[p] else []) + [f]];
    }

    method HandleKey(p: Peer, r: Id)
      modifies this
      ensures About(p) == OnKey(old(About(p)), r)
      ensures forall q :: q != p ==> About(q) == old(About(q))
    {
      peerKeys := peerKeys[p := r];
      if p !in pendingFrames { return; }
      var frames := pendingFrames[p];
      pendingFrames := pendingFrames - {p};
      ghost var s0 := About(p);
      assert forall q :: q != p ==> About(q) == old(About(q));
      for i := 0 to |frames|
        invariant OnFrames(About(p), frames[i..]) == OnFrames(s0, frames)
        invariant forall q :: q != p ==> About(q) == old(About(q))
      {
        assert frames[i..][0] == frames[i] && frames[i..][1..] == frames[i + 1..];
        HandleMsg(p, frames[i]);
      }
    }
  }
}
