/**
 Files under arbitrary frames: what the receiving client reports and holds whatever reaches it,
 and which frames the relay's chunk store ever takes.
 */
module FileIntegrity {
  import opened Bytes
  import opened Wrappers
  import opened FileStream
  import opened FileTransfer

  // ---- the receiving client ----------------------------------------------------------------

  /** A frame long enough to name a file, and this one. */
  predicate Carries(f: Frame, id: seq<Byte>) {
    |f.head| >= HEAD_BYTES && f.head[..ID_BYTES] == id
  }

  /** The frames that carry the id, cut to the bytes that are looked at. */
  function Own(id: seq<Byte>, fs: seq<Frame>): seq<Frame> {
    if fs == [] then []
    else (if Carries(fs[0], id) then [Frame(fs[0].head[..HEAD_BYTES], fs[0].body)] else []) + Own(id, fs[1..])
  }

  /** Nothing but the sender's own chunks was ever sealed under this key and header. */
  predicate AuthenticFrames(fs: seq<Frame>, key: seq<Byte>, header: seq<Byte>, plain: seq<Byte>) {
    forall i :: 0 <= i < |fs| ==> AuthenticBody(fs[i].body, key, header, plain)
  }

  predicate AuthenticBody(c: Cipher, key: seq<Byte>, header: seq<Byte>, plain: seq<Byte>) {
    c.Sealed? && c.key == key && c.header == header ==> c in Stream(key, header, plain, Pieces(|plain|))
  }

  /** How far `own` follows the list from position i on. */
  function Matched(own: seq<Frame>, list: seq<Frame>, i: nat): (m: nat)
    requires i <= |list|
    ensures i <= m <= |list| && m - i <= |own|
    decreases |list| - i
  {
    if own == [] || i == |list| || own[0] != list[i] then i else Matched(own[1..], list, i + 1)
  }

  /** Which is how many frames the two have in common at the start. */
  lemma {:induction false} MatchedIsCommon(own: seq<Frame>, list: seq<Frame>, i: nat)
    requires i <= |list|
    ensures var m := Matched(own, list, i);
            && list[i..m] == own[..m - i]
            && (m < |list| && m - i < |own| ==> own[m - i] != list[m])
    decreases |list| - i
  {
    if own != [] && i < |list| && own[0] == list[i] {
      MatchedIsCommon(own[1..], list, i + 1);
      var m := Matched(own, list, i);
      assert list[i..m] == [list[i]] + list[i + 1..m];
      assert own[..m - i] == [own[0]] + own[1..][..m - i - 1];
    }
  }

  /** The state of the receiver after i frames of the file. */
  function HalfWay(id: seq<Byte>, key: seq<Byte>, header: seq<Byte>, plain: seq<Byte>, i: nat): Incoming {
    Incoming(id, key, header, i, plain[..Cut(|plain|, i)], Receiving)
  }

  /** 1 if the frame came in its turn, so that only its chunk can be wrong. */
  function RightHead(f: Frame, expected: Frame): nat {
    if |f.head| >= HEAD_BYTES && f.head[..HEAD_BYTES] == expected.head then 1 else 0
  }

  /** How many frames were counted: those taken, and one that came in its turn and did not open. */
  function Looked(own: seq<Frame>, list: seq<Frame>, i: nat, m: nat): nat {
    m + if i <= m < |list| && m - i < |own| then RightHead(own[m - i], list[m]) else 0
  }

  lemma LookedNext(own: seq<Frame>, list: seq<Frame>, i: nat, m: nat)
    requires own != [] && i < m
    ensures Looked(own, list, i, m) == Looked(own[1..], list, i + 1, m)
  {}

  lemma Closed(s: Incoming, fs: seq<Frame>)
    requires s.status != Receiving
    ensures OnFrames(s, fs) == s && OnEnd(s) == s
    decreases |fs|
  {
    if fs != [] {
      Closed(s, fs[1..]);
    }
  }

  /** One frame that carries the id: the next of the file is taken, any other fails the transfer. */
  lemma OneFrame(id: seq<Byte>, key: seq<Byte>, header: seq<Byte>, plain: seq<Byte>, i: nat, f: Frame)
    requires |id| == ID_BYTES && |plain| <= MAX_FILE_BYTES && i < Pieces(|plain|)
    requires Carries(f, id) && AuthenticBody(f.body, key, header, plain)
    ensures var (s, t) := (HalfWay(id, key, header, plain, i), OnBinary(HalfWay(id, key, header, plain, i), f));
            if Frame(f.head[..HEAD_BYTES], f.body) == FileFrames(id, key, header, plain)[i] then
              t == HalfWay(id, key, header, plain, i + 1).(status := if i + 1 == Pieces(|plain|) then Received else Receiving)
            else t.status == Failed && t.out == s.out && t.next == i + RightHead(f, FileFrames(id, key, header, plain)[i])
  {
    FrameAt(id, key, header, plain, i);
    var sent := FileFrames(id, key, header, plain)[i];
    var n := Pieces(|plain|);
    OpensOnlyOwn(key, header, plain, n, i, f.body);
    assert sent.body == Stream(key, header, plain, n)[i];
    HeadDecides(f.head, id, i);
    assert plain[..Cut(|plain|, i)] + Piece(plain, i) == plain[..Cut(|plain|, i + 1)];
    hide FileFrames, Pieces;
  }

  lemma IndexBytes(b: seq<Byte>)
    requires |b| == 4
    ensures BigEndian4(FromBigEndian4(b)) == b
  {
    var (n, low) := (FromBigEndian4(b), b[3] as int);
    var high := (b[0] as int) * 0x1_0000 + (b[1] as int) * 0x100 + (b[2] as int);
    assert n == 256 * high + low;
    assert n / 256 == high && n % 256 == low;
    var top := (b[0] as int) * 0x100 + (b[1] as int);
    assert high == 256 * top + b[2];
    assert high / 256 == top && high % 256 == b[2];
    assert top / 256 == b[0] && top % 256 == b[1];
  }

  /** The first forty bytes are the id and the index exactly if the index reads so. */
  lemma HeadDecides(head: seq<Byte>, id: seq<Byte>, i: nat)
    requires |head| >= HEAD_BYTES && |id| == ID_BYTES && head[..ID_BYTES] == id && i < 0x8000_0000
    ensures AsInt32(FromBigEndian4(head[ID_BYTES..HEAD_BYTES])) == i <==> head[..HEAD_BYTES] == id + BigEndian4(i)
  {
    var b := head[ID_BYTES..HEAD_BYTES];
    IndexBytes(b);
    hide BigEndian4, FromBigEndian4;
    assert head[..HEAD_BYTES] == id + b;
    assert (id + BigEndian4(i))[ID_BYTES..] == BigEndian4(i) && (id + b)[ID_BYTES..] == b;
  }

  lemma {:induction false} FromHere(id: seq<Byte>, key: seq<Byte>, header: seq<Byte>, plain: seq<Byte>, i: nat, fs: seq<Frame>)
    requires |id| == ID_BYTES && |plain| <= MAX_FILE_BYTES && i < Pieces(|plain|)
    requires AuthenticFrames(fs, key, header, plain)
    ensures var (own, list) := (Own(id, fs), FileFrames(id, key, header, plain));
            var (t, m) := (OnFrames(HalfWay(id, key, header, plain, i), fs), Matched(own, list, i));
            && t.out == plain[..Cut(|plain|, m)]
            && t.status == (if m == |list| then Received else if m - i == |own| then Receiving else Failed)
            && t.next == Looked(own, list, i, m)
    decreases |fs|
  {
    hide FileFrames, Pieces, Cut, HalfWay, AuthenticBody, Carries;
    if fs == [] {
      HalfWayIs(id, key, header, plain, i);
    } else {
      var (s, f) := (HalfWay(id, key, header, plain, i), fs[0]);
      HalfWayIs(id, key, header, plain, i);
      if Carries(f, id) {
        FromThisFrame(id, key, header, plain, i, fs);
      } else {
        NotOurs(s, f);
        assert Own(id, fs) == Own(id, fs[1..]);
        FromHere(id, key, header, plain, i, fs[1..]);
      }
    }
  }

  lemma NotOurs(s: Incoming, f: Frame)
    requires !Carries(f, s.id)
    ensures OnBinary(s, f) == s
  {}

  lemma HalfWayIs(id: seq<Byte>, key: seq<Byte>, header: seq<Byte>, plain: seq<Byte>, i: nat)
    ensures var s := HalfWay(id, key, header, plain, i);
            s.id == id && s.out == plain[..Cut(|plain|, i)] && s.status == Receiving && s.next == i
  {}

  lemma FromThisFrame(id: seq<Byte>, key: seq<Byte>, header: seq<Byte>, plain: seq<Byte>, i: nat, fs: seq<Frame>)
    requires |id| == ID_BYTES && |plain| <= MAX_FILE_BYTES && i < Pieces(|plain|)
    requires fs != [] && Carries(fs[0], id) && AuthenticFrames(fs, key, header, plain)
    ensures var (own, list) := (Own(id, fs), FileFrames(id, key, header, plain));
            var (t, m) := (OnFrames(HalfWay(id, key, header, plain, i), fs), Matched(own, list, i));
            && t.out == plain[..Cut(|plain|, m)]
            && t.status == (if m == |list| then Received else if m - i == |own| then Receiving else Failed)
            && t.next == Looked(own, list, i, m)
    decreases |fs|, 0
  {
    hide FileFrames, Pieces, Cut, HalfWay, AuthenticBody, OnBinary, Matched, Looked, Own, OnFrames, RightHead;
    var s := HalfWay(id, key, header, plain, i);
    OneFrame(id, key, header, plain, i, fs[0]);
    HalfWayIs(id, key, header, plain, i);
    HalfWayIs(id, key, header, plain, i + 1);
    var (t, own, list) := (OnBinary(s, fs[0]), Own(id, fs), FileFrames(id, key, header, plain));
    Unrolled(id, s, fs);
    MatchedNext(own, list, i);
    HeadCut(fs[0], list[i]);
    if own[0] == list[i] && i + 1 < |list| {
      FromHere(id, key, header, plain, i + 1, fs[1..]);
    } else {
      Closed(t, fs[1..]);
    }
  }

  lemma HeadCut(f: Frame, expected: Frame)
    requires |f.head| >= HEAD_BYTES
    ensures RightHead(Frame(f.head[..HEAD_BYTES], f.body), expected) == RightHead(f, expected)
  {
    assert f.head[..HEAD_BYTES][..HEAD_BYTES] == f.head[..HEAD_BYTES];
  }

  lemma Unrolled(id: seq<Byte>, s: Incoming, fs: seq<Frame>)
    requires fs != [] && Carries(fs[0], id)
    ensures OnFrames(s, fs) == OnFrames(OnBinary(s, fs[0]), fs[1..])
    ensures Own(id, fs) != [] && Own(id, fs)[0] == Frame(fs[0].head[..HEAD_BYTES], fs[0].body)
    ensures Own(id, fs)[1..] == Own(id, fs[1..])
  {
    hide OnBinary;
  }

  lemma MatchedNext(own: seq<Frame>, list: seq<Frame>, i: nat)
    requires own != [] && i < |list| && |own[0].head| >= HEAD_BYTES
    ensures var m := Matched(own, list, i);
            && (own[0] == list[i] && i + 1 < |list| ==>
                 m == Matched(own[1..], list, i + 1) && Looked(own, list, i, m) == Looked(own[1..], list, i + 1, m))
            && (own[0] == list[i] && i + 1 == |list| ==> m == |list| && Looked(own, list, i, m) == m)
            && (own[0] != list[i] ==>
                 m == i && Looked(own, list, i, m) == i + RightHead(own[0], list[i]))
  {
    hide RightHead;
  }

  /** The receiver's integrity.  Whatever frames reach it, in whatever order and from whomever, as
      long as nobody else sealed chunks under the file's key: let m be how many of the frames
      that carry the id are, from the start, the sender's.  It then holds exactly the first m
      pieces.  It has reported the file received if and only if these frames begin with the
      sender's complete list, and then holds the file; it still waits if they are a part of that
      list; and otherwise it gave up at the first that was out of order or did not open. */
  lemma ReceivedExactly(id: seq<Byte>, key: seq<Byte>, header: seq<Byte>, plain: seq<Byte>, fs: seq<Frame>)
    requires |id| == ID_BYTES && 0 < |plain| <= MAX_FILE_BYTES && AuthenticFrames(fs, key, header, plain)
    ensures var (own, list) := (Own(id, fs), FileFrames(id, key, header, plain));
            var (t, m) := (OnFrames(NewIncoming(id, key, header), fs), Matched(own, list, 0));
            && list[..m] == own[..m] && (m < |list| && m < |own| ==> own[m] != list[m])
            && t.out == plain[..Cut(|plain|, m)]
            && t.next == Looked(own, list, 0, m)
            && (t.status == Received <==> list <= own)
            && (t.status == Received ==> t.out == plain)
            && (t.status == Receiving <==> own < list)
            && (t.status == Failed <==> !(list <= own) && !(own < list))
  {
    hide FileFrames, Pieces, Cut, OnFrames, Own, Matched, Looked, HalfWay;
    var (own, list) := (Own(id, fs), FileFrames(id, key, header, plain));
    var m := Matched(own, list, 0);
    StartsHalfWay(id, key, header, plain);
    FromHere(id, key, header, plain, 0, fs);
    MatchedIsCommon(own, list, 0);
    CutAt(|plain|, m);
    assert list[..m] == list[0..m];
    assert plain[..|plain|] == plain;
    PrefixesMeet(own, list, m);
  }

  lemma StartsHalfWay(id: seq<Byte>, key: seq<Byte>, header: seq<Byte>, plain: seq<Byte>)
    ensures NewIncoming(id, key, header) == HalfWay(id, key, header, plain, 0)
  {}

  lemma PrefixesMeet(own: seq<Frame>, list: seq<Frame>, m: nat)
    requires m <= |own| && m <= |list| && list[..m] == own[..m]
    requires m < |list| && m < |own| ==> own[m] != list[m]
    ensures list <= own <==> m == |list|
    ensures own < list <==> m < |list| && m == |own|
  {
    if m < |list| && m < |own| {
      assert !(list <= own) && !(own <= list);
    }
    if m == |list| { assert list[..m] == list; }
    if m == |own| { assert own[..m] == own; }
  }

  /** After file_end the transfer is over, whatever follows: reported received unless it had
      failed, with the pieces that had come. */
  lemma EndedExactly(id: seq<Byte>, key: seq<Byte>, header: seq<Byte>, plain: seq<Byte>, fs: seq<Frame>, later: seq<Frame>)
    requires |id| == ID_BYTES && 0 < |plain| <= MAX_FILE_BYTES && AuthenticFrames(fs, key, header, plain)
    ensures var (own, list) := (Own(id, fs), FileFrames(id, key, header, plain));
            var t := OnEnd(OnFrames(NewIncoming(id, key, header), fs));
            && OnFrames(t, later) == t && OnEnd(t) == t
            && (t.status == Received <==> list <= own || own <= list)
            && t.out == plain[..Cut(|plain|, Matched(own, list, 0))]
            && (t.status == Received && t.out == plain <==> list <= own)
  {
    ReceivedExactly(id, key, header, plain, fs);
    var (own, list) := (Own(id, fs), FileFrames(id, key, header, plain));
    var m := Matched(own, list, 0);
    CutAt(|plain|, m);
    var t := OnEnd(OnFrames(NewIncoming(id, key, header), fs));
    Closed(t, later);
    hide FileFrames, Pieces, Cut, OnFrames, Own, Matched;
    assert plain[..|plain|] == plain;
    if Cut(|plain|, m) < |plain| { assert |plain[..Cut(|plain|, m)]| < |plain|; }
  }

  // ---- the relay's store ------------------------------------------------------------------------

  datatype Event =
    | Init(nick: Option<Nick>, id: seq<Byte>, recipient: Nick)
    | Chunk(nick: Option<Nick>, frame: Frame)
    | Close(nick: Option<Nick>, id: seq<Byte>)

  function Handled(s: Files, e: Event): (Files, Result<Nick, RelayError>) {
    match e
    case Init(nick, id, recipient) => OnInit(s, nick, id, recipient)
    case Chunk(nick, f) => OnChunk(s, nick, f)
    case Close(nick, id) => OnClose(s, nick, id)
  }

  ghost predicate History(ss: seq<Files>, es: seq<Event>) {
    && |ss| == |es| + 1
    && ss[0] == Files(map[], map[])
    && forall k :: 0 <= k < |es| ==> ss[k + 1] == Handled(ss[k], es[k]).0
  }

  /** Who announced the file last before event k, to whom, and whether that client closed it
      since. */
  function Announced(es: seq<Event>, k: nat, id: seq<Byte>): Option<Meta>
    requires k <= |es|
  {
    if k == 0 then None else
    var before := Announced(es, k - 1, id);
    match es[k - 1]
    case Init(Some(nick), x, recipient) => if x == id then Some(Meta(nick, recipient, false)) else before
    case Close(Some(nick), x) =>
      if x == id && before.Some? && before.value.sender == nick then Some(before.value.(finalSeen := true)) else before
    case _ => before
  }

  /** Event k is a chunk of the file for index i, from the client that announced it. */
  predicate Writes(es: seq<Event>, k: nat, id: seq<Byte>, i: nat)
    requires k < |es|
  {
    && es[k].Chunk? && Carries(es[k].frame, id) && Ascii(id)
    && FromBigEndian4(es[k].frame.head[ID_BYTES..HEAD_BYTES]) == i
    && es[k].nick.Some? && Announced(es, k, id).Some? && Announced(es, k, id).value.sender == es[k].nick.value
  }

  /** The last such chunk before event k. */
  function LastWrite(es: seq<Event>, k: nat, id: seq<Byte>, i: nat): Option<Cipher>
    requires k <= |es|
  {
    if k == 0 then None
    else if Writes(es, k - 1, id, i) then Some(es[k - 1].frame.body)
    else LastWrite(es, k - 1, id, i)
  }

  function MetaOf(s: Files, id: seq<Byte>): Option<Meta> {
    if id in s.meta then Some(s.meta[id]) else None
  }

  function RowOf(s: Files, id: seq<Byte>, i: nat): Option<Cipher> {
    if i in RowsIn(s, id) then Some(RowsIn(s, id)[i]) else None
  }

  lemma OneEvent(s: Files, es: seq<Event>, k: nat, id: seq<Byte>, i: nat)
    requires k < |es| && MetaOf(s, id) == Announced(es, k, id)
    ensures var t := Handled(s, es[k]).0;
            && MetaOf(t, id) == Announced(es, k + 1, id)
            && RowOf(t, id, i) == (if Writes(es, k, id, i) then Some(es[k].frame.body) else RowOf(s, id, i))
  {
    hide FromBigEndian4;
  }

  /** The relay's store over every history: a file is on record exactly as its last announcer
      announced and closed it, and each row holds exactly the last chunk for its index that the
      client who had announced the file sent.  No frame of another client, or without login,
      changes anything. */
  lemma {:induction false} StoreExactly(ss: seq<Files>, es: seq<Event>, k: nat, id: seq<Byte>, i: nat)
    requires History(ss, es) && k <= |es|
    ensures MetaOf(ss[k], id) == Announced(es, k, id)
    ensures RowOf(ss[k], id, i) == LastWrite(es, k, id, i)
  {
    hide Handled, Announced, Writes, MetaOf, RowOf;
    if k == 0 {
      StartsEmpty(ss, es, id, i);
    } else {
      StoreExactly(ss, es, k - 1, id, i);
      OneEvent(ss[k - 1], es, k - 1, id, i);
    }
  }

  lemma StartsEmpty(ss: seq<Files>, es: seq<Event>, id: seq<Byte>, i: nat)
    requires History(ss, es)
    ensures MetaOf(ss[0], id) == Announced(es, 0, id) && RowOf(ss[0], id, i) == None
  {}

  /** What the relay answers, and whether it offers the file, follow from that. */
  lemma AnswersExactly(ss: seq<Files>, es: seq<Event>, k: nat, nick: Nick, have: set<seq<Byte>>, id: seq<Byte>)
    requires History(ss, es) && k <= |es|
    ensures Offers(ss[k], nick, have, id) <==>
              id !in have && Announced(es, k, id).Some?
              && Announced(es, k, id).value.recipient == nick && Announced(es, k, id).value.finalSeen
    ensures k < |es| && es[k].Chunk? ==>
              (Handled(ss[k], es[k]).1.Ok? <==>
                es[k].nick.Some? && |es[k].frame.head| >= HEAD_BYTES
                && Writes(es, k, es[k].frame.head[..ID_BYTES], FromBigEndian4(es[k].frame.head[ID_BYTES..HEAD_BYTES])))
    ensures k < |es| && es[k].Chunk? && Handled(ss[k], es[k]).1.Ok? ==>
              var to := Announced(es, k, es[k].frame.head[..ID_BYTES]);
              to.Some? && Handled(ss[k], es[k]).1.value == to.value.recipient
  {
    StoreExactly(ss, es, k, id, 0);
    if k < |es| && es[k].Chunk? && |es[k].frame.head| >= HEAD_BYTES {
      StoreExactly(ss, es, k, es[k].frame.head[..ID_BYTES], 0);
    }
    hide Announced, FromBigEndian4;
  }
}
