/**
 A file's way from one client over the relay to another: the sender's pump, the relay's
 chunk store and replay, and the receiver's chunk handler.

 A binary frame is its first bytes (36 of file id, 4 of chunk index) and a sealed chunk.
 */
module FileTransfer {
  import opened Bytes
  import opened Wrappers
  import opened FileStream
  import opened Least

  const ID_BYTES: nat := 36
  const HEAD_BYTES: nat := 40

  type Nick = nat

  datatype Frame = Frame(head: seq<Byte>, body: Cipher)

  // ---- the sending client ------------------------------------------------------------------

  /** ceil(len / CHUNK_SIZE) */
  function Pieces(len: nat): (n: nat)
    ensures n * CHUNK_SIZE >= len && (n > 0 ==> (n - 1) * CHUNK_SIZE < len)
  {
    (len + CHUNK_SIZE - 1) / CHUNK_SIZE
  }

  function FrameFor(id: seq<Byte>, i: nat, c: Cipher): Frame
    requires i < TWO32
  {
    Frame(id + BigEndian4(i), c)
  }

  /** The frames of a whole file, in order. */
  function FileFrames(id: seq<Byte>, key: seq<Byte>, header: seq<Byte>, plain: seq<Byte>): (fs: seq<Frame>)
    requires |plain| <= MAX_FILE_BYTES
    ensures |fs| == Pieces(|plain|)
  {
    var n := Pieces(|plain|);
    var s := Stream(key, header, plain, n);
    seq(n, i requires 0 <= i < n => FrameFor(id, i, s[i]))
  }

  /** sendFile's size check followed by pumpOutgoingFile. */
  method SendFile(id: seq<Byte>, key: seq<Byte>, header: seq<Byte>, plain: seq<Byte>) returns (r: Option<seq<Frame>>)
    ensures r.Some? <==> 0 < |plain| <= MAX_FILE_BYTES
    ensures r.Some? ==> r.value == FileFrames(id, key, header, plain)
  {
    if |plain| == 0 || |plain| > MAX_FILE_BYTES { return None; }
    var frames: seq<Frame> := [];
    var pos, nextChunkIndex := 0, 0;
    while pos < |plain|
      invariant nextChunkIndex == |frames| <= Pieces(|plain|)
      invariant pos == Cut(|plain|, |frames|)
      invariant frames == FileFrames(id, key, header, plain)[..|frames|]
    {
      var chunk := plain[pos..Min(pos + CHUNK_SIZE, |plain|)];
      assert chunk == Piece(plain, nextChunkIndex);
      pos := pos + |chunk|;
      var isLast := pos == |plain|;
      assert nextChunkIndex < Pieces(|plain|);
      assert isLast <==> nextChunkIndex == Pieces(|plain|) - 1;
      ghost var all := FileFrames(id, key, header, plain);
      var ct := Push(key, header, nextChunkIndex, chunk, if isLast then Final else Message);
      assert all[nextChunkIndex] == FrameFor(id, nextChunkIndex, ct);
      frames := frames + [FrameFor(id, nextChunkIndex, ct)];
      nextChunkIndex := nextChunkIndex + 1;
    }
    assert |frames| == Pieces(|plain|);
    r := Some(frames);
  }

  // ---- the relay -----------------------------------------------------------------------------

  datatype Meta = Meta(sender: Nick, recipient: Nick, finalSeen: bool)

  datatype RelayError = NotLoggedIn | TooShort | BadId | UnknownFile | Unauthorised

  predicate Ascii(b: seq<Byte>) {
    forall x <- b :: x < 128
  }

  type Rows = map<nat, Cipher>

  /** What the relay makes of one binary frame: the row to store, or why not. */
  function Route(meta: map<seq<Byte>, Meta>, nick: Option<Nick>, f: Frame): Result<(seq<Byte>, nat), RelayError> {
    if nick.None? then Err(NotLoggedIn)
    else if |f.head| < HEAD_BYTES then Err(TooShort)
    else
      var id := f.head[..ID_BYTES];
      if !Ascii(id) then Err(BadId)
      else if id !in meta then Err(UnknownFile)
      else if meta[id].sender != nick.value then Err(Unauthorised)
      else Ok((id, FromBigEndian4(f.head[ID_BYTES..HEAD_BYTES])))
  }

  /** file_meta and file_chunks. */
  datatype Files = Files(meta: map<seq<Byte>, Meta>, chunks: map<seq<Byte>, Rows>)

  function RowsIn(s: Files, id: seq<Byte>): Rows {
    if id in s.chunks then s.chunks[id] else map[]
  }

  /** file_init, INSERT OR REPLACE: the sender is the nick logged in. */
  function OnInit(s: Files, nick: Option<Nick>, id: seq<Byte>, recipient: Nick): (Files, Result<Nick, RelayError>) {
    if nick.None? then (s, Err(NotLoggedIn))
    else (s.(meta := s.meta[id := Meta(nick.value, recipient, false)]), Ok(recipient))
  }

  /** _handle_binary: stores the chunk and names who to forward the frame to. */
  function OnChunk(s: Files, nick: Option<Nick>, f: Frame): (Files, Result<Nick, RelayError>) {
    match Route(s.meta, nick, f)
    case Err(e) => (s, Err(e))
    case Ok((id, i)) => (s.(chunks := s.chunks[id := RowsIn(s, id)[i := f.body]]), Ok(s.meta[id].recipient))
  }

  /** file_end: only the sender may close a transfer. */
  function OnClose(s: Files, nick: Option<Nick>, id: seq<Byte>): (Files, Result<Nick, RelayError>) {
    if nick.None? then (s, Err(NotLoggedIn))
    else if id !in s.meta || s.meta[id].sender != nick.value then (s, Err(Unauthorised))
    else (s.(meta := s.meta[id := s.meta[id].(finalSeen := true)]), Ok(s.meta[id].recipient))
  }

  /** Login replay offers a file to its recipient only, once complete, and only if the client
      does not already hold it. */
  predicate Offers(s: Files, nick: Nick, have: set<seq<Byte>>, id: seq<Byte>) {
    id in s.meta && s.meta[id].recipient == nick && s.meta[id].finalSeen && id !in have
  }

  /** file_chunks after the frames `fs` of the file's sender arrived, in whatever order. */
  function Stored(meta: map<seq<Byte>, Meta>, nick: Nick, id: seq<Byte>, rows: Rows, fs: seq<Frame>): Rows
    decreases |fs|
  {
    if fs == [] then rows
    else
      var to := Route(meta, Some(nick), fs[0]);
      Stored(meta, nick, id, if to.Ok? && to.value.0 == id then rows[to.value.1 := fs[0].body] else rows, fs[1..])
  }

  /** The rows of a file ordered by chunk index. */
  ghost function Ascending(rows: Rows): seq<(nat, Cipher)>
    decreases |rows.Keys|
  {
    if rows.Keys == {} then []
    else
      LeastExists(rows.Keys);
      var k :| IsLeast(k, rows.Keys);
      assert (rows - {k}).Keys == rows.Keys - {k};
      [(k, rows[k])] + Ascending(rows - {k})
  }

  lemma AscendingStep(rows: Rows, lo: nat)
    requires IsLeast(lo, rows.Keys)
    ensures Ascending(rows) == [(lo, rows[lo])] + Ascending(rows - {lo})
  {
    assert rows.Keys != {};
    LeastExists(rows.Keys);
    var k :| IsLeast(k, rows.Keys);
    assert k == lo;
  }

  lemma {:induction false} AscendingRange(rows: Rows, lo: nat, hi: nat)
    requires lo <= hi && forall k: nat :: k in rows <==> lo <= k < hi
    ensures |Ascending(rows)| == hi - lo
    ensures forall i :: 0 <= i < hi - lo ==> Ascending(rows)[i] == (lo + i, rows[lo + i])
    decreases hi - lo
  {
    if lo < hi {
      assert lo in rows && IsLeast(lo, rows.Keys);
      AscendingStep(rows, lo);
      var fewer := rows - {lo};
      assert forall k: nat :: k in fewer <==> lo + 1 <= k < hi;
      hide Ascending;
      AscendingRange(fewer, lo + 1, hi);
      forall i | 0 <= i < hi - lo ensures Ascending(rows)[i] == (lo + i, rows[lo + i]) {
        if i > 0 {
          assert Ascending(rows)[i] == Ascending(fewer)[i - 1];
        }
      }
    } else {
      assert rows.Keys == {};
    }
  }

  class FileStore {
    var meta: map<seq<Byte>, Meta>
    var chunks: map<seq<Byte>, Rows>

    function RowsOf(id: seq<Byte>): Rows
      reads this
    {
      if id in chunks then chunks[id] else map[]
    }

    ghost function View(): Files
      reads this
    {
      Files(meta, chunks)
    }

    /** Stored indices come from four bytes. */
    ghost predicate Valid()
      reads this`chunks
    {
      forall id, i :: id in chunks && i in chunks[id] ==> i < TWO32
    }

    constructor ()
      ensures Valid() && View() == Files(map[], map[])
    {
      meta, chunks := map[], map[];
    }

    method HandleInit(nick: Option<Nick>, id: seq<Byte>, recipient: Nick) returns (r: Result<Nick, RelayError>)
      modifies this`meta
      ensures (View(), r) == OnInit(old(View()), nick, id, recipient)
    {
      if nick.None? { return Err(NotLoggedIn); }
      meta := meta[id := Meta(nick.value, recipient, false)];
      r := Ok(recipient);
    }

    method HandleBinary(nick: Option<Nick>, f: Frame) returns (r: Result<Nick, RelayError>)
      requires Valid()
      modifies this`chunks
      ensures Valid()
      ensures (View(), r) == OnChunk(old(View()), nick, f)
      ensures nick.Some? ==> forall id :: RowsOf(id) == Stored(meta, nick.value, id, old(RowsOf(id)), [f])
    {
      if nick.None? { return Err(NotLoggedIn); }
      if |f.head| < HEAD_BYTES { return Err(TooShort); }
      var id := f.head[..ID_BYTES];
      if !Ascii(id) { return Err(BadId); }
      var chunkIndex := FromBigEndian4(f.head[ID_BYTES..HEAD_BYTES]);
      if id !in meta { return Err(UnknownFile); }
      if meta[id].sender != nick.value { return Err(Unauthorised); }
      chunks := chunks[id := RowsOf(id)[chunkIndex := f.body]];
      r := Ok(meta[id].recipient);
    }

    method HandleEnd(nick: Option<Nick>, id: seq<Byte>) returns (r: Result<Nick, RelayError>)
      modifies this`meta
      ensures (View(), r) == OnClose(old(View()), nick, id)
    {
      if nick.None? { return Err(NotLoggedIn); }
      if id !in meta || meta[id].sender != nick.value { return Err(Unauthorised); }
      meta := meta[id := meta[id].(finalSeen := true)];
      r := Ok(meta[id].recipient);
    }

    /** The chunk rows of one file, read in index order. */
    method OrderedRows(id: seq<Byte>) returns (s: seq<(nat, Cipher)>)
      ensures s == Ascending(RowsOf(id))
    {
      var left := RowsOf(id);
      s := [];
      while left.Keys != {}
        invariant s + Ascending(left) == Ascending(RowsOf(id))
        decreases |left.Keys|
      {
        LeastExists(left.Keys);
        var k :| IsLeast(k, left.Keys);
        assert (left - {k}).Keys == left.Keys - {k};
        assert forall j :: IsLeast(j, left.Keys) ==> j == k;
        assert Ascending(left) == [(k, left[k])] + Ascending(left - {k});
        s := s + [(k, left[k])];
        left := left - {k};
      }
    }

    /** Login replay of one file. */
    method Replay(nick: Nick, have: set<seq<Byte>>, id: seq<Byte>) returns (r: Option<seq<Frame>>)
      requires Valid()
      ensures r.Some? <==> Offers(View(), nick, have, id)
      ensures r.Some? ==> r.value == Reframed(id, Ascending(RowsOf(id)))
    {
      if id !in meta || meta[id].recipient != nick || !meta[id].finalSeen || id in have { return None; }
      var rows := OrderedRows(id);
      r := Some(Reframed(id, rows));
    }
  }

  function Reframed(id: seq<Byte>, rows: seq<(nat, Cipher)>): seq<Frame> {
    seq(|rows|, i requires 0 <= i < |rows| =>
      Frame(id + (if rows[i].0 < TWO32 then BigEndian4(rows[i].0) else []), rows[i].1))
  }

  // ---- the receiving client ------------------------------------------------------------------

  datatype Status = Receiving | Received | Failed

  /** One entry of m_incoming with the file it writes; Received and Failed entries are gone
      from m_incoming, so nothing reaches them any more. */
  datatype Incoming = Incoming(id: seq<Byte>, key: seq<Byte>, header: seq<Byte>, next: nat, out: seq<Byte>, status: Status)

  /** int(idx) for a quint32 idx */
  function AsInt32(n: nat): int {
    if n < 0x8000_0000 then n else n - TWO32
  }

  function OnBinary(s: Incoming, f: Frame): Incoming {
    if |f.head| < HEAD_BYTES || f.head[..ID_BYTES] != s.id || s.status != Receiving then s
    else if AsInt32(FromBigEndian4(f.head[ID_BYTES..HEAD_BYTES])) != s.next then s.(status := Failed)
    else match Pull(s.key, s.header, s.next, f.body)
      case None => s.(next := s.next + 1, status := Failed)
      case Some((p, tag)) =>
        s.(next := s.next + 1, out := s.out + p, status := if tag == Final then Received else Receiving)
  }

  function OnFrames(s: Incoming, fs: seq<Frame>): Incoming
    decreases |fs|
  {
    if fs == [] then s else OnFrames(OnBinary(s, fs[0]), fs[1..])
  }

  /** The file_end branch finalises whatever has arrived. */
  function OnEnd(s: Incoming): Incoming {
    if s.status == Receiving then s.(status := Received) else s
  }

  function NewIncoming(id: seq<Byte>, key: seq<Byte>, header: seq<Byte>): Incoming {
    Incoming(id, key, header, 0, [], Receiving)
  }

  class Receiver {
    const id: seq<Byte>
    const key: seq<Byte>
    const header: seq<Byte>
    var nextChunkIndex: nat
    var file: seq<Byte>
    var status: Status

    ghost function State(): Incoming
      reads this
    {
      Incoming(id, key, header, nextChunkIndex, file, status)
    }

    constructor (id: seq<Byte>, key: seq<Byte>, header: seq<Byte>)
      ensures State() == NewIncoming(id, key, header)
    {
      this.id, this.key, this.header := id, key, header;
      nextChunkIndex, file, status := 0, [], Receiving;
    }

    method BinaryMessageReceived(f: Frame)
      modifies this
      ensures State() == OnBinary(old(State()), f)
    {
      if |f.head| < HEAD_BYTES || f.head[..ID_BYTES] != id || status != Receiving { return; }
      if AsInt32(FromBigEndian4(f.head[ID_BYTES..HEAD_BYTES])) != nextChunkIndex {
        status := Failed;
        return;
      }
      nextChunkIndex := nextChunkIndex + 1;
      var pt := Pull(key, header, nextChunkIndex - 1, f.body);
      if pt.None? {
        status := Failed;
        return;
      }
      file := file + pt.value.0;
      if pt.value.1 == Final {
        status := Received;
      }
    }

    method FileEndReceived()
      modifies this`status
      ensures State() == OnEnd(old(State()))
    {
      if status == Receiving {
        status := Received;
      }
    }
  }

  // ---- end to end ------------------------------------------------------------------------------

  lemma FrameAt(id: seq<Byte>, key: seq<Byte>, header: seq<Byte>, plain: seq<Byte>, k: nat)
    requires |id| == ID_BYTES && |plain| <= MAX_FILE_BYTES && k < Pieces(|plain|)
    ensures k < 0x8000_0000
    ensures var f := FileFrames(id, key, header, plain)[k];
            && |f.head| == HEAD_BYTES && f.head[..ID_BYTES] == id
            && FromBigEndian4(f.head[ID_BYTES..HEAD_BYTES]) == k
            && f.body == Push(key, header, k, Piece(plain, k), if k == Pieces(|plain|) - 1 then Final else Message)
  {
    var f := FileFrames(id, key, header, plain)[k];
    assert f.head[..ID_BYTES] == id;
    assert f.head[ID_BYTES..HEAD_BYTES] == BigEndian4(k);
  }

  /** The receiver after the first k frames of a file. */
  lemma {:induction false} AfterPrefix(id: seq<Byte>, key: seq<Byte>, header: seq<Byte>, plain: seq<Byte>, i: nat, k: nat)
    requires |id| == ID_BYTES && |plain| <= MAX_FILE_BYTES && i <= k <= Pieces(|plain|)
    ensures var fs := FileFrames(id, key, header, plain);
            var s := Incoming(id, key, header, i, plain[..Cut(|plain|, i)], Receiving);
            OnFrames(s, fs[i..k]) ==
              Incoming(id, key, header, k, plain[..Cut(|plain|, k)],
                       if i < k == Pieces(|plain|) then Received else Receiving)
    decreases k - i
  {
    var fs := FileFrames(id, key, header, plain);
    var s := Incoming(id, key, header, i, plain[..Cut(|plain|, i)], Receiving);
    if i < k {
      FrameAt(id, key, header, plain, i);
      assert plain[..Cut(|plain|, i)] + Piece(plain, i) == plain[..Cut(|plain|, i + 1)];
      assert fs[i..k][0] == fs[i] && fs[i..k][1..] == fs[i + 1..k];
      var s1 := OnBinary(s, fs[i]);
      if i + 1 < k {
        AfterPrefix(id, key, header, plain, i + 1, k);
      } else {
        assert fs[i + 1..k] == [];
      }
    }
  }

  /** What the client reports when the first k frames of a file and then file_end reach
      it: always a received file, holding exactly the pieces that arrived.  It is the whole
      file if and only if every frame arrived, so on this path, unlike in decrypt_file, a
      missing tail goes unnoticed. */
  lemma FileEndFinalisesWhateverArrived(id: seq<Byte>, key: seq<Byte>, header: seq<Byte>, plain: seq<Byte>, k: nat)
    requires |id| == ID_BYTES && 0 < |plain| <= MAX_FILE_BYTES && k <= Pieces(|plain|)
    ensures var s := OnEnd(OnFrames(NewIncoming(id, key, header), FileFrames(id, key, header, plain)[..k]));
            && s.status == Received
            && s.out == plain[..Cut(|plain|, k)]
            && (s.out == plain <==> k == Pieces(|plain|))
  {
    hide FileFrames, OnFrames, Cut, Pieces;
    var fs := FileFrames(id, key, header, plain);
    AfterPrefix(id, key, header, plain, 0, k);
    assert fs[0..k] == fs[..k];
    CutAt(|plain|, k);
    assert plain[..0] == [] && plain[..|plain|] == plain;
    assert Cut(|plain|, k) < |plain| ==> |plain[..Cut(|plain|, k)]| < |plain|;
  }

  lemma CutAt(len: nat, k: nat)
    requires k <= Pieces(len)
    ensures Cut(len, 0) == 0 && (Cut(len, k) == len <==> k == Pieces(len))
  {}

  /** A frame of the file is stored at its own index, and no other frame shares it. */
  lemma FrameRoutes(meta: map<seq<Byte>, Meta>, nick: Nick, id: seq<Byte>, f: Frame,
                    key: seq<Byte>, header: seq<Byte>, plain: seq<Byte>) returns (j: nat)
    requires |id| == ID_BYTES && |plain| <= MAX_FILE_BYTES
    requires Ascii(id) && id in meta && meta[id].sender == nick
    requires f in FileFrames(id, key, header, plain)
    ensures j < Pieces(|plain|) && Route(meta, Some(nick), f) == Ok((id, j))
    ensures f.body == FileFrames(id, key, header, plain)[j].body
    ensures forall k: nat :: k < Pieces(|plain|) && FileFrames(id, key, header, plain)[k] == f ==> k == j
  {
    var fs := FileFrames(id, key, header, plain);
    j :| j < |fs| && fs[j] == f;
    FrameAt(id, key, header, plain, j);
    forall k: nat | k < Pieces(|plain|) && fs[k] == f ensures k == j {
      FrameAt(id, key, header, plain, k);
    }
  }

  lemma {:induction false} StoredExactly(meta: map<seq<Byte>, Meta>, nick: Nick, id: seq<Byte>, rows: Rows,
                                         arrived: seq<Frame>, key: seq<Byte>, header: seq<Byte>, plain: seq<Byte>)
    requires |id| == ID_BYTES && |plain| <= MAX_FILE_BYTES
    requires Ascii(id) && id in meta && meta[id].sender == nick
    requires forall i :: 0 <= i < |arrived| ==> arrived[i] in FileFrames(id, key, header, plain)
    requires forall k <- rows :: k < Pieces(|plain|) && rows[k] == FileFrames(id, key, header, plain)[k].body
    ensures var fs := FileFrames(id, key, header, plain);
            var t := Stored(meta, nick, id, rows, arrived);
            && (forall k <- t :: k < Pieces(|plain|) && t[k] == fs[k].body)
            && (forall k <- rows :: k in t)
            && (forall k: nat :: k < Pieces(|plain|) && fs[k] in arrived ==> k in t)
    decreases |arrived|
  {
    hide FileFrames, Pieces, Route, Ascii;
    var fs := FileFrames(id, key, header, plain);
    if arrived != [] {
      var j := FrameRoutes(meta, nick, id, arrived[0], key, header, plain);
      var rows1 := rows[j := arrived[0].body];
      assert Stored(meta, nick, id, rows, arrived) == Stored(meta, nick, id, rows1, arrived[1..]);
      hide Stored;
      StoredExactly(meta, nick, id, rows1, arrived[1..], key, header, plain);
      forall k: nat | k < Pieces(|plain|) && fs[k] in arrived ensures k in Stored(meta, nick, id, rows, arrived) {
        assert fs[k] == arrived[0] || fs[k] in arrived[1..];
        assert j in rows1;
      }
    }
  }

  /** The rows are exactly the file's chunks, each at its index. */
  ghost predicate HoldsFile(rows: Rows, id: seq<Byte>, key: seq<Byte>, header: seq<Byte>, plain: seq<Byte>)
    requires |plain| <= MAX_FILE_BYTES
  {
    && (forall k: nat :: k in rows <==> k < Pieces(|plain|))
    && (forall k <- rows :: rows[k] == FileFrames(id, key, header, plain)[k].body)
  }

  lemma FrameIs(id: seq<Byte>, key: seq<Byte>, header: seq<Byte>, plain: seq<Byte>, k: nat)
    requires |id| == ID_BYTES && |plain| <= MAX_FILE_BYTES && k < Pieces(|plain|)
    ensures k < TWO32
    ensures var f := FileFrames(id, key, header, plain)[k]; f == Frame(id + BigEndian4(k), f.body)
  {}

  lemma ReplayedAt(rows: Rows, id: seq<Byte>, key: seq<Byte>, header: seq<Byte>, plain: seq<Byte>, k: nat)
    requires |id| == ID_BYTES && |plain| <= MAX_FILE_BYTES && HoldsFile(rows, id, key, header, plain) && k < Pieces(|plain|)
    requires |Ascending(rows)| == Pieces(|plain|) && k in rows && Ascending(rows)[k] == (k, rows[k])
    ensures Reframed(id, Ascending(rows))[k] == FileFrames(id, key, header, plain)[k]
  {
    FrameIs(id, key, header, plain, k);
    hide Ascending, FileFrames, Pieces;
  }

  lemma ReplayIsTheSenders(rows: Rows, id: seq<Byte>, key: seq<Byte>, header: seq<Byte>, plain: seq<Byte>)
    requires |id| == ID_BYTES && |plain| <= MAX_FILE_BYTES && HoldsFile(rows, id, key, header, plain)
    ensures Reframed(id, Ascending(rows)) == FileFrames(id, key, header, plain)
  {
    AscendingRange(rows, 0, Pieces(|plain|));
    hide Ascending, FileFrames, Pieces;
    var replayed := Reframed(id, Ascending(rows));
    assert |replayed| == Pieces(|plain|);
    forall k: nat | k < Pieces(|plain|) ensures replayed[k] == FileFrames(id, key, header, plain)[k] {
      assert k in rows;
      ReplayedAt(rows, id, key, header, plain, k);
    }
  }

  lemma StoredHoldsFile(meta: map<seq<Byte>, Meta>, nick: Nick, id: seq<Byte>, arrived: seq<Frame>,
                        key: seq<Byte>, header: seq<Byte>, plain: seq<Byte>)
    requires |id| == ID_BYTES && |plain| <= MAX_FILE_BYTES
    requires Ascii(id) && id in meta && meta[id].sender == nick
    requires forall f :: f in arrived <==> f in FileFrames(id, key, header, plain)
    ensures |FileFrames(id, key, header, plain)| == Pieces(|plain|)
    ensures HoldsFile(Stored(meta, nick, id, map[], arrived), id, key, header, plain)
  {
    hide Stored, FileFrames, Pieces, Ascii;
    var fs := FileFrames(id, key, header, plain);
    StoredExactly(meta, nick, id, map[], arrived, key, header, plain);
    assert forall k: nat :: k < Pieces(|plain|) ==> fs[k] in arrived;
  }

  lemma WholeFileOpens(id: seq<Byte>, key: seq<Byte>, header: seq<Byte>, plain: seq<Byte>)
    requires |id| == ID_BYTES && 0 < |plain| <= MAX_FILE_BYTES
    ensures var s := OnFrames(NewIncoming(id, key, header), FileFrames(id, key, header, plain));
            s.status == Received && s.out == plain
  {
    var fs := FileFrames(id, key, header, plain);
    AfterPrefix(id, key, header, plain, 0, |fs|);
    assert fs[0..|fs|] == fs;
    assert plain[..Cut(|plain|, 0)] == [] && plain[..|plain|] == plain;
  }

  /** File transfer end to end.  Whatever order and however often the sender's frames reach
      the relay, as long as each does at least once, replaying the stored chunks in index
      order reproduces the sender's frames, and the receiver ends with the original bytes,
      accepted through the final tag. */
  lemma StoreAndReplayDelivers(meta: map<seq<Byte>, Meta>, nick: Nick, id: seq<Byte>, arrived: seq<Frame>,
                               key: seq<Byte>, header: seq<Byte>, plain: seq<Byte>)
    requires |id| == ID_BYTES && 0 < |plain| <= MAX_FILE_BYTES
    requires Ascii(id) && id in meta && meta[id].sender == nick
    requires forall f :: f in arrived <==> f in FileFrames(id, key, header, plain)
    ensures var replayed := Reframed(id, Ascending(Stored(meta, nick, id, map[], arrived)));
            var s := OnFrames(NewIncoming(id, key, header), replayed);
            && replayed == FileFrames(id, key, header, plain)
            && |replayed| == Pieces(|plain|)
            && s.status == Received && s.out == plain
  {
    hide *;
    StoredHoldsFile(meta, nick, id, arrived, key, header, plain);
    ReplayIsTheSenders(Stored(meta, nick, id, map[], arrived), id, key, header, plain);
    WholeFileOpens(id, key, header, plain);
  }
}
