/**
 server/file_crypto.py: a file as a stream of sealed chunks.

 The secretstream is symbolic: a chunk opens only at the position, and under the key and
 header, it was sealed for.
 */
module FileStream {
  import opened Bytes
  import opened Wrappers

  const CHUNK_SIZE: nat := 64 * 1024
  const MAX_FILE_BYTES: nat := 50 * 1024 * 1024
  const KEY_BYTES: nat := 32
  const HEADER_BYTES: nat := 24

  datatype Tag = Message | Final

  /** Foreign stands for bytes that no push ever produced. */
  datatype Cipher =
    | Sealed(key: seq<Byte>, header: seq<Byte>, index: nat, plain: seq<Byte>, tag: Tag)
    | Foreign(bytes: seq<Byte>)

  function Push(key: seq<Byte>, header: seq<Byte>, index: nat, plain: seq<Byte>, tag: Tag): Cipher {
    Sealed(key, header, index, plain, tag)
  }

  function Pull(key: seq<Byte>, header: seq<Byte>, index: nat, c: Cipher): Option<(seq<Byte>, Tag)> {
    if c.Sealed? && c.key == key && c.header == header && c.index == index then Some((c.plain, c.tag)) else None
  }

  datatype Error = BadKeyLength | BadHeaderLength | TooLarge | BadChunk | Incomplete

  function Min(a: int, b: int): int {
    if a <= b then a else b
  }

  /** Where the i-th read ends up in a file of `len` bytes. */
  function Cut(len: nat, i: nat): (c: nat)
    ensures c <= len
  {
    Min(i * CHUNK_SIZE, len)
  }

  function Piece(plain: seq<Byte>, i: nat): seq<Byte> {
    plain[Cut(|plain|, i)..Cut(|plain|, i + 1)]
  }

  /** The first n pieces of a file, sealed in order, the last one tagged final. */
  function Stream(key: seq<Byte>, header: seq<Byte>, plain: seq<Byte>, n: nat): seq<Cipher> {
    seq(n, i requires 0 <= i < n => Push(key, header, i, Piece(plain, i), if i == n - 1 then Final else Message))
  }

  /** How many chunks a file of `len` bytes announced as `total` bytes becomes. */
  function ChunkCount(len: nat, total: int): (n: nat)
    ensures n >= 1
  {
    var byTotal := if total <= 0 then 1 else (total + CHUNK_SIZE - 1) / CHUNK_SIZE;
    Min(byTotal, len / CHUNK_SIZE + 1)
  }

  /** ChunkCount is the first read after which the announced size is reached or the file ran short. */
  lemma ChunkCountIsFirst(len: nat, total: int, n: nat)
    requires n >= 1
    ensures n == ChunkCount(len, total) <==>
              && (n * CHUNK_SIZE >= total || n * CHUNK_SIZE > len)
              && (n > 1 ==> (n - 1) * CHUNK_SIZE < total && (n - 1) * CHUNK_SIZE <= len)
  {}

  /** encrypt_file; `header` is what init_push drew.  It is the first item yielded, marked
      like a chunk that is not the last. */
  method EncryptFile(plain: seq<Byte>, key: seq<Byte>, total: int, header: seq<Byte>)
    returns (r: Result<seq<(Cipher, bool)>, Error>)
    ensures |key| != KEY_BYTES ==> r == Err(BadKeyLength)
    ensures |key| == KEY_BYTES && total > MAX_FILE_BYTES ==> r == Err(TooLarge)
    ensures |key| == KEY_BYTES && total <= MAX_FILE_BYTES ==>
              && r.Ok?
              && var n := ChunkCount(|plain|, total);
                 var s := Stream(key, header, plain, n);
                 && |r.value| == n + 1
                 && r.value[0] == (Foreign(header), false)
                 && forall i :: 0 <= i < n ==> r.value[i + 1] == (s[i], i == n - 1)
  {
    if |key| != KEY_BYTES { return Err(BadKeyLength); }
    if total > MAX_FILE_BYTES { return Err(TooLarge); }
    var first := (Foreign(header), false);
    var out: seq<(Cipher, bool)> := [];
    var sent := 0;
    var isLast := false;
    while !isLast
      invariant sent == Cut(|plain|, |out|)
      invariant forall i :: 0 <= i < |out| ==>
        out[i] == (Push(key, header, i, Piece(plain, i), if out[i].1 then Final else Message), isLast && i == |out| - 1)
      invariant !isLast && |out| > 0 ==> |out| * CHUNK_SIZE < total && |out| * CHUNK_SIZE <= |plain|
      invariant isLast ==> |out| == ChunkCount(|plain|, total)
      decreases if isLast then 0 else 1, |plain| + CHUNK_SIZE - |out| * CHUNK_SIZE
    {
      var chunk := plain[sent..Min(sent + CHUNK_SIZE, |plain|)];
      assert chunk == Piece(plain, |out|);
      sent := sent + |chunk|;
      isLast := sent >= total || |chunk| < CHUNK_SIZE;
      out := out + [(Push(key, header, |out|, chunk, if isLast then Final else Message), isLast)];
      ChunkCountIsFirst(|plain|, total, |out|);
    }
    r := Ok([first] + out);
  }

  datatype Ending = Complete | BadAt | NoFinal

  /** What pulling the chunks one by one writes, and how it ends. */
  function Opened(key: seq<Byte>, header: seq<Byte>, index: nat, cts: seq<Cipher>): (seq<Byte>, Ending)
    decreases |cts|
  {
    if cts == [] then ([], NoFinal)
    else match Pull(key, header, index, cts[0])
      case None => ([], BadAt)
      case Some((p, Final)) => (p, Complete)
      case Some((p, Message)) =>
        var (rest, e) := Opened(key, header, index + 1, cts[1..]);
        (p + rest, e)
  }

  /** decrypt_file; `out` is what reached the output stream, also when it raises. */
  method DecryptFile(header: seq<Byte>, cts: seq<Cipher>, key: seq<Byte>)
    returns (r: Result<nat, Error>, out: seq<Byte>)
    ensures |key| != KEY_BYTES ==> r == Err(BadKeyLength) && out == []
    ensures |key| == KEY_BYTES && |header| != HEADER_BYTES ==> r == Err(BadHeaderLength) && out == []
    ensures |key| == KEY_BYTES && |header| == HEADER_BYTES ==>
              var (written, e) := Opened(key, header, 0, cts);
              && out == written
              && r == (match e case Complete => Ok(|out|) case BadAt => Err(BadChunk) case NoFinal => Err(Incomplete))
  {
    out := [];
    if |key| != KEY_BYTES { return Err(BadKeyLength), out; }
    if |header| != HEADER_BYTES { return Err(BadHeaderLength), out; }
    var written := 0;
    var sawFinal := false;
    var i := 0;
    ghost var (all, e) := Opened(key, header, 0, cts);
    while i < |cts| && !sawFinal
      invariant 0 <= i <= |cts|
      invariant written == |out|
      invariant sawFinal ==> (all, e) == (out, Complete)
      invariant !sawFinal ==> var (rest, e') := Opened(key, header, i, cts[i..]); all == out + rest && e == e'
    {
      assert cts[i..][0] == cts[i] && cts[i..][1..] == cts[i + 1..];
      var p := Pull(key, header, i, cts[i]);
      if p.None? { return Err(BadChunk), out; }
      out := out + p.value.0;
      written := written + |p.value.0|;
      sawFinal := p.value.1 == Final;
      i := i + 1;
    }
    r := if sawFinal then Ok(written) else Err(Incomplete);
  }

  // ---- integrity ---------------------------------------------------------------------------

  /** Nothing but the sender's own chunks was ever sealed under this key and header. */
  predicate Authentic(cts: seq<Cipher>, key: seq<Byte>, header: seq<Byte>, sent: seq<Cipher>) {
    forall i :: 0 <= i < |cts| && cts[i].Sealed? && cts[i].key == key && cts[i].header == header ==> cts[i] in sent
  }

  lemma StreamAt(key: seq<Byte>, header: seq<Byte>, plain: seq<Byte>, n: nat, i: nat)
    requires i < n
    ensures var s := Stream(key, header, plain, n);
            && |s| == n && s[i..] == [s[i]] + s[i + 1..]
            && s[i] == Push(key, header, i, Piece(plain, i), if i == n - 1 then Final else Message)
            && plain[Cut(|plain|, i)..Cut(|plain|, n)] == Piece(plain, i) + plain[Cut(|plain|, i + 1)..Cut(|plain|, n)]
  {}

  /** Only the chunk sealed at a position opens there. */
  lemma OpensOnlyOwn(key: seq<Byte>, header: seq<Byte>, plain: seq<Byte>, n: nat, i: nat, c: Cipher)
    requires i < n
    requires c.Sealed? && c.key == key && c.header == header ==> c in Stream(key, header, plain, n)
    ensures Pull(key, header, i, c).Some? <==> c == Stream(key, header, plain, n)[i]
  {}

  lemma {:induction false} OpenedFrom(key: seq<Byte>, header: seq<Byte>, plain: seq<Byte>, n: nat, i: nat, cts: seq<Cipher>)
    requires i < n && Authentic(cts, key, header, Stream(key, header, plain, n))
    ensures var (out, e) := Opened(key, header, i, cts);
            && (e == Complete <==> Stream(key, header, plain, n)[i..] <= cts)
            && (e == Complete ==> out == plain[Cut(|plain|, i)..Cut(|plain|, n)])
    decreases |cts|
  {
    var s := Stream(key, header, plain, n);
    StreamAt(key, header, plain, n, i);
    if cts != [] {
      OpensOnlyOwn(key, header, plain, n, i, cts[0]);
      if cts[0] == s[i] {
        PrefixCons(s[i], s[i + 1..], cts);
        if i < n - 1 {
          assert Authentic(cts[1..], key, header, s);
          hide Stream, Piece, Cut, Authentic;
          OpenedFrom(key, header, plain, n, i + 1, cts[1..]);
        } else {
          assert s[i + 1..] == [];
          assert plain[Cut(|plain|, i + 1)..Cut(|plain|, n)] == [];
        }
      }
    }
  }

  lemma PrefixCons<T>(x: T, xs: seq<T>, ys: seq<T>)
    requires ys != [] && ys[0] == x
    ensures [x] + xs <= ys <==> xs <= ys[1..]
  {
    assert ys == [x] + ys[1..];
    if xs <= ys[1..] {
      assert ys[1..][..|xs|] == xs;
      assert ys[..|xs| + 1] == [x] + xs;
    }
    if [x] + xs <= ys {
      assert ys[..|xs| + 1] == [x] + xs;
      assert ys[1..][..|xs|] == ys[..|xs| + 1][1..] == xs;
    }
  }

  /** Stream integrity: the receiver finishes exactly when its input begins with the
      sender's complete chunk list, and then holds exactly the pieces that were sealed.
      Every truncation, reordering, omission or splice is refused. */
  lemma StreamIntegrity(key: seq<Byte>, header: seq<Byte>, plain: seq<Byte>, n: nat, cts: seq<Cipher>)
    requires n >= 1 && Authentic(cts, key, header, Stream(key, header, plain, n))
    ensures var (out, e) := Opened(key, header, 0, cts);
            && (e == Complete <==> Stream(key, header, plain, n) <= cts)
            && (e == Complete ==> out == plain[..Cut(|plain|, n)])
  {
    OpenedFrom(key, header, plain, n, 0, cts);
    assert Stream(key, header, plain, n)[0..] == Stream(key, header, plain, n);
  }

  /** Decrypting what encrypt_file yields gives back the file, exactly when the announced
      size reaches into its last piece; otherwise the tail is silently left out. */
  lemma RoundTripExactly(key: seq<Byte>, header: seq<Byte>, plain: seq<Byte>, total: int)
    ensures var (out, e) := Opened(key, header, 0, Stream(key, header, plain, ChunkCount(|plain|, total)));
            && e == Complete
            && (out == plain <==> |plain| <= CHUNK_SIZE || total > (|plain| - 1) / CHUNK_SIZE * CHUNK_SIZE)
  {
    var n := ChunkCount(|plain|, total);
    StreamIntegrity(key, header, plain, n, Stream(key, header, plain, n));
    assert plain[..|plain|] == plain;
    assert Cut(|plain|, n) < |plain| ==> |plain[..Cut(|plain|, n)]| < |plain|;
    assert Cut(|plain|, n) == |plain| <==> |plain| <= CHUNK_SIZE || total > (|plain| - 1) / CHUNK_SIZE * CHUNK_SIZE;
  }
}
