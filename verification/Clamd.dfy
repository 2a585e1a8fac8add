/** The ClamD stream protocol (app/documents/clamd.py): framing out, one record back, a verdict. */
module Clamd {
  import opened Base

  type Byte = b: nat | b < 256

  const CHUNK_BYTES: nat := 64 * 1024
  const MAX_REPLY_BYTES: nat := 4 * 1024

  /** `zINSTREAM` and its NUL. */
  const INSTREAM: seq<Byte> := [122, 73, 78, 83, 84, 82, 69, 65, 77, 0]

  /** The bytes of an ASCII text. */
  function Ascii(text: string): seq<Byte> {
    seq(|text|, i requires 0 <= i < |text| => text[i] as int % 256)
  }

  lemma CommandIsInstream()
    ensures INSTREAM == Ascii("zINSTREAM") + [0]
  {
  }

  /** What a reader yields before its first empty read. */
  function Content(parts: seq<seq<Byte>>): seq<Byte> {
    if parts == [] || parts[0] == [] then [] else parts[0] + Content(parts[1..])
  }

  // ------------------------------------------------------------------ framing

  /** The least number that does not fit in `k` bytes. */
  function Capacity(k: nat): nat {
    if k == 0 then 1 else 256 * Capacity(k - 1)
  }

  function BigEndian(n: nat, k: nat): (s: seq<Byte>)
    ensures |s| == k
  {
    if k == 0 then [] else BigEndian(n / 256, k - 1) + [n % 256]
  }

  function Unpack(s: seq<Byte>): nat {
    if s == [] then 0 else 256 * Unpack(s[..|s| - 1]) + s[|s| - 1]
  }

  lemma {:induction false} BigEndianRoundTrip(n: nat, k: nat)
    requires n < Capacity(k)
    ensures Unpack(BigEndian(n, k)) == n
  {
    if k > 0 {
      BigEndianRoundTrip(n / 256, k - 1);
      assert BigEndian(n, k)[..k - 1] == BigEndian(n / 256, k - 1);
    }
  }

  function HeaderBytes(): (k: nat)
    ensures k == 4
  {
    4
  }

  /** `struct.pack(">I", n)`. */
  function Pack(n: nat): (s: seq<Byte>)
    ensures |s| == 4
  {
    BigEndian(n, HeaderBytes())
  }

  /** The number four bytes stand for, most significant first. */
  function Weigh(a: nat, b: nat, c: nat, d: nat): nat {
    16_777_216 * a + 65_536 * b + 256 * c + d
  }

  lemma FourBytes(s: seq<Byte>)
    requires |s| == 4
    ensures Unpack(s) == Weigh(s[0], s[1], s[2], s[3])
  {
    var s3, s2, s1 := s[..3], s[..2], s[..1];
    assert s3[..2] == s2 && s2[..1] == s1 && s1[..0] == [];
    assert Unpack(s1) == s[0];
    assert Unpack(s2) == Weigh(0, 0, s[0], s[1]);
    assert Unpack(s3) == Weigh(0, s[0], s[1], s[2]);
  }

  lemma PackRoundTrip(n: nat)
    requires n <= CHUNK_BYTES
    ensures Unpack(Pack(n)) == n
  {
    assert Capacity(2) == 65536 && Capacity(4) == 65536 * 65536;
    BigEndianRoundTrip(n, 4);
  }

  lemma PackIsBigEndian(n: nat)
    requires n <= CHUNK_BYTES
    ensures n == Weigh(Pack(n)[0], Pack(n)[1], Pack(n)[2], Pack(n)[3])
  {
    PackRoundTrip(n);
    FourBytes(Pack(n));
  }

  /** The daemon's side: payload of the complete frames, and whether the zero frame was reached. */
  function Deframe(s: seq<Byte>): (seq<Byte>, bool)
    decreases |s|
  {
    if |s| < 4 then ([], false)
    else
      var n := Unpack(s[..4]);
      if n == 0 then ([], true)
      else if |s| < 4 + n then ([], false)
      else
        var (payload, closed) := Deframe(s[4 + n..]);
        (s[4..4 + n] + payload, closed)
  }

  lemma Associative(a: seq<Byte>, b: seq<Byte>, c: seq<Byte>)
    ensures a + b + c == a + (b + c)
  {
  }

  predicate Chunks(chunks: seq<seq<Byte>>) {
    forall c :: c in chunks ==> 0 < |c| <= CHUNK_BYTES
  }

  function Frame(chunk: seq<Byte>): seq<Byte> {
    Pack(|chunk|) + chunk
  }

  function Frames(chunks: seq<seq<Byte>>): seq<Byte> {
    if chunks == [] then [] else Frame(chunks[0]) + Frames(chunks[1..])
  }

  lemma {:induction false} FramesAppend(chunks: seq<seq<Byte>>, c: seq<Byte>)
    requires Chunks(chunks) && 0 < |c| <= CHUNK_BYTES
    ensures Frames(chunks + [c]) == Frames(chunks) + Frame(c)
    ensures Content(chunks + [c]) == Content(chunks) + c
  {
    if chunks == [] {
      assert chunks + [c] == [c];
      assert [c][1..] == [];
    } else {
      var head, rest := chunks[0], chunks[1..];
      assert head in chunks;
      FramesAppend(rest, c);
      assert (chunks + [c])[1..] == rest + [c];
      Associative(Frame(head), Frames(rest), Frame(c));
      Associative(head, Content(rest), c);
    }
  }

  lemma DeframeFrame(c: seq<Byte>, tail: seq<Byte>)
    requires 0 < |c| <= CHUNK_BYTES
    ensures Deframe(Frame(c) + tail) == (c + Deframe(tail).0, Deframe(tail).1)
  {
    var s := Frame(c) + tail;
    PackRoundTrip(|c|);
    assert s[..4] == Pack(|c|);
    assert s[4..4 + |c|] == c;
    assert s[4 + |c|..] == tail;
  }

  /** Deframing undoes framing, whatever follows. */
  lemma {:induction false} DeframeFrames(chunks: seq<seq<Byte>>, tail: seq<Byte>)
    requires Chunks(chunks)
    ensures Deframe(Frames(chunks) + tail) == (Content(chunks) + Deframe(tail).0, Deframe(tail).1)
    decreases |chunks|
  {
    if chunks == [] {
      assert Frames(chunks) + tail == tail && Content(chunks) + Deframe(tail).0 == Deframe(tail).0;
    } else {
      var c, rest := chunks[0], chunks[1..];
      assert c in chunks;
      DeframeFrames(rest, tail);
      DeframeFrame(c, Frames(rest) + tail);
      Associative(Frame(c), Frames(rest), tail);
      Associative(c, Content(rest), Deframe(tail).0);
    }
  }

  lemma {:induction false} ContentOfPrefix(parts: seq<seq<Byte>>, n: nat)
    requires n <= |parts| && forall k :: 0 <= k < n ==> parts[k] != []
    ensures Content(parts) == Content(parts[..n]) + Content(parts[n..])
  {
    if n > 0 {
      ContentOfPrefix(parts[1..], n - 1);
      assert parts[..n][1..] == parts[1..][..n - 1] && parts[1..][n - 1..] == parts[n..];
    } else {
      assert parts[..0] == [] && parts[0..] == parts;
    }
  }

  /** The daemon's view of what has been sent after the command. */
  function Seen(sent: seq<Byte>): (seq<Byte>, bool) {
    if |sent| < |INSTREAM| then ([], false) else Deframe(sent[|INSTREAM|..])
  }

  lemma AfterCommand(command: seq<Byte>, a: seq<Byte>, b: seq<Byte>)
    ensures (command + a + b)[|command|..] == a + b
    ensures command + a + b == command + (a + b)
  {
  }

  lemma SeenFrames(chunks: seq<seq<Byte>>, tail: seq<Byte>)
    requires Chunks(chunks)
    ensures Seen(INSTREAM + Frames(chunks) + tail) == (Content(chunks) + Deframe(tail).0, Deframe(tail).1)
  {
    DeframeFrames(chunks, tail);
    AfterCommand(INSTREAM, Frames(chunks), tail);
  }

  lemma ZeroFrameCloses()
    ensures Deframe(Pack(0)) == ([], true)
  {
    PackRoundTrip(0);
    assert Pack(0)[..4] == Pack(0);
  }

  /** What `n` complete frames are to the daemon, before and after the zero frame. */
  lemma SeenPrefix(parts: seq<seq<Byte>>, n: nat)
    requires n <= |parts| && forall c :: c in parts ==> |c| <= CHUNK_BYTES
    requires forall k :: 0 <= k < n ==> parts[k] != []
    ensures Chunks(parts[..n])
    ensures Seen(INSTREAM + Frames(parts[..n])) == (Content(parts[..n]), false)
    ensures Seen(INSTREAM + Frames(parts[..n]) + Pack(0)) == (Content(parts[..n]), true)
  {
    var chunks := parts[..n];
    forall c | c in chunks ensures 0 < |c| <= CHUNK_BYTES {
      assert c in parts;
    }
    ZeroFrameCloses();
    SeenFrames(chunks, Pack(0));
    SeenFrames(chunks, []);
    assert INSTREAM + Frames(chunks) + [] == INSTREAM + Frames(chunks);
    assert Content(chunks) + [] == Content(chunks);
  }

  lemma SendOne(parts: seq<seq<Byte>>, n: nat)
    requires n < |parts| && forall c :: c in parts ==> |c| <= CHUNK_BYTES
    requires forall k :: 0 <= k <= n ==> parts[k] != []
    ensures Wire(parts, n + 1) == Wire(parts, n) + Frame(parts[n])
    ensures |Content(parts[..n + 1])| == |Content(parts[..n])| + |parts[n]|
    ensures |Content(parts)| >= |Content(parts[..n + 1])|
  {
    assert Chunks(parts[..n]) by {
      SeenPrefix(parts, n);
    }
    FramesAppend(parts[..n], parts[n]);
    assert parts[..n + 1] == parts[..n] + [parts[n]];
    AfterCommand(INSTREAM, Frames(parts[..n]), Frame(parts[n]));
    assert |Content(parts)| >= |Content(parts[..n + 1])| by {
      ContentOfPrefix(parts, n + 1);
    }
  }

  /** What is on the wire after `n` chunks. */
  function Wire(parts: seq<seq<Byte>>, n: nat): (w: seq<Byte>)
    requires n <= |parts|
  {
    INSTREAM + Frames(parts[..n])
  }

  /** What the daemon makes of the wire once the reads ended with verdict `ok`. */
  ghost predicate Streamed(parts: seq<seq<Byte>>, limit: nat, sent: seq<Byte>, ok: bool) {
    && (ok <==> |Content(parts)| <= limit)
    && (exists n: nat :: n <= |parts| && sent == Wire(parts, n) + if ok then Pack(0) else [])
    && Seen(sent).0 <= Content(parts)
    && |Seen(sent).0| <= limit
    && Seen(sent).1 == ok
    && (ok ==> Seen(sent).0 == Content(parts))
  }

  lemma StopsAtTheLimit(parts: seq<seq<Byte>>, n: nat, limit: nat)
    requires n < |parts| && forall c :: c in parts ==> |c| <= CHUNK_BYTES
    requires forall k :: 0 <= k <= n ==> parts[k] != []
    requires |Content(parts[..n])| <= limit < |Content(parts[..n])| + |parts[n]|
    ensures Streamed(parts, limit, Wire(parts, n), false)
  {
    SendOne(parts, n);
    ContentOfPrefix(parts, n);
    SeenPrefix(parts, n);
    assert Wire(parts, n) == Wire(parts, n) + [];
  }

  lemma EndsTheStream(parts: seq<seq<Byte>>, n: nat, limit: nat)
    requires n <= |parts| && forall c :: c in parts ==> |c| <= CHUNK_BYTES
    requires forall k :: 0 <= k < n ==> parts[k] != []
    requires n == |parts| || parts[n] == []
    requires |Content(parts[..n])| <= limit
    ensures Streamed(parts, limit, Wire(parts, n) + Pack(0), true)
  {
    ContentOfPrefix(parts, n);
    SeenPrefix(parts, n);
    assert Content(parts[n..]) == [];
    assert Content(parts) == Content(parts[..n]);
  }

  /**
   Streams the document. Whatever the reads, the daemon decodes exactly the document, or the limit
   was hit, in which case it never saw the end of the stream nor more than the limit.
   */
  method SendStream(parts: seq<seq<Byte>>, maxStreamBytes: nat) returns (sent: seq<Byte>, ok: bool)
    requires forall c :: c in parts ==> |c| <= CHUNK_BYTES
    ensures Streamed(parts, maxStreamBytes, sent, ok)
  {
    sent := INSTREAM;
    var streamed := 0;
    var n := 0;
    assert sent == Wire(parts, 0);
    while n < |parts| && parts[n] != []
      invariant n <= |parts| && forall k :: 0 <= k < n ==> parts[k] != []
      invariant sent == Wire(parts, n)
      invariant streamed == |Content(parts[..n])| <= maxStreamBytes
    {
      SendOne(parts, n);
      streamed := streamed + |parts[n]|;
      if streamed > maxStreamBytes {
        StopsAtTheLimit(parts, n, maxStreamBytes);
        return sent, false;
      }
      sent := sent + Frame(parts[n]);
      n := n + 1;
    }
    EndsTheStream(parts, n, maxStreamBytes);
    sent := sent + Pack(0);
    ok := true;
  }

  // ------------------------------------------------------------------ the reply record

  datatype ReplyError = EmptyOrOversized

  /** The bytes before the first NUL, or all of them. */
  function Record(stream: seq<Byte>): seq<Byte> {
    if stream == [] || stream[0] == 0 then [] else [stream[0]] + Record(stream[1..])
  }

  /** The record is the longest beginning of the stream without a NUL. */
  lemma {:induction false} RecordMeans(stream: seq<Byte>)
    ensures var record := Record(stream);
            && record <= stream && 0 !in record
            && (|record| < |stream| ==> stream[|record|] == 0)
            && (0 !in stream <==> record == stream)
  {
    if stream != [] && stream[0] != 0 {
      RecordMeans(stream[1..]);
      assert stream == [stream[0]] + stream[1..];
    }
  }

  function Judge(record: seq<Byte>): Result<seq<Byte>, ReplyError> {
    if record == [] || |record| > MAX_REPLY_BYTES then Err(EmptyOrOversized) else Ok(record)
  }

  lemma {:induction false} RecordAppend(a: seq<Byte>, b: seq<Byte>)
    ensures Record(a + b) == if 0 in a then Record(a) else a + Record(b)
    ensures 0 in a ==> |Record(a)| < |a|
  {
    if a == [] {
      assert a + b == b;
    } else {
      assert (a + b)[1..] == a[1..] + b;
      RecordAppend(a[1..], b);
      assert a == [a[0]] + a[1..];
    }
  }

  function Find(chunk: seq<Byte>): (k: int)
    ensures k == -1 <==> 0 !in chunk
    ensures k >= 0 ==> k < |chunk| && chunk[..k] == Record(chunk)
  {
    if chunk == [] then -1
    else if chunk[0] == 0 then 0
    else
      var k := Find(chunk[1..]);
      assert chunk == [chunk[0]] + chunk[1..];
      assert k >= 0 ==> chunk[..k + 1] == [chunk[0]] + chunk[1..][..k];
      if k < 0 then -1 else k + 1
  }

  /** What one more read adds to the record. */
  lemma RecordStep(receives: seq<seq<Byte>>, n: nat)
    requires n < |receives| && receives[n] != []
    ensures Record(Content(receives[n..]))
            == if 0 in receives[n] then Record(receives[n]) else receives[n] + Record(Content(receives[n + 1..]))
  {
    assert receives[n..][0] == receives[n] && receives[n..][1..] == receives[n + 1..];
    RecordAppend(receives[n], Content(receives[n + 1..]));
  }

  /** Reads one record. The answer is a function of the bytes, not of how `recv` cut them. */
  method ReceiveRecord(receives: seq<seq<Byte>>) returns (reply: Result<seq<Byte>, ReplyError>)
    ensures reply == Judge(Record(Content(receives)))
    ensures reply.Ok? <==> 1 <= |Record(Content(receives))| <= 4096
    ensures reply.Ok? ==> reply.value == Record(Content(receives))
  {
    var collected: seq<Byte> := [];
    var n := 0;
    while n < |receives| && receives[n] != []
      invariant n <= |receives| && |collected| <= MAX_REPLY_BYTES
      invariant Record(Content(receives)) == collected + Record(Content(receives[n..]))
    {
      var chunk := receives[n];
      RecordStep(receives, n);
      Associative(collected, chunk, Record(Content(receives[n + 1..])));
      var terminator := Find(chunk);
      if terminator >= 0 {
        return Judge(collected + chunk[..terminator]);
      }
      collected := collected + chunk;
      if |collected| > MAX_REPLY_BYTES {
        return Err(EmptyOrOversized);
      }
      n := n + 1;
    }
    assert Record(Content(receives[n..])) == [];
    assert collected + [] == collected;
    return Judge(collected);
  }

  /** Nothing after the terminating NUL can change the record. */
  lemma RecordIgnoresTail(record: seq<Byte>, tail: seq<Byte>)
    requires 0 !in record
    ensures Record(record + [0] + tail) == record
  {
    RecordAppend(record, [0] + tail);
    assert record + [0] + tail == record + ([0] + tail);
    assert record + [] == record;
  }

  // ------------------------------------------------------------------ the verdict

  datatype ScanResult = Clean | Infected | ScannerUnavailable

  const STREAM: string := "stream: "
  const FOUND: string := " FOUND"

  /** Python's `reply[8:-6]`, empty when the bounds cross. */
  function Signature(reply: string): string {
    if |reply| < |STREAM| + |FOUND| then "" else reply[|STREAM|..|reply| - |FOUND|]
  }

  function Verdict(reply: string): ScanResult {
    if reply == "stream: OK" then Clean
    else if && STREAM <= reply && |reply| >= |FOUND| && reply[|reply| - |FOUND|..] == FOUND
            && Signature(reply) != "" && '\0' !in Signature(reply)
      then Infected
    else ScannerUnavailable
  }

  /** Only these two forms of reply decide anything; every other one fails closed. */
  lemma VerdictMeans(reply: string)
    ensures Verdict(reply).Clean? <==> reply == "stream: OK"
    ensures Verdict(reply).Infected? <==>
            exists signature: string :: signature != "" && '\0' !in signature && reply == STREAM + signature + FOUND
  {
    if Verdict(reply).Infected? {
      assert reply == STREAM + Signature(reply) + FOUND;
    }
    if signature: string :| signature != "" && '\0' !in signature && reply == STREAM + signature + FOUND {
      assert Signature(reply) == signature;
      assert reply[|reply| - 1] == 'D';
    }
  }
}
