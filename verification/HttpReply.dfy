/** One-shot responses: the header text, the repeated body, and how far a pump has got. */
module HttpReply {
  import opened Bytes
  import opened HttpReader

  const LOAD_CHUNK_SIZE: nat := 1024

  /** The filler block of the load generator. */
  function LoadChunk(): (b: seq<byte>)
    ensures |b| == LOAD_CHUNK_SIZE
  {
    Filler(LOAD_CHUNK_SIZE)
  }

  function Filler(n: nat): (b: seq<byte>)
    ensures |b| == n
    ensures forall i | 0 <= i < n :: b[i] == (48 + (i * 7) % 64) as byte
  {
    if n == 0 then [] else Filler(n - 1) + [(48 + ((n - 1) * 7) % 64) as byte]
  }

  /** A response as the slot holds it: header text, body block, and how often to repeat it. */
  datatype Reply = Reply(head: seq<byte>, body: seq<byte>, reps: nat, isLoad: bool)

  function HeaderText(status: seq<byte>, ctype: seq<byte>, length: nat, cache: seq<byte>): seq<byte> {
    Ascii("HTTP/1.1 ") + status + CRLF +
    Ascii("Content-Type: ") + ctype + CRLF +
    Ascii("Content-Length: ") + Dec(length) + CRLF +
    Ascii("Cache-Control: ") + cache + CRLF +
    Ascii("Connection: close") + CRLF + CRLF
  }

  /** `body_len * (reps + 1u)` in 32 bits, as printed. */
  function PrintedLength(bodyLength: nat, reps: nat): nat {
    bodyLength * (reps + 1) % U32
  }

  /** The response queued for a body block repeated `reps` extra times. */
  function MakeReply(status: seq<byte>, ctype: seq<byte>, cache: seq<byte>,
                     body: seq<byte>, reps: nat, isLoad: bool): Reply
  {
    Reply(HeaderText(status, ctype, PrintedLength(|body|, reps), cache), body, reps, isLoad)
  }

  /** `k` copies of the block `b`. */
  function Copies(b: seq<byte>, k: nat): seq<byte> {
    if k == 0 then [] else Copies(b, k - 1) + b
  }

  function ReplyBytes(r: Reply): seq<byte> {
    r.head + Copies(r.body, r.reps + 1)
  }

  lemma {:induction false} CopiesLength(b: seq<byte>, k: nat)
    ensures |Copies(b, k)| == |b| * k
  {
    if k > 0 {
      CopiesLength(b, k - 1);
    }
  }

  lemma {:induction false} CopiesPrefix(b: seq<byte>, k: nat, m: nat)
    requires k <= m
    ensures Copies(b, k) <= Copies(b, m)
  {
    if k < m {
      CopiesPrefix(b, k, m - 1);
    }
  }

  /** `i` blocks out of `k` behind a header, and `n` bytes of the next. */
  lemma BlocksOut(h: seq<byte>, b: seq<byte>, k: nat, i: nat, n: nat)
    requires n <= |b| && i + (if n > 0 then 1 else 0) <= k
    ensures var out := h + Copies(b, i) + b[..n];
      && out <= h + Copies(b, k) && |out| == |h| + |b| * i + n
      && out == h + Copies(b, i) + b[..0] + b[..n]
      && (n == |b| ==> out == h + Copies(b, i + 1) + b[..0])
  {
    CopiesLength(b, i);
    Assoc(h, Copies(b, i), b[..n]);
    CopiesPrefix(b, i, k);
    if n > 0 {
      CopiesPrefix(b, i + 1, k);
      assert Copies(b, i) + b[..n] <= Copies(b, i + 1);
    }
    if n == |b| {
      assert b[..n] == b;
    }
  }

  /** The printed length is the number of body bytes exactly when that number fits 32 bits. */
  lemma LengthIsTrue(r: Reply)
    ensures PrintedLength(|r.body|, r.reps) == |ReplyBytes(r)| - |r.head| <==> |r.body| * (r.reps + 1) < U32
  {
    CopiesLength(r.body, r.reps + 1);
  }

  /** The bytes accepted when a pump stands at `idx`, `off`, with `reps` repeats to go. */
  function Written(r: Reply, idx: nat, off: nat, reps: nat): seq<byte>
    requires idx == 0 ==> off <= |r.head|
    requires idx == 1 ==> off <= |r.body| && reps <= r.reps
  {
    if idx == 0 then r.head[..off]
    else if idx == 1 then r.head + Copies(r.body, r.reps - reps) + r.body[..off]
    else ReplyBytes(r)
  }

  lemma WrittenIsPrefix(r: Reply, idx: nat, off: nat, reps: nat)
    requires idx == 0 ==> off <= |r.head|
    requires idx == 1 ==> off <= |r.body| && reps <= r.reps
    ensures Written(r, idx, off, reps) <= ReplyBytes(r)
  {
    if idx == 1 {
      var k := r.reps - reps;
      CopiesPrefix(r.body, k + 1, r.reps + 1);
      assert Copies(r.body, k) + r.body[..off] <= Copies(r.body, k + 1);
      Assoc(r.head, Copies(r.body, k), r.body[..off]);
    }
  }

  /** The end of a segment is the start of the next: the next copy, or the end of it all. */
  lemma WrittenRollsOver(r: Reply, idx: nat, reps: nat)
    requires idx == 0 || idx == 1
    requires reps <= r.reps && (idx == 0 ==> reps == r.reps)
    ensures idx == 0 ==> Written(r, 0, |r.head|, reps) == Written(r, 1, 0, reps)
    ensures idx == 1 && reps > 0 ==> Written(r, 1, |r.body|, reps) == Written(r, 1, 0, reps - 1)
    ensures idx == 1 && reps == 0 ==> Written(r, 1, |r.body|, reps) == ReplyBytes(r)
  {
    var k := r.reps - reps;
    assert r.body[..|r.body|] == r.body && r.body[..0] == [];
    Assoc(r.head, Copies(r.body, k), r.body);
    assert Copies(r.body, k) + r.body == Copies(r.body, k + 1);
    assert r.head[..|r.head|] == r.head;
  }

  /** Writing the next `n` bytes of the current segment. */
  lemma WrittenGrows(r: Reply, idx: nat, off: nat, n: nat, reps: nat)
    requires idx == 0 ==> off + n <= |r.head|
    requires idx == 1 ==> off + n <= |r.body| && reps <= r.reps
    requires idx < 2
    ensures Written(r, idx, off + n, reps) ==
            Written(r, idx, off, reps) + (if idx == 0 then r.head else r.body)[off..off + n]
  {
    var s := if idx == 0 then r.head else r.body;
    assert s[..off + n] == s[..off] + s[off..off + n];
    if idx == 1 {
      Assoc(r.head + Copies(r.body, r.reps - reps), s[..off], s[off..off + n]);
    }
  }

  /** Body bytes among the first `n` bytes of a load response; none of any other. */
  function LoadBytes(r: Reply, n: nat): nat {
    if r.isLoad && n > |r.head| then n - |r.head| else 0
  }

  /** The response to a /load query that asked for `kb` KB. */
  function LoadReply(kb: nat): Reply {
    if kb == 0 then
      MakeReply(Ascii("200 OK"), Ascii("text/plain"), Ascii("no-store"), Ascii("load=0"), 0, false)
    else
      MakeReply(Ascii("200 OK"), Ascii("application/octet-stream"), Ascii("no-store"), LoadChunk(), kb - 1, true)
  }

  lemma {:induction false} DecLength(n: nat, digits: nat, bound: nat)
    requires digits >= 1 && bound == Pow10(digits) && n < bound
    ensures |Dec(n)| <= digits
  {
    if n >= 10 {
      assert digits > 1;
      DecLength(n / 10, digits - 1, Pow10(digits - 1));
    }
  }

  function Pow10(k: nat): nat {
    if k == 0 then 1 else 10 * Pow10(k - 1)
  }

  /** With the longest status, type and cache texts in use, the 256-byte header buffer never truncates. */
  lemma HeaderFits(status: seq<byte>, ctype: seq<byte>, length: nat, cache: seq<byte>)
    requires |status| <= 22 && |ctype| <= 24 && |cache| <= 13 && length < U32
    ensures |HeaderText(status, ctype, length, cache)| < 256
  {
    assert Pow10(2) == 100;
    assert Pow10(4) == 10000;
    assert Pow10(6) == 1000000;
    assert Pow10(8) == 100000000;
    assert Pow10(10) == 10000000000;
    DecLength(length, 10, Pow10(10));
  }

  // ------------------------------ The TOE build's own printing ------------------------------

  /** The header as the TOE build prints it for any response but a load, line by line. */
  function PrintHead(status: seq<byte>, ctype: seq<byte>, length: nat): seq<byte> {
    Ascii("HTTP/1.1 ") + status + Ascii("\r\n") +
    Ascii("Content-Type: ") + ctype + Ascii("\r\n") +
    Ascii("Content-Length: ") + Dec(length) + Ascii("\r\n") +
    Ascii("Cache-Control: no-store\r\n") + Ascii("Connection: close\r\n") + Ascii("\r\n")
  }

  /** And for a load of `kb` KB. */
  function PrintLoadHead(kb: nat): seq<byte> {
    Ascii("HTTP/1.1 200 OK\r\n") +
    Ascii("Content-Type: application/octet-stream\r\n") +
    Ascii("Content-Length: ") + Dec(kb * LOAD_CHUNK_SIZE % U32) + Ascii("\r\n") +
    Ascii("Cache-Control: no-store\r\n") + Ascii("Connection: close\r\n") + Ascii("\r\n")
  }

  lemma CrlfIs()
    ensures Ascii("\r\n") == CRLF
  {
  }

  /** A printed line is the same text in pieces. */
  lemma LineIs(a: string, b: string, line: string)
    requires line == a + b + "\r\n"
    ensures Ascii(line) == Ascii(a) + Ascii(b) + CRLF
  {
    hide Ascii;
    CrlfIs();
    AsciiJoin(a, b);
    AsciiJoin(a + b, "\r\n");
  }

  lemma CommonLines()
    ensures Ascii("Cache-Control: no-store\r\n") == Ascii("Cache-Control: ") + Ascii("no-store") + CRLF
    ensures Ascii("Connection: close\r\n") == Ascii("Connection: close") + CRLF
  {
    hide Ascii;
    assert "Cache-Control: no-store\r\n" == "Cache-Control: " + "no-store" + "\r\n";
    LineIs("Cache-Control: ", "no-store", "Cache-Control: no-store\r\n");
    CrlfIs();
    assert "Connection: close\r\n" == "Connection: close" + "\r\n";
    AsciiJoin("Connection: close", "\r\n");
  }

  /** The two builds print the same header. */
  lemma HeadsAgree(status: seq<byte>, ctype: seq<byte>, length: nat)
    ensures PrintHead(status, ctype, length) == HeaderText(status, ctype, length, Ascii("no-store"))
  {
    hide Ascii, Dec;
    CrlfIs();
    CommonLines();
  }

  lemma LoadLines()
    ensures Ascii("HTTP/1.1 200 OK\r\n") == Ascii("HTTP/1.1 ") + Ascii("200 OK") + CRLF
    ensures Ascii("Content-Type: application/octet-stream\r\n")
      == Ascii("Content-Type: ") + Ascii("application/octet-stream") + CRLF
  {
    hide Ascii;
    assert "HTTP/1.1 200 OK\r\n" == "HTTP/1.1 " + "200 OK" + "\r\n";
    LineIs("HTTP/1.1 ", "200 OK", "HTTP/1.1 200 OK\r\n");
    assert "Content-Type: application/octet-stream\r\n" == "Content-Type: " + "application/octet-stream" + "\r\n";
    LineIs("Content-Type: ", "application/octet-stream", "Content-Type: application/octet-stream\r\n");
  }

  lemma LoadHeadIs(kb: nat)
    requires kb > 0
    ensures LoadReply(kb).head ==
      HeaderText(Ascii("200 OK"), Ascii("application/octet-stream"), kb * LOAD_CHUNK_SIZE % U32, Ascii("no-store"))
  {
    hide Ascii, Dec, Filler, HeaderText;
    assert |LoadChunk()| * (kb - 1 + 1) == kb * LOAD_CHUNK_SIZE;
  }

  lemma TwoLines(a: seq<byte>, b: seq<byte>, c: seq<byte>, d: seq<byte>, end: seq<byte>)
    ensures (a + b + end) + (c + d + end) == a + b + end + c + d + end
  {
  }

  /** Also for a load, where one multiplies the block by its repeats and the other by the KB. */
  lemma LoadHeadsAgree(kb: nat)
    requires kb > 0
    ensures PrintLoadHead(kb) == LoadReply(kb).head
  {
    LoadHeadIs(kb);
    HeadsAgree(Ascii("200 OK"), Ascii("application/octet-stream"), kb * LOAD_CHUNK_SIZE % U32);
    hide Ascii, Dec, LoadReply, HeaderText;
    CrlfIs();
    LoadLines();
    TwoLines(Ascii("HTTP/1.1 "), Ascii("200 OK"), Ascii("Content-Type: "), Ascii("application/octet-stream"), CRLF);
  }

  lemma NoLoadHeadsAgree()
    ensures PrintHead(Ascii("200 OK"), Ascii("text/plain"), |Ascii("load=0")|) == LoadReply(0).head
  {
    HeadsAgree(Ascii("200 OK"), Ascii("text/plain"), |Ascii("load=0")|);
    hide HeaderText, PrintHead;
  }

  // ------------------------------ As a receiver reads it ------------------------------

  function HeaderLines(status: seq<byte>, ctype: seq<byte>, length: nat, cache: seq<byte>): seq<seq<byte>> {
    [Ascii("HTTP/1.1 ") + status] + FieldLines(ctype, length, cache)
  }

  function FieldLines(ctype: seq<byte>, length: nat, cache: seq<byte>): seq<seq<byte>> {
    [Ascii("Content-Type: ") + ctype] + ([Ascii("Content-Length: ") + Dec(length)] +
      ([Ascii("Cache-Control: ") + cache] + ([Ascii("Connection: close")] + [])))
  }

  /** The printed header is its lines and a blank one. */
  lemma HeaderIsText(status: seq<byte>, ctype: seq<byte>, length: nat, cache: seq<byte>)
    ensures HeaderText(status, ctype, length, cache) == Text(HeaderLines(status, ctype, length, cache)) + CRLF
  {
    hide Ascii, Dec;
    var a, b, c, d, e := Ascii("HTTP/1.1 ") + status, Ascii("Content-Type: ") + ctype,
      Ascii("Content-Length: ") + Dec(length), Ascii("Cache-Control: ") + cache, Ascii("Connection: close");
    FiveLines(a, b, c, d, e);
  }

  lemma FiveLines(a: seq<byte>, b: seq<byte>, c: seq<byte>, d: seq<byte>, e: seq<byte>)
    ensures Text([a] + ([b] + ([c] + ([d] + ([e] + []))))) ==
      a + CRLF + (b + CRLF + (c + CRLF + (d + CRLF + (e + CRLF + []))))
  {
    assert Text([]) == [];
    TextCons(e, []);
    TextCons(d, [e] + []);
    TextCons(c, [d] + ([e] + []));
    TextCons(b, [c] + ([d] + ([e] + [])));
    TextCons(a, [b] + ([c] + ([d] + ([e] + []))));
    hide Text;
  }

  lemma FieldTexts()
    ensures 13 !in Ascii("HTTP/1.1 ") && 13 !in Ascii("Content-Type: ") && 13 !in Ascii("Content-Length: ")
    ensures 13 !in Ascii("Cache-Control: ") && 13 !in Ascii("Connection: close")
  {
    hide Ascii;
    NoCr("HTTP/1.1 ");
    NoCr("Content-Type: ");
    NoCr("Content-Length: ");
    NoCr("Cache-Control: ");
    NoCr("Connection: close");
  }

  lemma DigitsNoCr(n: nat)
    ensures 13 !in Dec(n)
  {
    assert forall b <- Dec(n) :: IsDigit(b);
  }

  lemma HeaderAreLines(status: seq<byte>, ctype: seq<byte>, length: nat, cache: seq<byte>)
    requires 13 !in status && 13 !in ctype && 13 !in cache
    ensures AreLines(HeaderLines(status, ctype, length, cache))
  {
    FieldTexts();
    DigitsNoCr(length);
    hide Ascii, Dec;
  }

  /** The names of fields, and that one does not start with the other. */
  lemma FieldNames(ctype: seq<byte>)
    ensures Ascii("Content-Type: ") == Ascii("Content-Type") + Ascii(": ")
    ensures Ascii("Content-Length: ") == Ascii("Content-Length") + Ascii(": ")
    ensures !(Ascii("Content-Length") + Ascii(": ") <= Ascii("Content-Type: ") + ctype)
  {
    assert "Content-Type: " == "Content-Type" + ": " && "Content-Length: " == "Content-Length" + ": ";
    AsciiJoin("Content-Type", ": ");
    AsciiJoin("Content-Length", ": ");
    assert Ascii("Content-Length: ")[8] == 76 && (Ascii("Content-Type: ") + ctype)[8] == 84;
  }

  lemma HeaderFields(ctype: seq<byte>, length: nat, cache: seq<byte>)
    ensures Field(FieldLines(ctype, length, cache), Ascii("Content-Type")) == Some(ctype)
    ensures ContentLength(FieldLines(ctype, length, cache)) == Some(length)
  {
    FieldNames(ctype);
    ReadNumberIs(length);
    hide Ascii, Dec, ReadNumber;
    var rest := [Ascii("Cache-Control: ") + cache] + ([Ascii("Connection: close")] + []);
    var sized := [Ascii("Content-Length: ") + Dec(length)] + rest;
    FieldFirst(Ascii("Content-Type"), ctype, sized);
    FieldNext(Ascii("Content-Type: ") + ctype, Ascii("Content-Length"), sized);
    FieldFirst(Ascii("Content-Length"), Dec(length), rest);
  }

  /** Any header and body: read back as that status, type and body. */
  lemma HeaderReads(status: seq<byte>, ctype: seq<byte>, cache: seq<byte>, body: seq<byte>)
    requires 13 !in status && 13 !in ctype && 13 !in cache
    ensures ReadResponse(HeaderText(status, ctype, |body|, cache) + body) == Some(Response(status, ctype, body, []))
  {
    var lines := HeaderLines(status, ctype, |body|, cache);
    HeaderIsText(status, ctype, |body|, cache);
    HeaderAreLines(status, ctype, |body|, cache);
    ReadLinesIs(lines, body);
    HeaderFields(ctype, |body|, cache);
    AfterConcat(Ascii("HTTP/1.1 "), status);
    hide Ascii, HeaderText, FieldLines, Field, ContentLength, ReadLines, Text;
    assert lines[1..] == FieldLines(ctype, |body|, cache);
    assert body[..|body|] == body && body[|body|..] == [];
  }

  /** And cut anywhere, as no response at all. */
  lemma HeaderCut(status: seq<byte>, ctype: seq<byte>, cache: seq<byte>, body: seq<byte>, d: seq<byte>)
    requires 13 !in status && 13 !in ctype && 13 !in cache
    requires d < HeaderText(status, ctype, |body|, cache) + body
    ensures ReadResponse(d) == None
  {
    var lines, head := HeaderLines(status, ctype, |body|, cache), HeaderText(status, ctype, |body|, cache);
    HeaderIsText(status, ctype, |body|, cache);
    HeaderAreLines(status, ctype, |body|, cache);
    HeaderFields(ctype, |body|, cache);
    hide Ascii, HeaderText, FieldLines, Field, ContentLength, ReadLines, Text;
    assert lines[1..] == FieldLines(ctype, |body|, cache);
    if |d| < |head| {
      assert d < head;
      ReadLinesCut(lines, d);
    } else {
      var e := d[|head|..];
      assert d == head + e;
      ReadLinesIs(lines, e);
    }
  }

  lemma TimesOrder(n: nat, a: nat, b: nat)
    requires a <= b
    ensures n * a <= n * b
  {
  }

  /** Byte `i` of copy `q` is byte `i` of the block. */
  lemma {:induction false} CopiesAt(b: seq<byte>, k: nat, q: nat, i: nat)
    requires q < k && i < |b|
    ensures |b| * q + i < |Copies(b, k)| == |b| * k && Copies(b, k)[|b| * q + i] == b[i]
  {
    CopiesLength(b, k);
    CopiesLength(b, k - 1);
    TimesOrder(|b|, q + 1, k);
    assert |b| * (q + 1) == |b| * q + |b|;
    if q < k - 1 {
      TimesOrder(|b|, q + 1, k - 1);
      CopiesAt(b, k - 1, q, i);
    }
  }

  /**
   * A whole response is read back as its status and type, with exactly the body blocks; cut
   * anywhere, in the header or in the body, it is incomplete. So it is for every status, type
   * and body, as long as the length fits the 32 bits it is printed in.
   */
  lemma ReplyReads(status: seq<byte>, ctype: seq<byte>, cache: seq<byte>, body: seq<byte>, reps: nat, isLoad: bool)
    requires 13 !in status && 13 !in ctype && 13 !in cache && |body| * (reps + 1) < U32
    ensures var r := MakeReply(status, ctype, cache, body, reps, isLoad);
      && ReadResponse(ReplyBytes(r)) == Some(Response(status, ctype, Copies(body, reps + 1), []))
      && forall d | d < ReplyBytes(r) :: ReadResponse(d) == None
  {
    var all := Copies(body, reps + 1);
    var r := MakeReply(status, ctype, cache, body, reps, isLoad);
    CopiesLength(body, reps + 1);
    assert PrintedLength(|body|, reps) == |all|;
    assert ReplyBytes(r) == HeaderText(status, ctype, |all|, cache) + all;
    HeaderReads(status, ctype, cache, all);
    hide HeaderText, ReadResponse, Copies, MakeReply, ReplyBytes;
    forall d | d < ReplyBytes(r)
      ensures ReadResponse(d) == None
    {
      HeaderCut(status, ctype, cache, all, d);
    }
  }

  lemma LoadTexts()
    ensures 13 !in Ascii("200 OK") && 13 !in Ascii("text/plain") && 13 !in Ascii("no-store")
  {
    hide Ascii;
    NoCr("200 OK");
    NoCr("text/plain");
    NoCr("no-store");
  }

  lemma LoadTypeText()
    ensures 13 !in Ascii("application/octet-stream")
  {
    hide Ascii;
    NoCr("application/octet-stream");
  }

  function LoadResponse(kb: nat): Response {
    if kb == 0 then Response(Ascii("200 OK"), Ascii("text/plain"), Ascii("load=0"), [])
    else Response(Ascii("200 OK"), Ascii("application/octet-stream"), Copies(LoadChunk(), kb), [])
  }

  lemma OneCopy(b: seq<byte>)
    ensures Copies(b, 1) == b
  {
    assert Copies(b, 0) == [] && Copies(b, 1) == Copies(b, 0) + b;
  }

  /** What the receiver of a whole load response reads, and that it reads nothing of less. */
  lemma LoadReads(kb: nat)
    requires kb * LOAD_CHUNK_SIZE < U32
    ensures ReadResponse(ReplyBytes(LoadReply(kb))) == Some(LoadResponse(kb))
    ensures forall d | d < ReplyBytes(LoadReply(kb)) :: ReadResponse(d) == None
  {
    LoadTexts();
    LoadTypeText();
    hide Ascii, Filler, ReadResponse, ReplyBytes, Copies, MakeReply;
    if kb == 0 {
      OneCopy(Ascii("load=0"));
      ReplyReads(Ascii("200 OK"), Ascii("text/plain"), Ascii("no-store"), Ascii("load=0"), 0, false);
    } else {
      assert |LoadChunk()| * (kb - 1 + 1) == kb * LOAD_CHUNK_SIZE;
      ReplyReads(Ascii("200 OK"), Ascii("application/octet-stream"), Ascii("no-store"), LoadChunk(), kb - 1, true);
    }
  }

  /** The logo's header, as the TOE build prints it. */
  function PrintLogoHead(length: nat): seq<byte> {
    Ascii("HTTP/1.1 200 OK\r\n") +
    Ascii("Content-Type: image/png\r\n") +
    Ascii("Content-Length: ") + Dec(length) + Ascii("\r\n") +
    Ascii("Cache-Control: max-age=86400\r\n") + Ascii("Connection: close\r\n") + Ascii("\r\n")
  }

  lemma LogoLines()
    ensures Ascii("Content-Type: image/png\r\n") == Ascii("Content-Type: ") + Ascii("image/png") + CRLF
    ensures Ascii("Cache-Control: max-age=86400\r\n") == Ascii("Cache-Control: ") + Ascii("max-age=86400") + CRLF
  {
    hide Ascii;
    assert "Content-Type: image/png\r\n" == "Content-Type: " + "image/png" + "\r\n";
    LineIs("Content-Type: ", "image/png", "Content-Type: image/png\r\n");
    assert "Cache-Control: max-age=86400\r\n" == "Cache-Control: " + "max-age=86400" + "\r\n";
    LineIs("Cache-Control: ", "max-age=86400", "Cache-Control: max-age=86400\r\n");
  }

  lemma LogoHeadsAgree(length: nat)
    ensures PrintLogoHead(length) == HeaderText(Ascii("200 OK"), Ascii("image/png"), length, Ascii("max-age=86400"))
  {
    CrlfIs();
    CommonLines();
    LoadLines();
    LogoLines();
    hide Ascii, Dec;
    TwoLines(Ascii("HTTP/1.1 "), Ascii("200 OK"), Ascii("Content-Type: "), Ascii("image/png"), CRLF);
  }

  lemma LogoTexts()
    ensures 13 !in Ascii("image/png") && 13 !in Ascii("max-age=86400")
  {
    hide Ascii;
    NoCr("image/png");
    NoCr("max-age=86400");
  }
}
