/**
 * The multipart/x-mixed-replace body both servers write, and a reader for it.
 * The reader is written from the receiving side alone: it takes the boundary from the
 * response header and trusts only that and each part's Content-Length, as a browser does.
 */
module Multipart {
  import opened Bytes
  import opened HttpReader

  type Frame = seq<byte>

  /** A capture both servers are willing to send. */
  predicate IsJpeg(f: Frame) {
    |f| >= 2 && f[0] == 0xFF && f[1] == 0xD8
  }

  const BOUNDARY: seq<byte> := Ascii("wiznetframe")
  const MIXED: seq<byte> := Ascii("multipart/x-mixed" + "-replace; boundary=")
  const DASHES: seq<byte> := [45, 45]

  /** The lines of the header in front of the stream. */
  function PreambleLines(): seq<seq<byte>> {
    [Ascii("HTTP/1.1 200 OK")] + PreambleFields()
  }

  function PreambleFields(): seq<seq<byte>> {
    [Ascii("Content-Type") + Ascii(": ") + (MIXED + BOUNDARY)] + ([Ascii("Cache-Control: no-store")] +
      ([Ascii("Pragma: no-cache")] + ([Ascii("Connection: close")] + [])))
  }

  const PREAMBLE: seq<byte> := Text(PreambleLines()) + CRLF

  const PART_LINES: seq<byte> := DASHES + BOUNDARY + CRLF + Ascii("Content-Type: image/jpeg") + CRLF + Ascii("Content-Length: ")

  /** The header queued in front of an `n`-byte JPEG. */
  function PartHead(n: nat): (h: seq<byte>) {
    PART_LINES + Dec(n) + CRLF + CRLF
  }

  function Part(f: Frame): seq<byte> {
    PartHead(|f|) + f + CRLF
  }

  function Parts(fs: seq<Frame>): seq<byte> {
    if fs == [] then [] else Parts(fs[..|fs| - 1]) + Part(fs[|fs| - 1])
  }

  /** Everything a stream connection carries; `tail` is the part still being written. */
  function StreamBytes(stray: bool, fs: seq<Frame>, tail: seq<byte>): seq<byte> {
    PREAMBLE + (if stray then CRLF else []) + Parts(fs) + tail
  }

  /** `tail` is nothing, or a part of one of `captures` cut short. */
  ghost predicate IsTail(tail: seq<byte>, captures: set<Frame>) {
    tail == [] || exists f <- captures :: tail < Part(f)
  }

  /** `fs` and `tail` are made of whole captures, each from a single one. */
  ghost predicate FromCaptures(fs: seq<Frame>, tail: seq<byte>, captures: set<Frame>) {
    (forall f <- fs :: f in captures) && IsTail(tail, captures)
  }

  lemma TailGrows(stray: bool, fs: seq<Frame>, tail: seq<byte>, data: seq<byte>)
    ensures StreamBytes(stray, fs, tail) + data == StreamBytes(stray, fs, tail + data)
  {
    Assoc(PREAMBLE + (if stray then CRLF else []) + Parts(fs), tail, data);
  }

  /** The closing CRLF turns the unfinished part into a finished one. */
  lemma TailCloses(stray: bool, fs: seq<Frame>, f: Frame)
    ensures StreamBytes(stray, fs, PartHead(|f|) + f) + CRLF == StreamBytes(stray, fs + [f], [])
  {
    TailGrows(stray, fs, PartHead(|f|) + f, CRLF);
    PartsSnoc(fs, f);
    Assoc(PREAMBLE + (if stray then CRLF else []), Parts(fs), Part(f));
  }

  lemma StrayOpens()
    ensures StreamBytes(false, [], []) == PREAMBLE
    ensures StreamBytes(false, [], []) + CRLF == StreamBytes(true, [], [])
  {
  }

  lemma CutIsTail(f: Frame, n: nat, captures: set<Frame>)
    requires f in captures && n <= |f|
    ensures IsTail(PartHead(|f|) + f[..n], captures)
  {
    Assoc(PartHead(|f|), f, CRLF);
    assert PartHead(|f|) + f[..n] < Part(f);
  }

  /** Bytes of the given number and a CRLF: those bytes, and what follows. */
  function ReadBody(u: seq<byte>, n: nat): (r: Option<(Frame, seq<byte>)>)
    ensures r.Some? ==> |r.value.1| < |u|
  {
    if |u| < n then None else
      var rest := After(u[n..], CRLF);
      if rest.None? then None else Some((u[..n], rest.value))
  }

  function Delimiter(boundary: seq<byte>): (d: seq<byte>)
    ensures d != []
  {
    DASHES + boundary + CRLF
  }

  /** Read one part off the front: delimiter, header lines, and as many bytes as they say. */
  function ReadPart(boundary: seq<byte>, s: seq<byte>): (r: Option<(Frame, seq<byte>)>)
    ensures r.Some? ==> |r.value.1| < |s|
  {
    var t := After(s, Delimiter(boundary));
    if t.None? then None else
      var head := ReadLines(t.value);
      if head.None? || ContentLength(head.value.0).None? then None else
        ReadLinesShorter(t.value);
        ReadBody(head.value.1, ContentLength(head.value.0).value)
  }

  function ReadParts(boundary: seq<byte>, s: seq<byte>): seq<Frame>
    decreases |s|
  {
    match ReadPart(boundary, s)
    case None => []
    case Some((f, rest)) => [f] + ReadParts(boundary, rest)
  }

  /** The boundary a response header declares. */
  function DeclaredBoundary(lines: seq<seq<byte>>): Option<seq<byte>> {
    match Field(lines, Ascii("Content-Type"))
    case None => None
    case Some(v) => After(v, MIXED)
  }

  /** A receiver of the whole connection; a CRLF ahead of the first boundary is skipped. */
  function ReadStream(s: seq<byte>): seq<Frame> {
    match ReadLines(s)
    case None => []
    case Some((lines, t)) =>
      if lines == [] then [] else
        match DeclaredBoundary(lines[1..])
        case None => []
        case Some(b) => ReadParts(b, SkipCrlf(t))
  }

  function SkipCrlf(t: seq<byte>): seq<byte> {
    match After(t, CRLF) case None => t case Some(u) => u
  }

  lemma {:induction false} PartsCons(f: Frame, fs: seq<Frame>)
    ensures Parts([f] + fs) == Part(f) + Parts(fs)
  {
    var all := [f] + fs;
    if fs == [] {
      assert all[..0] == [];
      assert Parts([]) == [];
    } else {
      var last := |fs| - 1;
      assert all[..|all| - 1] == [f] + fs[..last];
      PartsCons(f, fs[..last]);
      Assoc(Part(f), Parts(fs[..last]), Part(fs[last]));
    }
  }

  lemma PartsSnoc(fs: seq<Frame>, f: Frame)
    ensures Parts(fs + [f]) == Parts(fs) + Part(f)
  {
    assert (fs + [f])[..|fs|] == fs;
  }

  // ---- The header of a part ----

  function PartFields(n: nat): seq<seq<byte>> {
    [Ascii("Content-Type: image/jpeg")] + ([Ascii("Content-Length: ") + Dec(n)] + [])
  }

  lemma TwoLines(a: seq<byte>, b: seq<byte>)
    ensures Text([a] + ([b] + [])) == a + CRLF + (b + CRLF)
  {
    assert Text([]) == [];
    TextCons(b, []);
    TextCons(a, [b] + []);
    assert b + CRLF + [] == b + CRLF;
  }

  lemma PartHeadIs(n: nat)
    ensures PartHead(n) == Delimiter(BOUNDARY) + (Text(PartFields(n)) + CRLF)
  {
    hide Ascii, Dec;
    TwoLines(Ascii("Content-Type: image/jpeg"), Ascii("Content-Length: ") + Dec(n));
  }

  lemma PartTexts()
    ensures 13 !in Ascii("Content-Type: image/jpeg") && 13 !in Ascii("Content-Length: ")
    ensures Ascii("Content-Length: ") == Ascii("Content-Length") + Ascii(": ")
    ensures Ascii("Content-Type: image/jpeg")[8] == 84 && Ascii("Content-Length")[8] == 76
  {
    NoCr("Content-Type: image/jpeg");
    NoCr("Content-Length: ");
    assert "Content-Length: " == "Content-Length" + ": ";
    AsciiJoin("Content-Length", ": ");
    assert "Content-Type: image/jpeg"[8] == 'T' && "Content-Length"[8] == 'L';
  }

  lemma PartFieldsRead(n: nat)
    ensures AreLines(PartFields(n)) && ContentLength(PartFields(n)) == Some(n)
  {
    PartTexts();
    ReadNumberIs(n);
    assert forall b <- Dec(n) :: IsDigit(b);
    hide Ascii, Dec, ReadNumber;
    var a, b := Ascii("Content-Type: image/jpeg"), Ascii("Content-Length: ") + Dec(n);
    assert !(Ascii("Content-Length") + Ascii(": ") <= a) by {
      assert (Ascii("Content-Length") + Ascii(": "))[8] == 76;
    }
    FieldNext(a, Ascii("Content-Length"), [b] + []);
    FieldFirst(Ascii("Content-Length"), Dec(n), []);
  }

  lemma ReadBodyIs(f: Frame, rest: seq<byte>)
    ensures ReadBody(f + (CRLF + rest), |f|) == Some((f, rest))
  {
    AfterConcat(CRLF, rest);
    assert (f + (CRLF + rest))[|f|..] == CRLF + rest;
  }

  /** Reading a part that is followed by anything gives back exactly that part. */
  lemma ReadWhole(f: Frame, rest: seq<byte>)
    ensures ReadPart(BOUNDARY, Part(f) + rest) == Some((f, rest))
  {
    var fields, d := PartFields(|f|), Delimiter(BOUNDARY);
    var t := Text(fields) + CRLF + (f + (CRLF + rest));
    PartHeadIs(|f|);
    PartFieldsRead(|f|);
    assert Part(f) + rest == d + t;
    hide Part, PartHead, PartFields, Delimiter, Text, ReadLines, ContentLength, ReadBody;
    AfterConcat(d, t);
    ReadLinesIs(fields, f + (CRLF + rest));
    ReadBodyIs(f, rest);
  }

  /** A part cut anywhere before its last byte reads as no part at all. */
  lemma ReadCut(tail: seq<byte>, f: Frame)
    requires tail < Part(f)
    ensures ReadPart(BOUNDARY, tail) == None
  {
    var fields, d := PartFields(|f|), Delimiter(BOUNDARY);
    var head := Text(fields) + CRLF;
    PartHeadIs(|f|);
    PartFieldsRead(|f|);
    assert Part(f) == d + (head + (f + CRLF));
    hide Part, PartHead, PartFields, Delimiter, Text, ReadLines, ContentLength;
    if d <= tail {
      var t := tail[|d|..];
      assert tail == d + t && t < head + (f + CRLF);
      AfterConcat(d, t);
      if |t| < |head| {
        assert t < head;
        ReadLinesCut(fields, t);
      } else {
        var u := t[|head|..];
        assert t == head + u && u < f + CRLF;
        ReadLinesIs(fields, u);
      }
    }
  }

  lemma {:induction false} ReadPartsInverts(fs: seq<Frame>, tail: seq<byte>, captures: set<Frame>)
    requires IsTail(tail, captures)
    ensures ReadParts(BOUNDARY, Parts(fs) + tail) == fs
  {
    hide ReadPart, Part;
    if fs == [] {
      assert Parts(fs) + tail == tail;
      if tail != [] {
        var f :| f in captures && tail < Part(f);
        ReadCut(tail, f);
      } else {
        ReadNothing();
      }
    } else {
      assert fs == [fs[0]] + fs[1..];
      PartsCons(fs[0], fs[1..]);
      var rest := Parts(fs[1..]) + tail;
      Assoc(Part(fs[0]), Parts(fs[1..]), tail);
      ReadWhole(fs[0], rest);
      ReadPartsInverts(fs[1..], tail, captures);
    }
  }

  lemma PartStartsWithDash(f: Frame)
    ensures Part(f) != [] && Part(f)[0] == 45
  {
    PartHeadIs(|f|);
    hide Text, PartFields;
    assert DASHES[0] == 45;
  }

  /** Part bytes start with the boundary's dash, never with a carriage return. */
  lemma PartsNoCrlf(fs: seq<Frame>, tail: seq<byte>, captures: set<Frame>)
    requires IsTail(tail, captures)
    ensures SkipCrlf(Parts(fs) + tail) == Parts(fs) + tail
  {
    if fs == [] {
      assert Parts(fs) + tail == tail;
      if tail != [] {
        var f :| f in captures && tail < Part(f);
        PartStartsWithDash(f);
      }
    } else {
      assert fs == [fs[0]] + fs[1..];
      PartsCons(fs[0], fs[1..]);
      PartStartsWithDash(fs[0]);
      assert (Parts(fs) + tail)[0] == Part(fs[0])[0];
    }
  }

  // ---- The header of the stream ----

  lemma PreambleTexts()
    ensures 13 !in Ascii("HTTP/1.1 200 OK") && 13 !in Ascii("Cache-Control: no-store")
  {
    hide Ascii;
    NoCr("HTTP/1.1 200 OK");
    NoCr("Cache-Control: no-store");
  }

  lemma MorePreambleTexts()
    ensures 13 !in Ascii("Pragma: no-cache") && 13 !in Ascii("Connection: close")
  {
    hide Ascii;
    NoCr("Pragma: no-cache");
    NoCr("Connection: close");
  }

  lemma BoundaryTexts()
    ensures 13 !in Ascii("Content-Type") + Ascii(": ") + (MIXED + BOUNDARY)
  {
    hide Ascii;
    NoCr("Content-Type");
    NoCr(": ");
    MixedText();
    NoCr("wiznetframe");
  }

  lemma MixedText()
    ensures 13 !in MIXED
  {
    hide Ascii;
    NoCr("multipart/x-mixed");
    NoCr("-replace; boundary=");
    AsciiJoin("multipart/x-mixed", "-replace; boundary=");
  }

  /** The response header declares the boundary the parts are delimited by. */
  lemma BoundaryDeclared()
    ensures AreLines(PreambleLines()) && DeclaredBoundary(PreambleFields()) == Some(BOUNDARY)
  {
    PreambleTexts();
    MorePreambleTexts();
    BoundaryTexts();
    hide Ascii;
    var more := [Ascii("Cache-Control: no-store")] + ([Ascii("Pragma: no-cache")] + ([Ascii("Connection: close")] + []));
    FieldFirst(Ascii("Content-Type"), MIXED + BOUNDARY, more);
    AfterConcat(MIXED, BOUNDARY);
  }

  lemma PreambleReads(t: seq<byte>)
    ensures ReadStream(PREAMBLE + t) == ReadParts(BOUNDARY, SkipCrlf(t))
  {
    var lines := PreambleLines();
    BoundaryDeclared();
    assert lines[1..] == PreambleFields();
    hide PreambleLines, PreambleFields, Text, ReadLines, DeclaredBoundary, ReadParts, SkipCrlf;
    ReadLinesIs(lines, t);
  }

  lemma PreambleCut(d: seq<byte>)
    requires d < PREAMBLE
    ensures ReadStream(d) == []
  {
    BoundaryDeclared();
    hide PreambleLines, PreambleFields, Text, ReadLines, DeclaredBoundary, ReadParts, SkipCrlf;
    ReadLinesCut(PreambleLines(), d);
  }

  /** A receiver recovers the finished frames exactly, whatever the stray line and the cut. */
  lemma ReadStreamInverts(stray: bool, fs: seq<Frame>, tail: seq<byte>, captures: set<Frame>)
    requires IsTail(tail, captures)
    ensures ReadStream(StreamBytes(stray, fs, tail)) == fs
  {
    var body := Parts(fs) + tail;
    var lead: seq<byte> := if stray then CRLF else [];
    Assoc(PREAMBLE + lead, Parts(fs), tail);
    Assoc(PREAMBLE, lead, body);
    PreambleReads(lead + body);
    hide ReadStream, ReadParts, Parts;
    if stray {
      AfterConcat(CRLF, body);
    } else {
      assert lead + body == body;
      PartsNoCrlf(fs, tail, captures);
    }
    assert SkipCrlf(lead + body) == body;
    ReadPartsInverts(fs, tail, captures);
  }

  // ------------------------------ While it is still coming in ------------------------------

  lemma ReadNothing()
    ensures ReadPart(BOUNDARY, []) == None
  {
  }

  lemma {:induction false} ReadPartsPrefix(fs: seq<Frame>, tail: seq<byte>, captures: set<Frame>, d: seq<byte>)
    requires IsTail(tail, captures) && d <= Parts(fs) + tail
    ensures ReadParts(BOUNDARY, d) <= fs
  {
    hide Part, ReadPart;
    if fs == [] {
      assert Parts(fs) + tail == tail;
      if tail != [] {
        var f :| f in captures && tail < Part(f);
        ReadCut(d, f);
      } else {
        ReadNothing();
      }
    } else {
      var p, rest := Part(fs[0]), Parts(fs[1..]) + tail;
      assert fs == [fs[0]] + fs[1..];
      PartsCons(fs[0], fs[1..]);
      Assoc(p, Parts(fs[1..]), tail);
      if |d| < |p| {
        assert d < p;
        ReadCut(d, fs[0]);
      } else {
        var e := d[|p|..];
        assert d == p + e && e <= rest;
        ReadWhole(fs[0], e);
        ReadPartsPrefix(fs[1..], tail, captures, e);
      }
    }
  }

  /** A line end not yet complete is no part, and no part either once it is skipped. */
  lemma ReadLead(t: seq<byte>)
    requires t < CRLF
    ensures ReadParts(BOUNDARY, SkipCrlf(t)) == []
  {
    assert Delimiter(BOUNDARY)[0] == 45;
    assert !(Delimiter(BOUNDARY) <= t);
    hide Delimiter, ReadLines;
  }

  /** At any moment a receiver has recovered the first of the frames, whole, and no others. */
  lemma ReadStreamPrefix(stray: bool, fs: seq<Frame>, tail: seq<byte>, captures: set<Frame>, d: seq<byte>)
    requires IsTail(tail, captures) && d <= StreamBytes(stray, fs, tail)
    ensures ReadStream(d) <= fs
  {
    if PREAMBLE <= d {
      var body, t := Parts(fs) + tail, d[|PREAMBLE|..];
      AfterPreamble(stray, fs, tail, d);
      hide ReadParts, Parts, StreamBytes, IsTail, SkipCrlf;
      if !stray {
        SkipNothing(fs, tail, captures, t);
        ReadPartsPrefix(fs, tail, captures, t);
      } else if |t| < 2 {
        ReadLead(t);
      } else {
        SkipLead(t, body);
        ReadPartsPrefix(fs, tail, captures, t[2..]);
      }
    } else {
      var body := (if stray then CRLF else []) + (Parts(fs) + tail);
      Assoc(PREAMBLE + (if stray then CRLF else []), Parts(fs), tail);
      Assoc(PREAMBLE, if stray then CRLF else [], Parts(fs) + tail);
      assert d <= PREAMBLE + body && d < PREAMBLE;
      PreambleCut(d);
    }
  }

  lemma AfterPreamble(stray: bool, fs: seq<Frame>, tail: seq<byte>, d: seq<byte>)
    requires d <= StreamBytes(stray, fs, tail) && PREAMBLE <= d
    ensures var body, t := Parts(fs) + tail, d[|PREAMBLE|..];
      && ReadStream(d) == ReadParts(BOUNDARY, SkipCrlf(t))
      && (if stray then t <= CRLF + body && (|t| < 2 ==> t < CRLF) else t <= body)
  {
    var body := Parts(fs) + tail;
    var lead: seq<byte> := if stray then CRLF else [];
    Assoc(PREAMBLE + lead, Parts(fs), tail);
    Assoc(PREAMBLE, lead, body);
    hide ReadStream, ReadParts, Parts, SkipCrlf;
    var t := d[|PREAMBLE|..];
    assert d == PREAMBLE + t && t <= lead + body;
    PreambleReads(t);
  }

  lemma SkipLead(t: seq<byte>, body: seq<byte>)
    requires t <= CRLF + body && |t| >= 2
    ensures SkipCrlf(t) == t[2..] && t[2..] <= body
  {
    assert t == CRLF + t[2..];
    AfterConcat(CRLF, t[2..]);
  }

  lemma SkipNothing(fs: seq<Frame>, tail: seq<byte>, captures: set<Frame>, t: seq<byte>)
    requires IsTail(tail, captures) && t <= Parts(fs) + tail
    ensures SkipCrlf(t) == t
  {
    PartsNoCrlf(fs, tail, captures);
    hide Parts, IsTail;
    assert CRLF <= t ==> CRLF <= Parts(fs) + tail;
  }
}
