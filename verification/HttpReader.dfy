/**
 * The receiving side of HTTP/1.1, written from sections 2 to 5 of RFC 9112 alone: lines up to a
 * blank one, fields by name, and a body as long as Content-Length says.
 */
module HttpReader {
  import opened Bytes

  // ------------------------------ Lines ------------------------------

  /** Up to the first CRLF, and what follows it. */
  function ReadLine(s: seq<byte>): (r: Option<(seq<byte>, seq<byte>)>)
    ensures r.Some? ==> |r.value.1| < |s|
  {
    if |s| < 2 then None
    else if s[0] == 13 && s[1] == 10 then Some(([], s[2..]))
    else
      var more := ReadLine(s[1..]);
      if more.None? then None else Some(([s[0]] + more.value.0, more.value.1))
  }

  /** The lines before the first blank one, and what follows that. */
  function ReadLines(s: seq<byte>): Option<(seq<seq<byte>>, seq<byte>)>
    decreases |s|
  {
    match ReadLine(s)
    case None => None
    case Some((line, rest)) =>
      if line == [] then Some(([], rest)) else
        var more := ReadLines(rest);
        if more.None? then None else Some(([line] + more.value.0, more.value.1))
  }

  lemma {:induction false} ReadLinesShorter(s: seq<byte>)
    requires ReadLines(s).Some?
    ensures |ReadLines(s).value.1| < |s|
    decreases |s|
  {
    var line, rest := ReadLine(s).value.0, ReadLine(s).value.1;
    if line != [] {
      ReadLinesShorter(rest);
    }
  }

  /** Lines as they are sent. */
  function Text(lines: seq<seq<byte>>): seq<byte> {
    if lines == [] then [] else lines[0] + CRLF + Text(lines[1..])
  }

  /** Something to be read back as one line. */
  predicate IsLine(line: seq<byte>) {
    line != [] && 13 !in line
  }

  ghost predicate AreLines(lines: seq<seq<byte>>) {
    forall line <- lines :: IsLine(line)
  }

  lemma {:induction false} ReadLineIs(line: seq<byte>, rest: seq<byte>)
    requires 13 !in line
    ensures ReadLine(line + CRLF + rest) == Some((line, rest))
  {
    if line == [] {
      assert line + CRLF + rest == CRLF + rest;
      assert (CRLF + rest)[2..] == rest;
    } else {
      assert line[0] in line;
      assert (line + CRLF + rest)[1..] == line[1..] + CRLF + rest;
      ReadLineIs(line[1..], rest);
      assert [line[0]] + line[1..] == line;
    }
  }

  lemma {:induction false} ReadLineCut(line: seq<byte>, d: seq<byte>)
    requires 13 !in line && d < line + CRLF
    ensures ReadLine(d) == None
  {
    if |d| >= 2 {
      assert line != [] && line[0] in line && d[0] == line[0];
      assert d[1..] < line[1..] + CRLF;
      ReadLineCut(line[1..], d[1..]);
    }
  }

  lemma TextCons(line: seq<byte>, lines: seq<seq<byte>>)
    ensures Text([line] + lines) == line + CRLF + Text(lines)
  {
    assert ([line] + lines)[1..] == lines;
  }

  lemma {:induction false} ReadLinesIs(lines: seq<seq<byte>>, rest: seq<byte>)
    requires AreLines(lines)
    ensures ReadLines(Text(lines) + CRLF + rest) == Some((lines, rest))
  {
    if lines == [] {
      assert Text(lines) + CRLF + rest == [] + CRLF + rest;
      ReadLineIs([], rest);
    } else {
      var line, more := lines[0], Text(lines[1..]) + CRLF + rest;
      assert IsLine(line) && AreLines(lines[1..]);
      Assoc(line + CRLF, Text(lines[1..]), CRLF + rest);
      Assoc(Text(lines), CRLF, rest);
      Assoc(Text(lines[1..]), CRLF, rest);
      assert Text(lines) + CRLF + rest == line + CRLF + more;
      ReadLineIs(line, more);
      ReadLinesIs(lines[1..], rest);
      assert [line] + lines[1..] == lines;
    }
  }

  /** Lines cut anywhere before the end of the blank one are no lines at all. */
  lemma {:induction false} ReadLinesCut(lines: seq<seq<byte>>, d: seq<byte>)
    requires AreLines(lines) && d < Text(lines) + CRLF
    ensures ReadLines(d) == None
  {
    if lines == [] {
      assert d < [] + CRLF;
      ReadLineCut([], d);
    } else {
      var line, more := lines[0], Text(lines[1..]) + CRLF;
      assert IsLine(line) && AreLines(lines[1..]);
      Assoc(line + CRLF, Text(lines[1..]), CRLF);
      if |d| < |line| + 2 {
        assert d < line + CRLF;
        ReadLineCut(line, d);
      } else {
        var e := d[|line| + 2..];
        assert d == line + CRLF + e && e < more;
        ReadLineIs(line, e);
        ReadLinesCut(lines[1..], e);
      }
    }
  }

  // ------------------------------ Fields ------------------------------

  /** The value of the first field of this name. */
  function Field(lines: seq<seq<byte>>, name: seq<byte>): Option<seq<byte>> {
    if lines == [] then None
    else if name + Ascii(": ") <= lines[0] then Some(lines[0][|name| + 2..])
    else Field(lines[1..], name)
  }

  /** A value that is a number and nothing else. */
  function ReadNumber(v: seq<byte>): Option<nat> {
    if v != [] && DigitRun(v) == |v| then
      assert v[..|v|] == v;
      Some(Value(v))
    else None
  }

  function ContentLength(lines: seq<seq<byte>>): Option<nat> {
    match Field(lines, Ascii("Content-Length"))
    case None => None
    case Some(v) => ReadNumber(v)
  }

  lemma ReadNumberIs(n: nat)
    ensures ReadNumber(Dec(n)) == Some(n)
  {
    DigitRunIs(Dec(n), []);
    assert Dec(n) + [] == Dec(n);
    DecValue(n);
  }

  lemma FieldFirst(name: seq<byte>, value: seq<byte>, lines: seq<seq<byte>>)
    ensures Field([name + Ascii(": ") + value] + lines, name) == Some(value)
  {
    var line := name + Ascii(": ") + value;
    assert line[..|name| + 2] == name + Ascii(": ") && line[|name| + 2..] == value;
  }

  lemma FieldNext(line: seq<byte>, name: seq<byte>, lines: seq<seq<byte>>)
    requires !(name + Ascii(": ") <= line)
    ensures Field([line] + lines, name) == Field(lines, name)
  {
    assert ([line] + lines)[1..] == lines;
  }

  // ------------------------------ Responses ------------------------------

  /** `more`: what follows the body. */
  datatype Response = Response(status: seq<byte>, ctype: seq<byte>, body: seq<byte>, more: seq<byte>)

  /** A response whose length is known, if all of it is there. */
  function ReadResponse(s: seq<byte>): Option<Response> {
    match ReadLines(s)
    case None => None
    case Some((lines, rest)) =>
      if lines == [] then None else
        var status := After(lines[0], Ascii("HTTP/1.1 "));
        var ctype := Field(lines[1..], Ascii("Content-Type"));
        var length := ContentLength(lines[1..]);
        if status.None? || ctype.None? || length.None? || |rest| < length.value then None
        else Some(Response(status.value, ctype.value, rest[..length.value], rest[length.value..]))
  }
}
