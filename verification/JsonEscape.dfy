/** JSON string escaping into a fixed buffer, and a reader for section 7 of RFC 8259. */
module JsonEscape {
  import opened Bytes

  const QUOTE: byte := 34
  const BACKSLASH: byte := 92
  const DISCORD_BODY_MAX: nat := 2600

  // ---- What is written ----

  function HexDigit(n: nat): byte
    requires n < 16
  {
    if n < 10 then (48 + n) as byte else (87 + n) as byte
  }

  function EscapeByte(b: byte): (e: seq<byte>)
    ensures e != []
  {
    if b == QUOTE then [BACKSLASH, QUOTE]
    else if b == BACKSLASH then [BACKSLASH, BACKSLASH]
    else if b == 10 then [BACKSLASH, 110]
    else if b == 13 then [BACKSLASH, 114]
    else if b == 9 then [BACKSLASH, 116]
    else if b < 0x20 then [BACKSLASH, 117, 48, 48, HexDigit(b as nat / 16), HexDigit(b as nat % 16)]
    else [b]
  }

  function Escape(s: seq<byte>): seq<byte> {
    if s == [] then [] else EscapeByte(s[0]) + Escape(s[1..])
  }

  // ---- What a reader makes of it ----

  function HexValue(b: byte): Option<nat> {
    if 48 <= b <= 57 then Some(b as nat - 48)
    else if 65 <= b <= 70 then Some(b as nat - 55)
    else if 97 <= b <= 102 then Some(b as nat - 87)
    else None
  }

  function HexNumber(h: seq<byte>): (n: Option<nat>)
    ensures n.Some? && |h| <= 4 ==> n.value < (if |h| == 0 then 1 else if |h| == 1 then 16 else if |h| == 2 then 256 else if |h| == 3 then 4096 else 65536)
  {
    if h == [] then Some(0) else
      var high, low := HexNumber(h[..|h| - 1]), HexValue(h[|h| - 1]);
      if high.Some? && low.Some? then Some(16 * high.value + low.value) else None
  }

  /** A code point below 2^16 in UTF-8; a lone surrogate has no encoding. */
  function Utf8(code: nat): Option<seq<byte>>
    requires code < 0x1_0000
  {
    if code < 0x80 then Some([code as byte])
    else if code < 0x800 then Some([(0xC0 + code / 0x40) as byte, (0x80 + code % 0x40) as byte])
    else if 0xD800 <= code < 0xE000 then None
    else Some([(0xE0 + code / 0x1000) as byte, (0x80 + code / 0x40 % 0x40) as byte, (0x80 + code % 0x40) as byte])
  }

  /** The character after a backslash, and what follows it. */
  function ReadEscape(t: seq<byte>): (r: Option<(seq<byte>, seq<byte>)>)
    ensures r.Some? ==> |r.value.1| < |t|
  {
    if t == [] then None
    else if t[0] == QUOTE || t[0] == BACKSLASH || t[0] == 47 then Some(([t[0]], t[1..]))
    else if t[0] == 98 then Some(([8], t[1..]))
    else if t[0] == 102 then Some(([12], t[1..]))
    else if t[0] == 110 then Some(([10], t[1..]))
    else if t[0] == 114 then Some(([13], t[1..]))
    else if t[0] == 116 then Some(([9], t[1..]))
    else if t[0] == 117 && |t| >= 5 then
      var code := HexNumber(t[1..5]);
      if code.None? then None else
        var c := Utf8(code.value);
        if c.None? then None else Some((c.value, t[5..]))
    else None
  }

  /** A string up to its closing quote: its bytes, and what follows the quote. */
  function ReadString(t: seq<byte>): Option<(seq<byte>, seq<byte>)>
    decreases |t|
  {
    if t == [] then None
    else if t[0] == QUOTE then Some(([], t[1..]))
    else if t[0] < 0x20 then None
    else
      var head := if t[0] == BACKSLASH then ReadEscape(t[1..]) else Some(([t[0]], t[1..]));
      if head.None? then None else
        var tail := ReadString(head.value.1);
        if tail.None? then None else Some((head.value.0 + tail.value.0, tail.value.1))
  }

  /** An object of one member, both of them strings: its key, its value, and what follows. */
  function ReadObject(t: seq<byte>): Option<(seq<byte>, seq<byte>, seq<byte>)> {
    if |t| < 2 || t[0] != 123 || t[1] != QUOTE then None else
      match ReadString(t[2..])
      case None => None
      case Some((key, u)) =>
        if |u| < 2 || u[0] != 58 || u[1] != QUOTE then None else
          match ReadString(u[2..])
          case None => None
          case Some((value, v)) => if v == [] || v[0] != 125 then None else Some((key, value, v[1..]))
  }

  /** An escaped byte reads back as that byte alone, whatever follows. */
  lemma ReadEscapedByte(b: byte, rest: seq<byte>)
    ensures var t := EscapeByte(b) + rest;
            && t[0] != QUOTE && t[0] >= 0x20
            && (t[0] == BACKSLASH ==> ReadEscape(t[1..]) == Some(([b], rest)))
            && (t[0] != BACKSLASH ==> t[0] == b && t[1..] == rest)
  {
    var e := EscapeByte(b);
    var t := e + rest;
    if e[0] == BACKSLASH {
      var u := t[1..];
      if |e| == 2 {
        assert u[1..] == rest;
      } else {
        var h := [48, 48, HexDigit(b as nat / 16), HexDigit(b as nat % 16)];
        assert e == [BACKSLASH, 117] + h && u == [117] + (h + rest);
        assert u[1..5] == h && u[5..] == rest;
        HexOf(b as nat);
      }
    } else {
      assert t[1..] == rest;
    }
  }

  lemma HexOf(n: nat)
    requires n < 0x20
    ensures HexNumber([48, 48, HexDigit(n / 16), HexDigit(n % 16)]) == Some(n)
  {
    var a, b := HexDigit(n / 16), HexDigit(n % 16);
    assert [48, 48, a, b][..3] == [48, 48, a];
    assert [48, 48, a][..2] == [48, 48];
    assert [48 as byte, 48][..1] == [48];
    assert HexNumber([48]) == Some(0);
    assert HexNumber([48, 48]) == Some(0);
    assert HexNumber([48, 48, a]) == Some(n / 16);
  }

  /** Escaping loses nothing and cannot close the string early: whatever is behind the closing
      quote is read as what follows. */
  lemma {:induction false} EscapeReadsBack(s: seq<byte>, rest: seq<byte>)
    ensures ReadString(Escape(s) + ([QUOTE] + rest)) == Some((s, rest))
  {
    if s == [] {
      assert Escape(s) + ([QUOTE] + rest) == [QUOTE] + rest;
      assert ([QUOTE] + rest)[1..] == rest;
    } else {
      var more := Escape(s[1..]) + ([QUOTE] + rest);
      Assoc(EscapeByte(s[0]), Escape(s[1..]), [QUOTE] + rest);
      ReadEscapedByte(s[0], more);
      EscapeReadsBack(s[1..], rest);
      assert [s[0]] + s[1..] == s;
    }
  }

  lemma {:induction false} EscapeAppend(s: seq<byte>, t: seq<byte>)
    ensures Escape(s + t) == Escape(s) + Escape(t)
  {
    if s == [] {
      assert s + t == t;
    } else {
      assert (s + t)[1..] == s[1..] + t;
      EscapeAppend(s[1..], t);
      Assoc(EscapeByte(s[0]), Escape(s[1..]), Escape(t));
    }
  }

  // ---- The writer ----

  /** json_escape: all of the text and a NUL, or false; nothing is ever cut short. */
  method Write(text: seq<byte>, out: array<byte>) returns (ok: bool)
    requires 0 !in text && out.Length >= 1
    modifies out
    ensures ok <==> |Escape(text)| + 1 <= out.Length
    ensures ok ==> out[..|Escape(text)|] == Escape(text) && out[|Escape(text)|] == 0
  {
    var o := 0;
    for i := 0 to |text|
      invariant o == |Escape(text[..i])| < out.Length
      invariant out[..o] == Escape(text[..i])
    {
      assert text[..i] + [text[i]] == text[..i + 1];
      EscapeAppend(text[..i], [text[i]]);
      EscapeOne(text[i]);
      var esc := EscapeByte(text[i]);
      if o + |esc| >= out.Length {
        assert text == text[..i + 1] + text[i + 1..];
        EscapeAppend(text[..i + 1], text[i + 1..]);
        return false;
      }
      Copy(out, o, esc);
      o := o + |esc|;
    }
    assert text[..|text|] == text;
    out[o] := 0;
    return true;
  }

  lemma EscapeOne(b: byte)
    ensures Escape([b]) == EscapeByte(b)
  {
    assert [b][1..] == [];
  }

  /** memcpy(out + at, data, |data|). */
  method Copy(out: array<byte>, at: nat, data: seq<byte>)
    requires at + |data| <= out.Length
    modifies out
    ensures out[..at + |data|] == old(out[..at]) + data
  {
    forall j | 0 <= j < |data| {
      out[at + j] := data[j];
    }
  }

  const BODY_HEAD: seq<byte> := [123, QUOTE] + Ascii("content") + [QUOTE, 58, QUOTE]
  const BODY_TAIL: seq<byte> := [QUOTE, 125]

  /** The request body of discord_post_text, when the message fits. */
  method PostBody(content: seq<byte>) returns (body: Option<seq<byte>>)
    requires 0 !in content
    ensures body.Some? <==> |Escape(content)| < DISCORD_BODY_MAX
    ensures body.Some? ==> body.value == BODY_HEAD + Escape(content) + BODY_TAIL && |body.value| < DISCORD_BODY_MAX + 32
  {
    var escaped := new byte[DISCORD_BODY_MAX];
    var ok := Write(content, escaped);
    if !ok {
      return None;
    }
    EscapeHasNoNul(content);
    ghost var text := Escape(content);
    NoNulInside(text);
    assert forall k | 0 <= k < |text| :: escaped[k] == escaped[..|text|][k] != 0;
    var n := 0;
    while escaped[n] != 0
      invariant n <= |text|
      invariant escaped[..|text|] == text && escaped[|text|] == 0
      decreases |text| - n
    {
      n := n + 1;
    }
    return Some(BODY_HEAD + escaped[..n] + BODY_TAIL);
  }

  lemma NoNulInside(s: seq<byte>)
    requires 0 !in s
    ensures forall k | 0 <= k < |s| :: s[k] != 0
  {
  }

  lemma {:induction false} PlainIsEscaped(s: seq<byte>)
    requires forall i | 0 <= i < |s| :: 0x20 <= s[i] && s[i] != QUOTE && s[i] != BACKSLASH
    ensures Escape(s) == s
  {
    if s != [] {
      PlainIsEscaped(s[1..]);
      assert EscapeByte(s[0]) == [s[0]];
      assert s == [s[0]] + s[1..];
    }
  }

  lemma KeyText()
    ensures Escape(Ascii("content")) == Ascii("content")
  {
    AsciiIs("content");
    var s := Ascii("content");
    forall i | 0 <= i < |s|
      ensures 0x20 <= s[i] && s[i] != QUOTE && s[i] != BACKSLASH
    {
      assert "content"[i] in "content";
    }
    PlainIsEscaped(s);
  }

  /** The posted body is a JSON object of one member, named content, whose value reads as exactly
      the message; nothing follows it. */
  lemma PostedContent(content: seq<byte>)
    ensures ReadObject(BODY_HEAD + Escape(content) + BODY_TAIL) == Some((Ascii("content"), content, []))
  {
    KeyText();
    ReadMember(Ascii("content"), content);
    hide Ascii, Escape, ReadObject;
    BodyIs(Ascii("content"), Escape(content));
  }

  function Member(key: seq<byte>, value: seq<byte>): seq<byte> {
    [123, QUOTE] + (key + ([QUOTE] + ([58, QUOTE] + (value + ([QUOTE] + [125])))))
  }

  lemma BodyIs(key: seq<byte>, value: seq<byte>)
    ensures [123, QUOTE] + key + [QUOTE, 58, QUOTE] + value + [QUOTE, 125] == Member(key, value)
  {
  }

  lemma ReadMember(key: seq<byte>, value: seq<byte>)
    ensures ReadObject(Member(Escape(key), Escape(value))) == Some((key, value, []))
  {
    var v := Escape(value) + ([QUOTE] + [125]);
    var u := [58, QUOTE] + v;
    var t := Escape(key) + ([QUOTE] + u);
    EscapeReadsBack(key, u);
    EscapeReadsBack(value, [125]);
    hide Escape, ReadString;
    assert u[0] == 58 && u[1] == QUOTE && u[2..] == v;
    assert Member(Escape(key), Escape(value)) == [123, QUOTE] + t && ([123, QUOTE] + t)[2..] == t;
    assert [125 as byte][1..] == [];
  }

  /** Escaped text holds no NUL, so a C string of it ends where it ends. */
  lemma {:induction false} EscapeHasNoNul(s: seq<byte>)
    ensures 0 !in Escape(s)
  {
    if s != [] {
      EscapeHasNoNul(s[1..]);
    }
  }
}
