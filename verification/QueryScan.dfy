/**
 * The in-place query scanners, each against one specification: split at '&',
 * find the parameter, read its leading digits.
 */
module QueryScan {
  import opened Bytes

  const U16_MAX: nat := 0xFFFF
  const LOAD_KB_MAX: nat := 256

  // ---- Specification ----

  predicate IsNumeral(c: char) {
    '0' <= c <= '9'
  }

  /** The first '&' at or after `i`, or the end. */
  function SegmentEnd(q: string, i: nat): (n: nat)
    requires i <= |q|
    ensures i <= n <= |q| && '&' !in q[i..n] && (n < |q| ==> q[n] == '&')
    decreases |q| - i
  {
    if i == |q| || q[i] == '&' then i else SegmentEnd(q, i + 1)
  }

  /** `q` from `i` on, split at every '&'. */
  function SegmentsAt(q: string, i: nat): seq<string>
    requires i <= |q|
    decreases |q| - i
  {
    var n := SegmentEnd(q, i);
    [q[i..n]] + (if n < |q| then SegmentsAt(q, n + 1) else [])
  }

  function Segments(q: string): seq<string> {
    SegmentsAt(q, 0)
  }

  function Numerals(s: string): (n: nat)
    ensures n <= |s| && (forall c <- s[..n] :: IsNumeral(c)) && (n < |s| ==> !IsNumeral(s[n]))
  {
    if s != "" && IsNumeral(s[0]) then 1 + Numerals(s[1..]) else 0
  }

  function Number(d: string): nat
    requires forall c <- d :: IsNumeral(c)
  {
    if d == "" then 0 else
      assert IsNumeral(d[|d| - 1]);
      10 * Number(d[..|d| - 1]) + (d[|d| - 1] - '0') as nat
  }

  /** The number a parameter's value starts with, if it starts with one. */
  function Leading(s: string): Option<nat> {
    var n := Numerals(s);
    if n == 0 then None else Some(Number(s[..n]))
  }

  /** The values given to `key`, in order; None where a value starts with no digit. */
  function ValuesOf(segments: seq<string>, key: string): seq<Option<nat>> {
    if segments == [] then [] else
      (if key + "=" <= segments[0] then [Leading(segments[0][|key| + 1..])] else [])
      + ValuesOf(segments[1..], key)
  }

  function First(values: seq<Option<nat>>): Option<nat> {
    if values == [] then None else values[0]
  }

  function Last(values: seq<Option<nat>>): Option<nat> {
    if values == [] then None else values[|values| - 1]
  }

  function Query(q: string, key: string): seq<Option<nat>> {
    ValuesOf(Segments(q), key)
  }

  /** First occurrence, refused above 16 bits. */
  function FirstU16(q: string, key: string): Option<nat> {
    match First(Query(q, key))
    case Some(v) => if v <= U16_MAX then Some(v) else None
    case None => None
  }

  /** What /load?kb=N means: the first value, clamped; 0 when absent or unusable. */
  function KbOf(q: string): (kb: nat)
    ensures kb <= LOAD_KB_MAX
  {
    match First(Query(q, "kb"))
    case Some(v) => if v <= LOAD_KB_MAX then v else LOAD_KB_MAX
    case None => 0
  }

  // ---- What the specification means ----

  /** A number as a client writes it. */
  function Decimal(n: nat): (d: string)
    ensures d != "" && forall c <- d :: IsNumeral(c)
  {
    if n < 10 then [(n + 48) as char] else Decimal(n / 10) + [(n % 10 + 48) as char]
  }

  /** It is read back as the number it was. */
  lemma {:induction false} NumberOfDecimal(n: nat)
    ensures Number(Decimal(n)) == n
  {
    var d := Decimal(n);
    if n >= 10 {
      NumberOfDecimal(n / 10);
      assert d[..|d| - 1] == Decimal(n / 10);
    } else {
      assert d[..0] == "";
    }
  }

  /** And it is the text the servers print. */
  lemma {:induction false} DecimalIsDec(n: nat)
    ensures Ascii(Decimal(n)) == Dec(n)
  {
    if n >= 10 {
      DecimalIsDec(n / 10);
    }
  }

  function Joined(segments: seq<string>): string {
    if |segments| == 0 then "" else if |segments| == 1 then segments[0] else segments[0] + "&" + Joined(segments[1..])
  }

  lemma CutAt(q: string, i: nat, n: nat)
    requires i <= n < |q| && q[n] == '&'
    ensures q[i..n] + "&" + q[n + 1..] == q[i..]
  {
  }

  lemma JoinedCons(s: string, rest: seq<string>)
    requires rest != []
    ensures Joined([s] + rest) == s + "&" + Joined(rest)
  {
    assert ([s] + rest)[1..] == rest;
  }

  /** Splitting loses nothing. */
  lemma {:induction false} SegmentsJoin(q: string, i: nat)
    requires i <= |q|
    ensures Joined(SegmentsAt(q, i)) == q[i..]
    decreases |q| - i
  {
    hide Joined, SegmentsAt, SegmentEnd;
    SegmentsAtIs(q, i);
    var n := SegmentEnd(q, i);
    if n < |q| {
      SegmentsJoin(q, n + 1);
      JoinedCons(q[i..n], SegmentsAt(q, n + 1));
      CutAt(q, i, n);
    } else {
      JoinedOne(q[i..n]);
      assert q[i..n] == q[i..];
    }
  }

  lemma SegmentsAtIs(q: string, i: nat)
    requires i <= |q|
    ensures var n := SegmentEnd(q, i);
      && SegmentsAt(q, i) == (if n < |q| then [q[i..n]] + SegmentsAt(q, n + 1) else [q[i..n]])
      && SegmentsAt(q, i) != [] && (n < |q| ==> SegmentsAt(q, n + 1) != [])
  {
  }

  lemma JoinedOne(s: string)
    ensures Joined([s]) == s
  {
  }

  /** And it leaves no '&' inside. */
  lemma {:induction false} SegmentsPlain(q: string, i: nat)
    requires i <= |q|
    ensures forall s <- SegmentsAt(q, i) :: '&' !in s
    decreases |q| - i
  {
    var n := SegmentEnd(q, i);
    if n < |q| {
      SegmentsPlain(q, n + 1);
    }
  }

  // ---- Scanning from an index instead of splitting ----

  predicate Boundary(q: string, i: nat)
    requires i <= |q|
  {
    i == 0 || q[i - 1] == '&'
  }

  /** What follows a segment that ends at `n`. */
  function SegmentsRest(q: string, n: nat): seq<string>
    requires n <= |q|
  {
    if n < |q| then SegmentsAt(q, n + 1) else []
  }

  /** The segments that start at `i` or later. */
  function SegmentsFrom(q: string, i: nat): seq<string>
    requires i <= |q|
  {
    if Boundary(q, i) then SegmentsAt(q, i) else SegmentsRest(q, SegmentEnd(q, i))
  }

  /** `memcmp(q + i, key, klen) == 0 && q[i + klen] == '='` at a boundary. */
  predicate KeyAt(q: string, i: nat, key: string)
    requires i <= |q|
  {
    Boundary(q, i) && key + "=" <= q[i..]
  }

  /** From the next index on there is what follows this segment. */
  lemma FromNext(q: string, i: nat)
    requires i < |q|
    ensures SegmentsFrom(q, i + 1) == SegmentsRest(q, SegmentEnd(q, i))
  {
    SegmentEndStep(q, i);
    hide SegmentsAt, SegmentEnd;
  }

  lemma SegmentsStep(q: string, i: nat)
    requires i < |q|
    ensures Boundary(q, i) ==> SegmentsFrom(q, i) == [q[i..SegmentEnd(q, i)]] + SegmentsFrom(q, i + 1)
    ensures !Boundary(q, i) ==> SegmentsFrom(q, i) == SegmentsFrom(q, i + 1)
  {
    FromNext(q, i);
    AtIsRest(q, i);
    FromHere(q, i);
    hide SegmentsAt, SegmentEnd, SegmentsRest, SegmentsFrom;
  }

  lemma AtIsRest(q: string, i: nat)
    requires i <= |q|
    ensures SegmentsAt(q, i) == [q[i..SegmentEnd(q, i)]] + SegmentsRest(q, SegmentEnd(q, i))
  {
  }

  lemma FromHere(q: string, i: nat)
    requires i < |q|
    ensures SegmentsFrom(q, i) == if Boundary(q, i) then SegmentsAt(q, i) else SegmentsRest(q, SegmentEnd(q, i))
  {
    hide SegmentsAt, SegmentEnd, SegmentsRest;
  }

  lemma SegmentEndStep(q: string, i: nat)
    requires i < |q|
    ensures SegmentEnd(q, i) == if q[i] == '&' then i else SegmentEnd(q, i + 1)
  {
  }

  lemma PrefixStaysInSegment(p: string, q: string, i: nat)
    requires '&' !in p && i <= |q|
    ensures p <= q[i..] <==> p <= q[i..SegmentEnd(q, i)]
  {
    assert forall k | 0 <= k < |p| :: p[k] in p;
    assert q[i..SegmentEnd(q, i)] <= q[i..];
  }

  lemma {:induction false} NumeralsStayInSegment(q: string, i: nat)
    requires i <= |q|
    ensures Numerals(q[i..SegmentEnd(q, i)]) == Numerals(q[i..])
    decreases |q| - i
  {
    if i < |q| && q[i] != '&' && IsNumeral(q[i]) {
      assert q[i..SegmentEnd(q, i)][1..] == q[i + 1..SegmentEnd(q, i + 1)];
      NumeralsStayInSegment(q, i + 1);
    }
  }

  lemma LeadingStaysInSegment(q: string, i: nat)
    requires i <= |q|
    ensures Leading(q[i..SegmentEnd(q, i)]) == Leading(q[i..])
  {
    NumeralsStayInSegment(q, i);
    var n := Numerals(q[i..]);
    assert q[i..SegmentEnd(q, i)][..n] == q[i..][..n];
  }

  lemma {:induction false} SegmentEndAfter(q: string, i: nat, k: nat)
    requires i + k <= |q| && '&' !in q[i..i + k]
    ensures SegmentEnd(q, i) == SegmentEnd(q, i + k)
    decreases k
  {
    if k > 0 {
      assert q[i] in q[i..i + k];
      assert q[i + 1..i + k] == q[i..i + k][1..];
      SegmentEndAfter(q, i + 1, k - 1);
    }
  }

  /** Looking for `key=` and its digits in the query or in the segment alone is the same. */
  lemma SegmentMatches(q: string, i: nat, key: string)
    requires i <= |q| && '&' !in key
    ensures var s := q[i..SegmentEnd(q, i)];
            (key + "=" <= q[i..] <==> key + "=" <= s) &&
            (key + "=" <= s ==> Leading(s[|key| + 1..]) == Leading(q[i + |key| + 1..]))
  {
    hide Leading, SegmentEnd;
    var p := key + "=";
    PrefixStaysInSegment(p, q, i);
    if p <= q[i..] {
      assert q[i..i + |p|] == p;
      SegmentEndAfter(q, i, |p|);
      assert q[i..SegmentEnd(q, i)][|p|..] == q[i + |p|..SegmentEnd(q, i + |p|)];
      LeadingStaysInSegment(q, i + |p|);
    }
  }

  /** What one index adds to the values of `key`. */
  lemma ValuesStep(q: string, i: nat, key: string)
    requires i < |q| && '&' !in key
    ensures |key| + i + 1 > |q| ==> !KeyAt(q, i, key)
    ensures KeyAt(q, i, key) ==>
      ValuesOf(SegmentsFrom(q, i), key) == [Leading(q[i + |key| + 1..])] + ValuesOf(SegmentsFrom(q, i + 1), key)
    ensures !KeyAt(q, i, key) ==> ValuesOf(SegmentsFrom(q, i), key) == ValuesOf(SegmentsFrom(q, i + 1), key)
  {
    hide SegmentsFrom, ValuesOf, Leading;
    SegmentsStep(q, i);
    if Boundary(q, i) {
      SegmentMatches(q, i, key);
      ValuesCons(q[i..SegmentEnd(q, i)], SegmentsFrom(q, i + 1), key);
    }
    hide SegmentEnd;
  }

  /** Past the last index where `key=` fits, nothing more is found. */
  lemma {:induction false} ValuesEnd(q: string, i: nat, key: string)
    requires i <= |q| < i + |key| + 1 && '&' !in key
    ensures ValuesOf(SegmentsFrom(q, i), key) == []
    decreases |q| - i
  {
    hide Leading;
    if i < |q| {
      hide ValuesOf, SegmentsFrom;
      ValuesStep(q, i, key);
      ValuesEnd(q, i + 1, key);
    } else if Boundary(q, i) {
      assert SegmentsAt(q, i) == [q[i..i]];
    }
  }

  lemma QueryFromStart(q: string, key: string)
    ensures Query(q, key) == ValuesOf(SegmentsFrom(q, 0), key)
  {
  }

  lemma {:induction false} NumberGrows(d: string, k: nat)
    requires (forall c <- d :: IsNumeral(c)) && k <= |d|
    ensures Number(d[..k]) <= Number(d)
  {
    if k < |d| {
      assert d[..|d| - 1][..k] == d[..k];
      NumberGrows(d[..|d| - 1], k);
    } else {
      assert d[..k] == d;
    }
  }

  // ---- The scanners ----

  /** The digit loop that stops as soon as the value exceeds `limit`; it never overflows 32 bits. */
  method ReadUpTo(q: string, from: nat, limit: nat) returns (digit: bool, value: nat, over: bool)
    requires from <= |q| && limit <= U16_MAX
    ensures match Leading(q[from..])
            case None => !digit && !over
            case Some(v) => digit && (over <==> v > limit) && (!over ==> value == v)
    ensures value < U32
  {
    var p := from;
    var t := q[from..];
    ghost var n := Numerals(t);
    value, digit, over := 0, false, false;
    while p < |q| && IsNumeral(q[p])
      invariant from <= p <= from + n
      invariant value == Number(t[..p - from]) && value <= limit
      invariant digit <==> p > from
    {
      assert t[..p + 1 - from][..p - from] == t[..p - from];
      assert q[p] == t[p - from];
      assert value * 10 + 9 < U32;
      value := value * 10 + (q[p] - '0') as nat;
      digit := true;
      p := p + 1;
      if value > limit {
        NumberGrows(t[..n], p - from);
        assert t[..n][..p - from] == t[..p - from];
        return digit, value, true;
      }
    }
    assert p == from + n;
  }

  /** The digit loop without a guard: the value wraps at 32 bits. */
  method ReadWrapping(q: string, from: nat) returns (digit: bool, value: nat)
    requires from <= |q|
    ensures match Leading(q[from..])
            case None => !digit && value == 0
            case Some(v) => digit && value == v % U32
  {
    var p := from;
    var t := q[from..];
    ghost var n := Numerals(t);
    value, digit := 0, false;
    while p < |q| && IsNumeral(q[p])
      invariant from <= p <= from + n
      invariant value == Number(t[..p - from]) % U32
      invariant digit <==> p > from
    {
      assert t[..p + 1 - from][..p - from] == t[..p - from];
      assert q[p] == t[p - from];
      WrapStep(Number(t[..p - from]), (q[p] - '0') as nat);
      value := (value * 10 + (q[p] - '0') as nat) % U32;
      digit := true;
      p := p + 1;
    }
    assert p == from + n;
  }

  lemma WrapStep(v: nat, d: nat)
    ensures (v % U32 * 10 + d) % U32 == (10 * v + d) % U32
  {
    var k := v / U32;
    assert v == U32 * k + v % U32;
    assert 10 * v + d == U32 * (10 * k) + (v % U32 * 10 + d);
    WrapAway(v % U32 * 10 + d, 10 * k);
  }

  lemma {:induction false} WrapAway(x: nat, k: nat)
    ensures (U32 * k + x) % U32 == x % U32
  {
    if k > 0 {
      WrapAway(x, k - 1);
      assert U32 * k + x == U32 + (U32 * (k - 1) + x);
    }
  }

  /** query_u32 and parse_query_u32: the first occurrence, at most 16 bits. */
  method QueryU32(q: string, key: string) returns (out: Option<nat>)
    requires '&' !in key
    ensures out == FirstU16(q, key)
  {
    hide ValuesOf, SegmentsFrom, Query, Leading;
    QueryFromStart(q, key);
    var i := 0;
    while i + |key| + 1 <= |q|
      invariant i <= |q|
      invariant Query(q, key) == ValuesOf(SegmentsFrom(q, i), key)
    {
      ValuesStep(q, i, key);
      if (i == 0 || q[i - 1] == '&') && key + "=" <= q[i..] {
        var digit, value, over := ReadUpTo(q, i + |key| + 1, U16_MAX);
        return if over || !digit then None else Some(value);
      }
      i := i + 1;
    }
    ValuesEnd(q, i, key);
    return None;
  }

  /** net_load_parse_kb. */
  method ParseKb(q: string) returns (kb: nat)
    ensures kb == KbOf(q)
  {
    hide ValuesOf, SegmentsFrom, Query, Leading;
    QueryFromStart(q, "kb");
    var i := 0;
    while i + 3 <= |q|
      invariant i <= |q|
      invariant Query(q, "kb") == ValuesOf(SegmentsFrom(q, i), "kb")
    {
      ValuesStep(q, i, "kb");
      assert "kb" + "=" == ['k', 'b', '='];
      if (i == 0 || q[i - 1] == '&') && q[i] == 'k' && q[i + 1] == 'b' && q[i + 2] == '=' {
        var digit, value, over := ReadUpTo(q, i + 3, LOAD_KB_MAX);
        return if over then LOAD_KB_MAX else if digit then value else 0;
      }
      i := i + 1;
    }
    ValuesEnd(q, i, "kb");
    return 0;
  }

  // ---- Two implementations of /api/clk ----

  /** A value as the unguarded scan holds it. */
  function Wrapped(v: Option<nat>): Option<nat> {
    match v case None => None case Some(n) => Some(n % U32)
  }

  function Accept(div: Option<nat>, pll: Option<nat>): Option<(nat, nat)> {
    if div.Some? && pll.Some? && div.value <= 0xFF && pll.value <= 0xFF
    then Some((div.value, pll.value)) else None
  }

  /** The inline scan in the exhibition servers: the last occurrence wins, unguarded. */
  method ClockInline(q: string) returns (setting: Option<(nat, nat)>)
    ensures setting == Accept(Wrapped(Last(Query(q, "div"))), Wrapped(Last(Query(q, "pll"))))
  {
    hide ValuesOf, SegmentsFrom, Query, Leading;
    QueryFromStart(q, "div");
    QueryFromStart(q, "pll");
    var div, pll, gotDiv, gotPll := 0, 0, false, false;
    ghost var divs, plls: seq<Option<nat>> := [], [];
    var i := 0;
    while i + 4 <= |q|
      invariant i <= |q|
      invariant Query(q, "div") == divs + ValuesOf(SegmentsFrom(q, i), "div")
      invariant Query(q, "pll") == plls + ValuesOf(SegmentsFrom(q, i), "pll")
      invariant Wrapped(Last(divs)) == if gotDiv then Some(div) else None
      invariant Wrapped(Last(plls)) == if gotPll then Some(pll) else None
    {
      ValuesStep(q, i, "div");
      ValuesStep(q, i, "pll");
      assert "div" + "=" == "div=" && "pll" + "=" == "pll=" && "div="[0] != "pll="[0];
      if (i == 0 || q[i - 1] == '&') && "div=" <= q[i..] {
        gotDiv, div := ReadWrapping(q, i + 4);
        divs := divs + [Leading(q[i + 4..])];
      } else if (i == 0 || q[i - 1] == '&') && "pll=" <= q[i..] {
        gotPll, pll := ReadWrapping(q, i + 4);
        plls := plls + [Leading(q[i + 4..])];
      }
      i := i + 1;
    }
    ValuesEnd(q, i, "div");
    ValuesEnd(q, i, "pll");
    return if gotDiv && gotPll && div <= 0xFF && pll <= 0xFF then Some((div, pll)) else None;
  }

  /** The route of the streaming examples: the first occurrence wins, refused above 16 bits. */
  method ClockGuarded(q: string) returns (setting: Option<(nat, nat)>)
    ensures setting == Accept(FirstU16(q, "div"), FirstU16(q, "pll"))
  {
    var div := QueryU32(q, "div");
    var pll := QueryU32(q, "pll");
    return if div.Some? && pll.Some? && div.value <= 0xFF && pll.value <= 0xFF
      then Some((div.value, pll.value)) else None;
  }

  /** On queries without repeated keys the two routes decide alike, with the same values, except
      exactly when a value of 2^32 or more wraps into range. */
  lemma ClockRoutesAgree(q: string)
    requires |Query(q, "div")| <= 1 && |Query(q, "pll")| <= 1
    ensures var d, p := First(Query(q, "div")), First(Query(q, "pll"));
            Accept(Wrapped(Last(Query(q, "div"))), Wrapped(Last(Query(q, "pll"))))
              == Accept(FirstU16(q, "div"), FirstU16(q, "pll"))
            <==> !(d.Some? && p.Some? && d.value % U32 <= 0xFF && p.value % U32 <= 0xFF
                   && (d.value >= U32 || p.value >= U32))
  {
  }

  ghost predicate Numeric(s: string) {
    s != "" && forall c <- s :: IsNumeral(c)
  }

  /** A repeated key separates the routes exactly when its values differ: the inline scan takes
      the last, the other the first. */
  lemma ClockRoutesDiffer(a: string, b: string, c: string)
    requires Numeric(a) && Numeric(b) && Numeric(c)
    requires Number(a) <= 0xFF && Number(b) <= 0xFF && Number(c) <= 0xFF
    ensures var q := "div=" + a + "&" + ("pll=" + b + "&" + ("div=" + c));
            Accept(Wrapped(Last(Query(q, "div"))), Wrapped(Last(Query(q, "pll")))) == Some((Number(c), Number(b)))
            && Accept(FirstU16(q, "div"), FirstU16(q, "pll")) == Some((Number(a), Number(b)))
            && (Number(a) != Number(c) <==>
                Accept(Wrapped(Last(Query(q, "div"))), Wrapped(Last(Query(q, "pll"))))
                != Accept(FirstU16(q, "div"), FirstU16(q, "pll")))
  {
    hide Query, Number;
    ClockValues(a, b, c);
  }

  lemma ClockValues(a: string, b: string, c: string)
    requires Numeric(a) && Numeric(b) && Numeric(c)
    ensures var q := "div=" + a + "&" + ("pll=" + b + "&" + ("div=" + c));
            Query(q, "div") == [Some(Number(a)), Some(Number(c))] && Query(q, "pll") == [Some(Number(b))]
  {
    assert "div=" == "div" + "=" && "pll=" == "pll" + "=";
    assert "div"[0] != "pll"[0];
    ThreeParameters("div", "pll", a, b, c);
  }

  lemma ThreeSegments(a: string, b: string, c: string)
    requires '&' !in a && '&' !in b && '&' !in c
    ensures Segments(a + "&" + (b + "&" + c)) == [a] + ([b] + ([c] + []))
  {
    hide Segments;
    SegmentOf(a, b + "&" + c);
    SegmentOf(b, c);
    SegmentLast(c);
  }

  lemma NumericNoAmp(key: string, s: string)
    requires Numeric(s) && '&' !in key
    ensures '&' !in key + "=" + s
  {
  }

  lemma ThreeParameters(key: string, other: string, a: string, b: string, c: string)
    requires Numeric(a) && Numeric(b) && Numeric(c)
    requires |key| == |other| && key != other && '&' !in key && '&' !in other
    ensures var q := key + "=" + a + "&" + (other + "=" + b + "&" + (key + "=" + c));
            Query(q, key) == [Some(Number(a)), Some(Number(c))] && Query(q, other) == [Some(Number(b))]
  {
    hide Segments, ValuesOf, Leading, Number, Numeric;
    var A, B, C := key + "=" + a, other + "=" + b, key + "=" + c;
    NumericNoAmp(key, a);
    NumericNoAmp(other, b);
    NumericNoAmp(key, c);
    ThreeSegments(A, B, C);
    OneParameter(a, [B] + ([C] + []), key, other);
    OneParameter(b, [C] + [], other, key);
    OneParameter(c, [], key, other);
  }

  /** A parameter adds its value to its own key and nothing to another of the same length. */
  lemma OneParameter(digits: string, rest: seq<string>, key: string, other: string)
    requires Numeric(digits) && |key| == |other| && key != other
    ensures ValuesOf([key + "=" + digits] + rest, key) == [Some(Number(digits))] + ValuesOf(rest, key)
    ensures ValuesOf([key + "=" + digits] + rest, other) == ValuesOf(rest, other)
    ensures ValuesOf([], key) == [] && ValuesOf([], other) == []
  {
    var s := key + "=" + digits;
    ValuesCons(s, rest, key);
    ValuesCons(s, rest, other);
    LeadingAll(digits);
    assert s[|key| + 1..] == digits;
    assert s[..|key|] == key && (other + "=")[..|key|] == other;
  }

  lemma {:induction false} LeadingAll(s: string)
    requires Numeric(s)
    ensures Numerals(s) == |s| && Leading(s) == Some(Number(s))
  {
    if |s| > 1 {
      LeadingAll(s[1..]);
    } else {
      assert Numerals(s[1..]) == 0;
    }
    assert s[..|s|] == s;
  }

  lemma ValuesCons(s: string, rest: seq<string>, key: string)
    ensures key + "=" <= s ==> ValuesOf([s] + rest, key) == [Leading(s[|key| + 1..])] + ValuesOf(rest, key)
    ensures !(key + "=" <= s) ==> ValuesOf([s] + rest, key) == ValuesOf(rest, key)
    ensures ValuesOf([], key) == []
  {
    assert ([s] + rest)[1..] == rest;
  }

  lemma {:induction false} SegmentEndShift(p: string, t: string, i: nat)
    requires i <= |t|
    ensures SegmentEnd(p + t, |p| + i) == |p| + SegmentEnd(t, i)
    decreases |t| - i
  {
    if i < |t| && t[i] != '&' {
      SegmentEndShift(p, t, i + 1);
    }
  }

  lemma SegmentsUnfold(q: string, i: nat)
    requires i <= |q|
    ensures var n := SegmentEnd(q, i);
            SegmentsAt(q, i) == [q[i..n]] + (if n < |q| then SegmentsAt(q, n + 1) else [])
  {
  }

  lemma {:induction false} SegmentsShift(p: string, t: string, i: nat)
    requires i <= |t|
    ensures SegmentsAt(p + t, |p| + i) == SegmentsAt(t, i)
    decreases |t| - i
  {
    hide SegmentsAt, SegmentEnd;
    SegmentEndShift(p, t, i);
    SegmentsUnfold(p + t, |p| + i);
    SegmentsUnfold(t, i);
    var n := SegmentEnd(t, i);
    assert (p + t)[|p| + i..|p| + n] == t[i..n];
    if n < |t| {
      SegmentsShift(p, t, n + 1);
      assert |p| + n + 1 == |p| + (n + 1);
    }
  }

  lemma SegmentOf(s: string, t: string)
    requires '&' !in s
    ensures Segments(s + "&" + t) == [s] + Segments(t)
  {
    var all := s + "&" + t;
    assert all[0..|s|] == s;
    SegmentEndAfter(all, 0, |s|);
    SegmentsShift(s + "&", t, 0);
  }

  lemma SegmentLast(s: string)
    requires '&' !in s
    ensures Segments(s) == [s]
  {
    assert s[0..|s|] == s;
    SegmentEndAfter(s, 0, |s|);
  }

  // ------------------------------ Queries as clients write them ------------------------------

  /** Parameters joined with '&' are split into the same parameters. */
  lemma {:induction false} SplitJoined(ss: seq<string>)
    requires ss != [] && forall s <- ss :: '&' !in s
    ensures Segments(Joined(ss)) == ss
  {
    hide Segments;
    if |ss| == 1 {
      SegmentLast(ss[0]);
      assert ss == [ss[0]];
    } else {
      SplitJoined(ss[1..]);
      SegmentOf(ss[0], Joined(ss[1..]));
      assert ss == [ss[0]] + ss[1..];
    }
  }

  lemma {:induction false} FirstValue(ss: seq<string>, i: nat, key: string, n: nat)
    requires i < |ss| && ss[i] == key + "=" + Decimal(n)
    requires forall j | 0 <= j < i :: !(key + "=" <= ss[j])
    ensures First(ValuesOf(ss, key)) == Some(n)
  {
    assert ss == [ss[0]] + ss[1..];
    ValuesCons(ss[0], ss[1..], key);
    if i == 0 {
      LeadingAll(Decimal(n));
      NumberOfDecimal(n);
      assert ss[0][|key| + 1..] == Decimal(n);
    } else {
      FirstValue(ss[1..], i - 1, key, n);
    }
  }

  /**
   * A number a client writes for a key, anywhere among other parameters, the key's first: it is
   * the value of the key, refused above 65535 by the control and clock routes, and for /load
   * clamped to 256.
   */
  lemma QueryReads(ss: seq<string>, i: nat, key: string, n: nat)
    requires i < |ss| && ss[i] == key + "=" + Decimal(n) && forall s <- ss :: '&' !in s
    requires forall j | 0 <= j < i :: !(key + "=" <= ss[j])
    ensures First(Query(Joined(ss), key)) == Some(n)
    ensures FirstU16(Joined(ss), key) == if n <= 65535 then Some(n) else None
    ensures key == "kb" ==> KbOf(Joined(ss)) == if n <= 256 then n else 256
  {
    SplitJoined(ss);
    FirstValue(ss, i, key, n);
    hide Joined, Segments, ValuesOf;
  }

  /** Without the key there is no value: the control is left alone, and no load is served. */
  lemma QueryAbsent(ss: seq<string>, key: string)
    requires ss != [] && (forall s <- ss :: '&' !in s) && forall s <- ss :: !(key + "=" <= s)
    ensures FirstU16(Joined(ss), key) == None
    ensures key == "kb" ==> KbOf(Joined(ss)) == 0
  {
    SplitJoined(ss);
    NoValue(ss, key);
    hide Joined, Segments, ValuesOf;
  }

  lemma {:induction false} NoValue(ss: seq<string>, key: string)
    requires forall s <- ss :: !(key + "=" <= s)
    ensures ValuesOf(ss, key) == []
  {
    if ss != [] {
      assert ss == [ss[0]] + ss[1..] && ss[0] in ss;
      assert forall s <- ss[1..] :: s in ss;
      ValuesCons(ss[0], ss[1..], key);
      NoValue(ss[1..], key);
    }
  }

  lemma ClockKeys()
    ensures |"div"| == |"pll"| && "div" != "pll" && '&' !in "div" && '&' !in "pll"
  {
    assert "div"[0] != "pll"[0];
  }

  /** Both clock routes set the dividers a client writes, if they fit a register. */
  lemma ClockSets(div: nat, pll: nat)
    ensures var q := "div" + "=" + Decimal(div) + "&" + ("pll" + "=" + Decimal(pll));
      var wanted := if div <= 255 && pll <= 255 then Some((div, pll)) else None;
      && Accept(FirstU16(q, "div"), FirstU16(q, "pll")) == wanted
      && (div < U32 && pll < U32 ==>
          Accept(Wrapped(Last(Query(q, "div"))), Wrapped(Last(Query(q, "pll")))) == wanted)
  {
    NumberOfDecimal(div);
    NumberOfDecimal(pll);
    ClockKeys();
    hide Query, Decimal, Number;
    TwoParameters("div", "pll", Decimal(div), Decimal(pll));
  }

  lemma TwoParameters(key: string, other: string, a: string, b: string)
    requires Numeric(a) && Numeric(b)
    requires |key| == |other| && key != other && '&' !in key && '&' !in other
    ensures var q := key + "=" + a + "&" + (other + "=" + b);
      Query(q, key) == [Some(Number(a))] && Query(q, other) == [Some(Number(b))]
  {
    hide Segments, ValuesOf, Leading, Number, Numeric;
    var A, B := key + "=" + a, other + "=" + b;
    NumericNoAmp(key, a);
    NumericNoAmp(other, b);
    TwoSegments(A, B);
    OneParameter(a, [B] + [], key, other);
    OneParameter(b, [], other, key);
  }

  lemma TwoSegments(a: string, b: string)
    requires '&' !in a && '&' !in b
    ensures Segments(a + "&" + b) == [a] + ([b] + [])
  {
    hide Segments;
    SegmentOf(a, b);
    SegmentLast(b);
  }
}
