/**
 * What a byte queued without a copy may arrive as.
 *
 * lwIP keeps a pointer into the capture buffer for such a byte and reads it, for the first
 * time or again, at any moment until it has been acknowledged.
 */
module ZeroCopy {
  import opened Bytes

  /** `at`: where in the capture buffer the byte is read, unless it was copied; `may`: what it has been there so far. */
  datatype Cell = Cell(at: Option<nat>, may: set<byte>)

  function CopiedCells(data: seq<byte>): (v: seq<Cell>)
    ensures |v| == |data|
  {
    seq(|data|, i requires 0 <= i < |data| => Cell(None, {data[i]}))
  }

  /** The cells of data that stands in the buffer from `off` on. */
  function HeldCells(data: seq<byte>, off: nat): (v: seq<Cell>)
    ensures |v| == |data|
  {
    seq(|data|, i requires 0 <= i < |data| => Cell(Some(off + i), {data[i]}))
  }

  /** A cell the buffer's new content shows through. */
  function Exposed(c: Cell, image: seq<byte>): Cell {
    if c.at.Some? && c.at.value < |image| then c.(may := c.may + {image[c.at.value]}) else c
  }

  /** The buffer is captured into with the bytes from `acked` on not acknowledged. */
  function Recaptured(view: seq<Cell>, acked: nat, image: seq<byte>): (v: seq<Cell>)
    ensures |v| == |view|
  {
    seq(|view|, i requires 0 <= i < |view| => if i < acked then view[i] else Exposed(view[i], image))
  }

  /** The receiver may have, or come to have, exactly `d` so far. */
  ghost predicate MayArrive(view: seq<Cell>, d: seq<byte>) {
    |d| <= |view| && forall i | 0 <= i < |d| :: d[i] in view[i].may
  }

  /** No byte from `n` on is read from the buffer. */
  ghost predicate FreeFrom(view: seq<Cell>, n: nat) {
    forall i | n <= i < |view| :: view[i].at.None?
  }

  /** Every byte can only arrive as it was queued. */
  ghost predicate Settled(view: seq<Cell>, bytes: seq<byte>) {
    |view| == |bytes| && forall i | 0 <= i < |view| :: view[i].may == {bytes[i]}
  }

  /** `held` is where the last byte read from the buffer ends; what was queued is always among what may arrive. */
  ghost predicate ViewOk(bytes: seq<byte>, view: seq<Cell>, held: nat, intact: bool) {
    && |view| == |bytes| && held <= |bytes|
    && FreeFrom(view, held) && (held > 0 ==> view[held - 1].at.Some?)
    && (forall i | 0 <= i < |view| :: bytes[i] in view[i].may)
    && (intact ==> Settled(view, bytes))
  }

  lemma CopyOk(bytes: seq<byte>, view: seq<Cell>, held: nat, intact: bool, data: seq<byte>)
    requires ViewOk(bytes, view, held, intact)
    ensures ViewOk(bytes + data, view + CopiedCells(data), held, intact)
  {
  }

  lemma HoldOk(bytes: seq<byte>, view: seq<Cell>, held: nat, intact: bool, data: seq<byte>, off: nat)
    requires ViewOk(bytes, view, held, intact) && data != []
    ensures ViewOk(bytes + data, view + HeldCells(data, off), |bytes| + |data|, intact)
  {
  }

  /** Nothing is read from the buffer any more exactly when all that was has been acknowledged. */
  lemma FreeWhenAcked(bytes: seq<byte>, view: seq<Cell>, held: nat, intact: bool, acked: nat)
    requires ViewOk(bytes, view, held, intact)
    ensures FreeFrom(view, acked) <==> acked >= held
  {
  }

  lemma RecaptureOk(bytes: seq<byte>, view: seq<Cell>, held: nat, intact: bool, acked: nat, image: seq<byte>)
    requires ViewOk(bytes, view, held, intact)
    ensures ViewOk(bytes, Recaptured(view, acked, image), held, intact && acked >= held)
  {
  }

  /** Which captures really disturb what may arrive: those that change a byte still to be read. */
  lemma SettledExactly(bytes: seq<byte>, view: seq<Cell>, acked: nat, image: seq<byte>)
    requires Settled(view, bytes)
    ensures Settled(Recaptured(view, acked, image), bytes) <==>
      forall i | acked <= i < |view| && view[i].at.Some? && view[i].at.value < |image| ::
        image[view[i].at.value] == bytes[i]
  {
    var v := Recaptured(view, acked, image);
    forall i | acked <= i < |view| && view[i].at.Some? && view[i].at.value < |image|
      ensures v[i].may == {bytes[i]} <==> image[view[i].at.value] == bytes[i]
    {
      assert v[i].may == {bytes[i]} + {image[view[i].at.value]};
      assert image[view[i].at.value] in v[i].may;
    }
  }

  /** What may have arrived still may, whatever is captured and queued later: arriving only
      settles more of it. */
  lemma ArrivalStays(view: seq<Cell>, acked: nat, image: seq<byte>, more: seq<Cell>, d: seq<byte>)
    requires MayArrive(view, d)
    ensures MayArrive(Recaptured(view, acked, image) + more, d)
  {
  }

  /** What arrives of a settled connection is what was queued, as far as it has come. */
  lemma SettledArrives(bytes: seq<byte>, view: seq<Cell>, d: seq<byte>)
    requires Settled(view, bytes) && MayArrive(view, d)
    ensures d <= bytes
  {
  }

  /** A frame whose last `h` bytes are those of another. */
  function Spliced(f: seq<byte>, next: seq<byte>, h: nat): (g: seq<byte>)
    requires h <= |f| <= |next|
    ensures |g| == |f|
  {
    f[..|f| - h] + next[|f| - h..|f|]
  }

  /** The part of a frame `f` behind `head` that is left when `|f|` bytes of both are gone. */
  lemma LeftOf(bytes: seq<byte>, head: seq<byte>, f: seq<byte>, end: seq<byte>)
    requires |head| <= |f|
    ensures (bytes + head + f + end)[|bytes| + |f|..] == f[|f| - |head|..] + end
  {
  }

  lemma HeldToItsEnd(bytes: seq<byte>, view: seq<Cell>, held: nat, intact: bool,
                     before: seq<Cell>, f: seq<byte>, after: seq<Cell>)
    requires ViewOk(bytes, view, held, intact) && view == before + HeldCells(f, 0) + after && f != []
    ensures held >= |before| + |f|
  {
    assert view[|before| + |f| - 1] == HeldCells(f, 0)[|f| - 1];
  }

  /** A frame `f` behind a header of `h` bytes, its buffer captured into when as many bytes as
      the frame has are acknowledged: the last `h` of the frame may arrive from the new content. */
  lemma SplicedArrives(bytes: seq<byte>, view: seq<Cell>, head: seq<byte>, f: seq<byte>, end: seq<byte>, next: seq<byte>)
    requires |view| == |bytes| && forall i | 0 <= i < |view| :: bytes[i] in view[i].may
    requires |head| <= |f| <= |next|
    ensures MayArrive(Recaptured(view + CopiedCells(head) + HeldCells(f, 0) + CopiedCells(end), |bytes| + |f|, next),
                bytes + head + Spliced(f, next, |head|) + end)
  {
  }

  /** Such a frame is neither of the two, if they differ on both sides of the seam. */
  lemma SplicedIsNeither(f: seq<byte>, next: seq<byte>, h: nat)
    requires h <= |f| <= |next| && next[..|f| - h] != f[..|f| - h] && next[|f| - h..|f|] != f[|f| - h..]
    ensures Spliced(f, next, h) != f && forall k | 0 <= k <= |next| :: Spliced(f, next, h) != next[..k]
  {
    var g, n := Spliced(f, next, h), |f| - h;
    assert g[n..] == next[n..|f|] && g[..n] == f[..n];
    assert forall k | n <= k <= |next| :: next[..k][..n] == next[..n];
  }
}
