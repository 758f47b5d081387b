/**
 * The lwIP build: one stream connection, one response slot, one capture buffer,
 * and callbacks that may run inside the send loop.
 *
 * `wires` is the other side of the lwIP calls: what was queued on each connection,
 * how much of it the peer has acknowledged, and which request it answers.
 */
module LwipServer {
  import opened Bytes
  import opened Multipart
  import opened HttpReply
  import opened HttpReader
  import opened Ledger
  import opened ZeroCopy
  import QueryScan

  type Conn = nat

  const TCP_CHUNK_MAX: nat := 1400
  const SNDBUF_WAIT_ROUNDS: nat := 64

  datatype TxState = Idle | Sending | Draining
  datatype Tx = Tx(state: TxState, offset: nat, size: nat, unacked: nat)
  const TX_RESET := Tx(Idle, 0, 0, 0)

  datatype Slot = Slot(
    pcb: Option<Conn>, hdr: seq<byte>, body: seq<byte>,
    off: nat, idx: nat, reps: nat, isLoad: bool)

  datatype Purpose =
    | Unrouted
    | Stream(stray: bool, frames: seq<Frame>, tail: seq<byte>)
    | Answer(reply: Reply)

  /** What a request asks for, as far as the transmitter is concerned. */
  datatype Action =
    | OpenStream
    | Respond(status: seq<byte>, ctype: seq<byte>, cache: seq<byte>, body: seq<byte>)
    | Load(query: string)
    | Silent

  datatype Request = Request(streaming: Option<bool>, action: Action)

  /** The response a request is answered with, if it is answered with one. */
  function ReplyTo(a: Action): Option<Reply> {
    match a
    case Respond(status, ctype, cache, body) => Some(MakeReply(status, ctype, cache, body, 0, false))
    case Load(q) => Some(LoadReply(QueryScan.KbOf(q)))
    case _ => None
  }

  /**
   * `bytes` are as queued, `view` is what each may arrive as, and `held` where the last byte
   * read from the capture buffer ends. `asked`: the latest request. `sure`: every write whose
   * result the server ignores was accepted. `intact`: whenever a frame was captured, all the
   * bytes read from the buffer had been acknowledged.
   */
  datatype Wire = Wire(
    bytes: seq<byte>, acked: nat, requests: nat, sure: bool,
    attached: bool, loaded: nat, asked: Option<Action>, purpose: Purpose,
    view: seq<Cell>, held: nat, intact: bool)
  {
    /** One request at most, and no ignored write was refused. */
    predicate Clean() {
      requests <= 1 && sure
    }

    function InFlight(): int {
      |bytes| - acked
    }

    function Queue(data: seq<byte>): Wire {
      this.(bytes := bytes + data, view := view + CopiedCells(data))
    }

    /** Data that stands in the capture buffer from `off` on and is not copied. */
    function QueueHeld(data: seq<byte>, off: nat): Wire {
      this.(bytes := bytes + data, view := view + HeldCells(data, off),
            held := if data == [] then held else |bytes| + |data|)
    }

    function Write(data: seq<byte>, at: Option<nat>): Wire {
      match at case None => Queue(data) case Some(off) => QueueHeld(data, off)
    }

    function Recapture(image: seq<byte>): Wire {
      this.(view := Recaptured(view, acked, image), intact := intact && acked >= held)
    }
  }

  const NEW_WIRE := Wire([], 0, 0, true, true, 0, None, Unrouted, [], 0, true)

  // ------------------------------ Invariant ------------------------------

  /** One moment of the server, as a value. */
  datatype State = State(
    stream: Option<Conn>, tx: Tx, resp: Slot, image: seq<byte>, wires: map<Conn, Wire>,
    captures: set<Frame>, base: nat, epoch: seq<Entry>)

  /** What the bytes of a connection are, as long as it is clean. */
  ghost predicate WireOk(w: Wire, captures: set<Frame>) {
    && w.acked <= |w.bytes| && ViewOk(w.bytes, w.view, w.held, w.intact)
    && (w.Clean() && w.requests == 0 ==> w.purpose.Unrouted?)
    && (w.Clean() ==>
      match w.purpose
      case Unrouted => w.bytes == [] && w.loaded == 0
      case Stream(stray, fs, tail) =>
        w.bytes == StreamBytes(stray, fs, tail) && FromCaptures(fs, tail, captures) && w.loaded == 0
        && w.asked == Some(OpenStream)
      case Answer(r) =>
        w.asked.Some? && ReplyTo(w.asked.value) == Some(r) && w.bytes <= ReplyBytes(r) && w.loaded == LoadBytes(r, |w.bytes|))
  }

  predicate TxOk(tx: Tx, stream: Option<Conn>) {
    && (tx.state.Idle? ==> tx == TX_RESET)
    && (tx.state.Sending? ==> tx.offset <= tx.size && tx.size >= 2)
    && (tx.state.Draining? ==> tx.offset == tx.size)
    && tx.unacked <= tx.offset
    && (!tx.state.Idle? ==> stream.Some?)
  }

  /** The unfinished part on the live stream. */
  function LiveTail(tx: Tx, image: seq<byte>): seq<byte>
    requires tx.state.Sending? ==> tx.offset <= |image|
  {
    if tx.state.Sending? then PartHead(tx.size) + image[..tx.offset] else []
  }

  /** Bytes copied into the live stream since its books were opened. */
  function CopiedFor(tx: Tx): nat {
    match tx.state
    case Idle => 0
    case Sending => |PartHead(tx.size)|
    case Draining => (if tx.size == 0 then 0 else |PartHead(tx.size)|) + 2
  }

  /** The books since the frame began, or since the last one was let go. */
  ghost predicate BooksOk(inFlight: int, tx: Tx, base: nat, epoch: seq<Entry>) {
    && inFlight == Run(base, epoch).inFlight && tx.unacked == Run(base, epoch).unacked
    && Fair(base, epoch) && CountedIn(epoch) == tx.offset
  }

  /** Where the JPEG of the frame in progress ends on its connection. */
  predicate HeldOk(w: Wire, tx: Tx) {
    && (tx.state.Sending? && tx.offset > 0 ==> w.held == |w.bytes|)
    && (tx.state.Draining? && tx.size > 0 ==> w.held + 2 == |w.bytes|)
  }

  /** The live stream's books balance, and its connection carries the frame in progress. */
  ghost predicate StreamWire(w: Wire, tx: Tx, image: seq<byte>, base: nat, epoch: seq<Entry>)
    requires tx.state.Sending? ==> tx.offset <= |image|
  {
    && w.requests >= 1 && w.attached
    && BooksOk(w.InFlight(), tx, base, epoch)
    && (w.Clean() ==>
      && HeldOk(w, tx)
      && w.purpose.Stream? && w.purpose.tail == LiveTail(tx, image)
      && CopiedIn(epoch) == CopiedFor(tx))
  }

  ghost predicate StreamOk(s: State) {
    && (s.tx.state.Sending? ==> s.tx.offset <= s.tx.size <= |s.image| && s.image[..s.tx.size] in s.captures)
    && (s.stream.Some? ==>
      && s.stream.value in s.wires
      && StreamWire(s.wires[s.stream.value], s.tx, s.image, s.base, s.epoch))
  }

  ghost predicate SlotOk(r: Slot, wires: map<Conn, Wire>) {
    r.pcb.Some? ==>
      && r.pcb.value in wires
      && r.idx <= 2
      && (r.idx < 2 ==> r.off <= |Segment(r)|)
      && wires[r.pcb.value].requests >= 1
      && (wires[r.pcb.value].requests == 1 ==> wires[r.pcb.value].attached)
      && SlotWire(r, wires[r.pcb.value])
  }

  /** Only a connection that asked twice is both the stream and pending. */
  ghost predicate Apart(s: State) {
    s.stream.Some? && s.stream == s.resp.pcb && s.stream.value in s.wires ==> s.wires[s.stream.value].requests >= 2
  }

  ghost predicate WiresOk(wires: map<Conn, Wire>, captures: set<Frame>) {
    forall c <- wires :: WireOk(wires[c], captures)
  }

  ghost predicate Loose(s: State) {
    && WiresOk(s.wires, s.captures)
    && (forall f <- s.captures :: IsJpeg(f))
    && TxOk(s.tx, s.stream)
    && StreamOk(s)
    && SlotOk(s.resp, s.wires)
    && Apart(s)
  }

  /** Holds whenever no send loop is between its last JPEG byte and the CRLF. */
  ghost predicate Sound(s: State) {
    && Loose(s)
    && (s.tx.state.Sending? ==> s.tx.offset < s.tx.size)
    && (s.resp.pcb.Some? ==> s.resp.idx < 2)
  }

  // ------------------------- What callbacks may change -------------------------

  ghost predicate Grows(v: Wire, w: Wire) {
    && v.bytes <= w.bytes && v.acked <= w.acked && v.requests <= w.requests
    && (w.sure ==> v.sure) && (w.attached ==> v.attached) && (w.intact ==> v.intact)
  }

  /** Grown without a capture. */
  ghost predicate Keeps(v: Wire, w: Wire) {
    Grows(v, w) && (w.intact <==> v.intact)
  }

  ghost predicate WiresGrow(v: map<Conn, Wire>, w: map<Conn, Wire>) {
    forall c <- v :: c in w && Grows(v[c], w[c])
  }

  ghost predicate WiresKept(v: map<Conn, Wire>, w: map<Conn, Wire>) {
    forall c <- v :: c in w && Keeps(v[c], w[c])
  }

  lemma GrowTwice(u: map<Conn, Wire>, v: map<Conn, Wire>, w: map<Conn, Wire>)
    requires WiresGrow(u, v) && WiresGrow(v, w)
    ensures WiresGrow(u, w)
  {
  }

  lemma KeptOn(u: map<Conn, Wire>, v: map<Conn, Wire>, w: map<Conn, Wire>)
    requires WiresKept(u, v) && WiresKept(v, w)
    ensures WiresKept(u, w) && WiresGrow(u, w)
  {
  }

  /** When the buffer is captured into, a connection stays intact exactly if it has had all it
      reads from the buffer acknowledged. */
  ghost predicate IntactIfFree(v: map<Conn, Wire>, w: map<Conn, Wire>) {
    forall c <- v :: c in w && (w[c].intact <==> v[c].intact && v[c].acked >= v[c].held)
  }

  lemma IntactOn(u: map<Conn, Wire>, v: map<Conn, Wire>, w: map<Conn, Wire>)
    requires IntactIfFree(u, v) && WiresKept(v, w)
    ensures IntactIfFree(u, w)
  {
  }

  lemma IntactAfter(u: map<Conn, Wire>, v: map<Conn, Wire>, w: map<Conn, Wire>)
    requires WiresKept(u, v) && IntactIfFree(v, w)
    requires forall c <- u :: c in v ==> v[c].acked == u[c].acked && v[c].held == u[c].held
    ensures IntactIfFree(u, w)
  {
  }

  lemma CarriedOn(u: map<Conn, Wire>, v: map<Conn, Wire>, w: map<Conn, Wire>, captured: bool)
    requires WiresGrow(u, v) && WiresKept(v, w) && (if captured then IntactIfFree(u, v) else WiresKept(u, v))
    ensures WiresGrow(u, w) && (if captured then IntactIfFree(u, w) else WiresKept(u, w))
  {
    KeptOnlyGrows(v, w);
    GrowTwice(u, v, w);
    if captured {
      IntactOn(u, v, w);
    } else {
      KeptOn(u, v, w);
    }
    hide WiresGrow, WiresKept, IntactIfFree;
  }

  lemma KeptOnlyGrows(v: map<Conn, Wire>, w: map<Conn, Wire>)
    requires WiresKept(v, w)
    ensures WiresGrow(v, w)
  {
  }

  lemma GrowNone(w: map<Conn, Wire>)
    ensures WiresGrow(w, w) && WiresKept(w, w)
  {
  }

  /** Changing one connection to a sound, grown one. */
  lemma OneWire(wires: map<Conn, Wire>, c: Conn, w: Wire, captures: set<Frame>)
    requires WiresOk(wires, captures) && WireOk(w, captures)
    requires c in wires ==> Keeps(wires[c], w)
    ensures WiresOk(wires[c := w], captures) && WiresKept(wires, wires[c := w]) && WiresGrow(wires, wires[c := w])
  {
  }

  lemma WireIn(s: State, c: Conn)
    requires WiresOk(s.wires, s.captures) && c in s.wires
    ensures WireOk(s.wires[c], s.captures)
  {
  }

  ghost predicate SameFrame(s: State, t: State) {
    && t.stream == s.stream
    && t.tx.(unacked := 0) == s.tx.(unacked := 0)
    && t.tx.unacked <= s.tx.unacked
    && (t.stream.Some? && t.stream.value in s.wires && t.stream.value in t.wires
        && t.wires[t.stream.value].Clean() ==>
      t.wires[t.stream.value].purpose == s.wires[t.stream.value].purpose)
  }

  /** A stream opened and not yet fed: nothing but the preamble. */
  ghost predicate JustOpened(s: State) {
    && s.tx == TX_RESET
    && s.stream.Some? && s.stream.value in s.wires
    && (s.wires[s.stream.value].Clean() ==> s.wires[s.stream.value].purpose == Stream(false, [], []))
  }

  /** Bytes are only appended, the capture buffer is left alone, and the frame in progress
      is the same one, or its connection is gone, or a new stream has just been opened. */
  ghost predicate Kept(s: State, t: State) {
    && t.image == s.image && t.captures == s.captures
    && WiresKept(s.wires, t.wires)
    && (SameFrame(s, t) || (t.stream.None? && t.tx == TX_RESET) || JustOpened(t))
  }

  lemma KeptTwice(s: State, t: State, u: State)
    requires Kept(s, t) && Kept(t, u)
    ensures Kept(s, u)
  {
  }

  // --------------------------- Steps of the response pump ---------------------------

  function Segment(r: Slot): seq<byte> {
    if r.idx == 0 then r.hdr else r.body
  }

  /** The connection after `n` more bytes of the slot's current segment. */
  function PumpedWire(w: Wire, r: Slot, n: nat): Wire
    requires r.off + n <= |Segment(r)|
  {
    w.Queue(Segment(r)[r.off..r.off + n]).(loaded := w.loaded + (if r.isLoad && r.idx == 1 then n else 0))
  }

  ghost predicate SlotWire(r: Slot, w: Wire) {
    w.Clean() ==>
      && w.attached
      && w.purpose.Answer?
      && var a := w.purpose.reply;
      && r.hdr == a.head && r.body == a.body && r.isLoad == a.isLoad
      && r.reps <= a.reps && (r.idx == 0 ==> r.reps == a.reps)
      && (r.idx == 0 ==> r.off <= |r.hdr|)
      && (r.idx == 1 ==> r.off <= |r.body|)
      && w.bytes == Written(a, r.idx, r.off, r.reps)
  }

  lemma PumpedWireOk(w: Wire, r: Slot, n: nat, captures: set<Frame>)
    requires WireOk(w, captures) && SlotWire(r, w)
    requires r.idx < 2 && r.off + n <= |Segment(r)|
    ensures WireOk(PumpedWire(w, r, n), captures) && SlotWire(r.(off := r.off + n), PumpedWire(w, r, n))
  {
    hide StreamBytes, IsTail, ReplyTo, ReplyBytes, Copies, ViewOk, Written;
    CopyOk(w.bytes, w.view, w.held, w.intact, Segment(r)[r.off..r.off + n]);
    if w.Clean() {
      PumpedBytes(w.purpose.reply, r, n);
    }
  }

  lemma PumpedBytes(a: Reply, r: Slot, n: nat)
    requires r.idx < 2 && r.off + n <= |Segment(r)|
    requires r.hdr == a.head && r.body == a.body && r.isLoad == a.isLoad && r.reps <= a.reps
    ensures r.idx == 0 ==> r.off + n <= |a.head|
    ensures r.idx == 1 ==> r.off + n <= |a.body|
    ensures Written(a, r.idx, r.off + n, r.reps) == Written(a, r.idx, r.off, r.reps) + Segment(r)[r.off..r.off + n]
    ensures Written(a, r.idx, r.off + n, r.reps) <= ReplyBytes(a)
    ensures LoadBytes(a, |Written(a, r.idx, r.off + n, r.reps)|) ==
      LoadBytes(a, |Written(a, r.idx, r.off, r.reps)|) + (if r.isLoad && r.idx == 1 then n else 0)
  {
    WrittenGrows(a, r.idx, r.off, n, r.reps);
    WrittenIsPrefix(a, r.idx, r.off + n, r.reps);
    hide ReplyBytes, Copies;
  }

  ghost function Pumped(s: State, n: nat): State
    requires s.resp.pcb.Some? && s.resp.pcb.value in s.wires
    requires s.resp.off + n <= |Segment(s.resp)|
  {
    var c := s.resp.pcb.value;
    s.(
      wires := s.wires[c := PumpedWire(s.wires[c], s.resp, n)],
      resp := s.resp.(off := s.resp.off + n),
      epoch := if s.stream == Some(c) then s.epoch + [Copied(n)] else s.epoch)
  }

  /** A response on the stream's own connection: one that asked twice. */
  lemma PumpedStreamWire(w: Wire, r: Slot, n: nat, tx: Tx, image: seq<byte>, base: nat, epoch: seq<Entry>)
    requires (tx.state.Sending? ==> tx.offset <= |image|) && r.off + n <= |Segment(r)|
    requires StreamWire(w, tx, image, base, epoch) && SlotWire(r, w)
    ensures StreamWire(PumpedWire(w, r, n), tx, image, base, epoch + [Copied(n)])
  {
    hide LiveTail, CopiedFor, HeldOk, Written, Run;
    RunPost(base, epoch, Copied(n));
  }

  lemma PumpedOk(s: State, n: nat)
    requires Loose(s) && s.resp.pcb.Some? && s.resp.idx < 2 && s.resp.off + n <= |Segment(s.resp)|
    ensures Loose(Pumped(s, n)) && Kept(s, Pumped(s, n))
  {
    hide WireOk, SlotWire, StreamWire, IsJpeg;
    var c := s.resp.pcb.value;
    var w := s.wires[c];
    WireIn(s, c);
    PumpedWireOk(w, s.resp, n, s.captures);
    OneWire(s.wires, c, PumpedWire(w, s.resp, n), s.captures);
    if s.stream == Some(c) {
      PumpedStreamWire(w, s.resp, n, s.tx, s.image, s.base, s.epoch);
    }
    hide WiresOk, WiresGrow, WiresKept;
  }

  /** What the pump does at the end of a segment. */
  function RolledOver(r: Slot): Slot {
    if r.idx == 1 && r.reps > 0 then r.(reps := r.reps - 1, off := 0) else r.(idx := r.idx + 1, off := 0)
  }

  lemma RolledSlotWire(w: Wire, r: Slot)
    requires SlotWire(r, w) && r.idx < 2 && r.off == |Segment(r)|
    ensures SlotWire(RolledOver(r), w)
  {
    hide Written;
    if w.Clean() {
      WrittenRollsOver(w.purpose.reply, r.idx, r.reps);
      WrittenAtEnd(w.purpose.reply);
    }
  }

  lemma WrittenAtEnd(a: Reply)
    ensures Written(a, 2, 0, 0) == ReplyBytes(a)
  {
  }

  lemma RolledOverOk(s: State)
    requires Loose(s) && s.resp.pcb.Some? && s.resp.idx < 2 && s.resp.off == |Segment(s.resp)|
    ensures Loose(s.(resp := RolledOver(s.resp))) && Kept(s, s.(resp := RolledOver(s.resp)))
  {
    hide WiresOk, SlotWire, StreamWire, IsJpeg;
    RolledSlotWire(s.wires[s.resp.pcb.value], s.resp);
  }

  /** Between steps the slot stands inside its segment and names a known connection. */
  lemma SlotInRange(s: State)
    requires Loose(s) && s.resp.pcb.Some?
    ensures s.resp.pcb.value in s.wires && s.resp.idx <= 2
    ensures s.resp.idx < 2 ==> s.resp.off <= |Segment(s.resp)|
    ensures s.resp.idx == 2 && s.wires[s.resp.pcb.value].Clean() ==>
      s.wires[s.resp.pcb.value].purpose.Answer? &&
      s.wires[s.resp.pcb.value].bytes == ReplyBytes(s.wires[s.resp.pcb.value].purpose.reply)
  {
  }

  /** A pump standing idle, or whose slot has just been given back, is between polls again. */
  lemma SlotSettled(s: State)
    requires Loose(s) && (s.tx.state.Sending? ==> s.tx.offset < s.tx.size)
    ensures s.resp.idx < 2 ==> Sound(s)
    ensures Sound(s.(resp := s.resp.(pcb := None))) && Kept(s, s.(resp := s.resp.(pcb := None)))
  {
  }

  lemma SoundIsLoose(s: State)
    requires Sound(s)
    ensures Loose(s) && Kept(s, s)
    ensures s.resp.pcb.Some? ==> s.resp.pcb.value in s.wires && s.resp.idx < 2
    ensures s.stream.Some? ==> s.stream.value in s.wires
    ensures s.tx.state.Sending? ==> s.tx.offset < s.tx.size
  {
  }

  lemma StreamIsAttached(s: State)
    requires Sound(s)
    ensures s.stream.Some? ==> s.stream.value in s.wires && s.wires[s.stream.value].attached
  {
  }

  // --------------------------- Steps of the callbacks ---------------------------

  /** A request that has arrived on a connection and has not been answered yet. */
  ghost predicate Awaiting(s: State, c: Conn, a: Action) {
    && c in s.wires && s.wires[c].attached && s.wires[c].requests >= 1
    && s.wires[c].asked == Some(a) && (s.wires[c].Clean() ==> s.wires[c].purpose.Unrouted?)
    && (s.wires[c].requests == 1 ==> s.stream != Some(c) && s.resp.pcb != Some(c))
  }

  /** The connection once the request has come in. */
  function Asking(w: Wire, a: Action): Wire {
    w.(requests := w.requests + 1, asked := Some(a))
  }

  lemma ArrivedWireOk(w: Wire, r: Slot, a: Action, captures: set<Frame>)
    requires WireOk(w, captures)
    ensures var v := Asking(w, a);
      WireOk(v, captures) && Keeps(w, v) && (SlotWire(r, w) && w.requests >= 1 ==> SlotWire(r, v))
      && (v.Clean() ==> v.purpose.Unrouted?)
  {
    hide StreamBytes, IsTail, ReplyTo, ReplyBytes, ViewOk, Written;
  }

  lemma ArrivedStreamWire(w: Wire, a: Action, tx: Tx, image: seq<byte>, base: nat, epoch: seq<Entry>)
    requires (tx.state.Sending? ==> tx.offset <= |image|) && StreamWire(w, tx, image, base, epoch)
    ensures StreamWire(Asking(w, a), tx, image, base, epoch)
  {
    hide BooksOk, HeldOk, LiveTail, CopiedFor;
  }

  lemma ArrivedOk(s: State, c: Conn, a: Action)
    requires Sound(s) && c in s.wires && s.wires[c].attached
    ensures var t := s.(wires := s.wires[c := Asking(s.wires[c], a)]);
            Sound(t) && Kept(s, t) && Awaiting(t, c, a)
  {
    var w := s.wires[c];
    hide SlotWire, Segment, WireOk, IsJpeg;
    WireIn(s, c);
    ArrivedWireOk(w, s.resp, a, s.captures);
    OneWire(s.wires, c, Asking(w, a), s.captures);
    if s.stream == Some(c) {
      ArrivedStreamWire(w, a, s.tx, s.image, s.base, s.epoch);
    }
    assert s.stream == Some(c) ==> w.requests >= 1;
    hide WiresOk, WiresKept, WiresGrow, StreamWire;
  }

  ghost function Queued(s: State, c: Conn, r: Reply): State
    requires c in s.wires
  {
    s.(resp := Slot(Some(c), r.head, r.body, 0, 0, r.reps, r.isLoad),
       wires := s.wires[c := s.wires[c].(purpose := Answer(r))])
  }

  lemma QueuedWireOk(w: Wire, c: Conn, r: Reply, captures: set<Frame>)
    requires WireOk(w, captures) && w.requests >= 1 && w.asked.Some? && ReplyTo(w.asked.value) == Some(r)
    requires w.Clean() ==> w.purpose.Unrouted? && w.attached
    ensures WireOk(w.(purpose := Answer(r)), captures)
    ensures SlotWire(Slot(Some(c), r.head, r.body, 0, 0, r.reps, r.isLoad), w.(purpose := Answer(r)))
  {
    assert Written(r, 0, 0, r.reps) == [];
    hide StreamBytes, IsTail, ReplyTo, Written;
  }

  lemma QueuedOk(s: State, c: Conn, r: Reply, a: Action)
    requires Sound(s) && Awaiting(s, c, a) && ReplyTo(a) == Some(r)
    ensures Sound(Queued(s, c, r)) && Kept(s, Queued(s, c, r))
  {
    hide WireOk, SlotWire, ReplyTo, IsJpeg, BooksOk, HeldOk, LiveTail, CopiedFor;
    var w := s.wires[c];
    WireIn(s, c);
    QueuedWireOk(w, c, r, s.captures);
    OneWire(s.wires, c, w.(purpose := Answer(r)), s.captures);
    if s.stream == Some(c) {
      QueuedStreamWire(w, r, s.tx, s.image, s.base, s.epoch);
    }
    hide WiresOk, WiresGrow, WiresKept, StreamWire;
  }

  /** Answering on the stream's own connection: one that asked twice. */
  lemma QueuedStreamWire(w: Wire, r: Reply, tx: Tx, image: seq<byte>, base: nat, epoch: seq<Entry>)
    requires (tx.state.Sending? ==> tx.offset <= |image|) && StreamWire(w, tx, image, base, epoch)
    requires w.requests >= 2
    ensures StreamWire(w.(purpose := Answer(r)), tx, image, base, epoch)
  {
    hide BooksOk, HeldOk, LiveTail, CopiedFor;
  }

  ghost function Released(s: State): State {
    s.(stream := None, tx := TX_RESET, base := 0, epoch := [])
  }

  lemma ReleasedOk(s: State)
    requires Sound(s)
    ensures Sound(Released(s)) && Kept(s, Released(s))
  {
  }

  /** Everything that names the connection lets go of it. */
  ghost function Closed(s: State, c: Conn): State
    requires c in s.wires
  {
    (if s.stream == Some(c) then Released(s) else s).(
      resp := if s.resp.pcb == Some(c) then s.resp.(pcb := None) else s.resp,
      wires := s.wires[c := s.wires[c].(attached := false)])
  }

  lemma DetachedWireOk(w: Wire, captures: set<Frame>)
    requires WireOk(w, captures)
    ensures WireOk(w.(attached := false), captures) && Keeps(w, w.(attached := false))
  {
    hide StreamBytes, IsTail, ReplyTo, ReplyBytes, ViewOk;
  }

  lemma ClosedOk(s: State, c: Conn)
    requires Sound(s) && c in s.wires
    ensures Sound(Closed(s, c)) && Kept(s, Closed(s, c))
  {
    hide WireOk, StreamWire, SlotWire, Segment;
    WireIn(s, c);
    DetachedWireOk(s.wires[c], s.captures);
    OneWire(s.wires, c, s.wires[c].(attached := false), s.captures);
    hide WiresOk, WiresGrow, WiresKept;
  }

  ghost function TakenOver(s: State, old': Conn): State
    requires old' in s.wires
  {
    Released(s).(wires := s.wires[old' := s.wires[old'].(attached := false)])
  }

  lemma TakenOverOk(s: State, c: Conn, a: Action)
    requires Sound(s) && Awaiting(s, c, a) && s.stream.Some? && s.stream != Some(c)
    ensures var t := TakenOver(s, s.stream.value); Sound(t) && Kept(s, t) && Awaiting(t, c, a)
  {
    var old', w := s.stream.value, s.wires[s.stream.value];
    WireIn(s, old');
    DetachedWireOk(w, s.captures);
    assert SlotWire(s.resp, w) && w.requests >= 2 ==> SlotWire(s.resp, w.(attached := false));
    hide WireOk, SlotWire, Segment, Run, BooksOk, HeldOk, LiveTail;
    OneWire(s.wires, old', w.(attached := false), s.captures);
    hide WiresOk, WiresGrow, WiresKept, StreamWire;
  }

  function OpenedWire(w: Wire, ok: bool): Wire {
    (if ok then w.Queue(PREAMBLE) else w).(sure := w.sure && ok, purpose := Stream(false, [], []))
  }

  ghost function Opened(s: State, c: Conn, ok: bool): State
    requires c in s.wires && s.wires[c].acked <= |s.wires[c].bytes|
  {
    var w := OpenedWire(s.wires[c], ok);
    s.(stream := Some(c), tx := TX_RESET, base := w.InFlight(), epoch := [], wires := s.wires[c := w])
  }

  lemma OpenedWireOk(w: Wire, ok: bool, image: seq<byte>, captures: set<Frame>)
    requires WireOk(w, captures) && w.requests >= 1 && w.attached && w.asked == Some(OpenStream)
    requires w.Clean() ==> w.purpose.Unrouted?
    ensures var v := OpenedWire(w, ok);
      WireOk(v, captures) && StreamWire(v, TX_RESET, image, v.InFlight(), []) && Keeps(w, v)
      && (w.Clean() ==> !v.Clean() || v.purpose == Stream(false, [], []))
  {
    hide ViewOk, StreamBytes, ReplyTo, ReplyBytes;
    CopyOk(w.bytes, w.view, w.held, w.intact, PREAMBLE);
    StrayOpens();
    if w.Clean() && ok {
      assert w.Queue(PREAMBLE).bytes == PREAMBLE;
    }
  }

  lemma OpenedOk(s: State, c: Conn, ok: bool)
    requires Sound(s) && Awaiting(s, c, OpenStream) && (s.stream == None || s.stream == Some(c))
    ensures c in s.wires && s.wires[c].acked <= |s.wires[c].bytes|
    ensures Sound(Opened(s, c, ok)) && Kept(s, Opened(s, c, ok))
  {
    hide WireOk, StreamWire, SlotWire, Segment, IsJpeg;
    var w := s.wires[c];
    WireIn(s, c);
    AckedAtMost(w, s.captures);
    OpenedWireOk(w, ok, s.image, s.captures);
    OpenedSlotWire(w, ok, s.resp);
    OneWire(s.wires, c, OpenedWire(w, ok), s.captures);
    hide WiresOk, WiresGrow, WiresKept, OpenedWire;
  }

  lemma OpenedSlotWire(w: Wire, ok: bool, r: Slot)
    requires w.requests >= 1
    ensures w.requests >= 2 ==> SlotWire(r, OpenedWire(w, ok))
    ensures OpenedWire(w, ok).requests == w.requests && OpenedWire(w, ok).attached == w.attached
  {
    hide CopiedCells, Written;
  }

  ghost function AckedBy(s: State, c: Conn, n: nat): State
    requires c in s.wires
  {
    var t := s.(wires := s.wires[c := s.wires[c].(acked := s.wires[c].acked + n)]);
    if s.stream == Some(c) then
      t.(epoch := s.epoch + [Acked(n)], tx := s.tx.(unacked := Less(s.tx.unacked, n)))
    else t
  }

  lemma AckedWireOk(w: Wire, r: Slot, n: nat, captures: set<Frame>)
    requires WireOk(w, captures) && n <= w.InFlight()
    ensures WireOk(w.(acked := w.acked + n), captures)
    ensures SlotWire(r, w) ==> SlotWire(r, w.(acked := w.acked + n))
  {
    hide StreamBytes, FromCaptures, Written, ReplyBytes;
  }

  /** The server's counter follows the ledger: whatever is acknowledged comes off it, down to zero. */
  lemma AckedStreamWire(w: Wire, tx: Tx, image: seq<byte>, base: nat, epoch: seq<Entry>, n: nat)
    requires (tx.state.Sending? ==> tx.offset <= |image|) && n <= w.InFlight()
    requires StreamWire(w, tx, image, base, epoch)
    ensures StreamWire(w.(acked := w.acked + n), tx.(unacked := Less(tx.unacked, n)), image, base, epoch + [Acked(n)])
  {
    hide PartHead;
    RunPost(base, epoch, Acked(n));
  }

  lemma AckedElsewhere(s: State, c: Conn, n: nat)
    requires Sound(s) && c in s.wires && n <= s.wires[c].InFlight() && s.stream != Some(c)
    ensures Sound(AckedBy(s, c, n)) && Kept(s, AckedBy(s, c, n))
  {
    hide WireOk, SlotWire, StreamWire, Segment, IsJpeg;
    WireIn(s, c);
    AckedWireOk(s.wires[c], s.resp, n, s.captures);
    OneWire(s.wires, c, AckedBy(s, c, n).wires[c], s.captures);
    hide WiresOk, WiresGrow, WiresKept;
  }

  lemma AckedKeeps(s: State, c: Conn, n: nat)
    requires Sound(s) && c in s.wires && n <= s.wires[c].InFlight() && s.stream == Some(c)
    ensures Kept(s, AckedBy(s, c, n)) && WiresOk(AckedBy(s, c, n).wires, s.captures)
  {
    WireIn(s, c);
    AckedWireOk(s.wires[c], s.resp, n, s.captures);
    OneWire(s.wires, c, AckedBy(s, c, n).wires[c], s.captures);
    hide WiresOk, WiresGrow, WiresKept, WireOk, SlotOk, StreamOk;
  }

  lemma AckedOnStream(s: State, c: Conn, n: nat)
    requires Sound(s) && c in s.wires && n <= s.wires[c].InFlight() && s.stream == Some(c)
    ensures Sound(AckedBy(s, c, n)) && Kept(s, AckedBy(s, c, n))
  {
    hide WireOk, SlotWire, StreamWire, Run, LiveTail, PartHead, Segment, WiresGrow, IsJpeg;
    WireIn(s, c);
    AckedKeeps(s, c, n);
    AckedWireOk(s.wires[c], s.resp, n, s.captures);
    AckedStreamWire(s.wires[c], s.tx, s.image, s.base, s.epoch, n);
    hide WiresOk, Kept;
  }

  lemma AcceptedOk(s: State, c: Conn)
    requires Sound(s) && c !in s.wires
    ensures var t := s.(wires := s.wires[c := NEW_WIRE]); Sound(t) && Kept(s, t)
  {
  }

  // --------------------------- Steps of the send loop ---------------------------

  function WithTail(w: Wire, tail: seq<byte>): Wire {
    if w.purpose.Stream? then w.(purpose := w.purpose.(tail := tail)) else w
  }

  /** The send loop's state: a frame going out, or a stream opened under its feet. */
  ghost predicate Pushing(s: State) {
    && Loose(s) && s.stream.Some? && (s.resp.pcb.Some? ==> s.resp.idx < 2)
    && (s.tx.state.Sending? || JustOpened(s))
  }

  lemma PushingIsSound(s: State)
    requires Pushing(s)
    ensures s.stream.Some? && s.stream.value in s.wires && s.tx.offset <= s.tx.size <= |s.image|
    ensures s.tx.offset < s.tx.size ==> Sound(s) && s.tx.state.Sending?
  {
  }

  /** Callbacks inside the loop leave it a state it can go on from, with no more left to send. */
  lemma StillPushing(s: State, t: State)
    requires Pushing(s) && s.tx.offset < s.tx.size && Sound(t) && Kept(s, t) && t.stream.Some?
    ensures Pushing(t) && t.tx.size - t.tx.offset <= s.tx.size - s.tx.offset
    ensures t.tx.offset < t.tx.size ==> t.stream == s.stream
  {
  }

  ghost function ChunkQueued(s: State, n: nat): State
    requires s.tx.state.Sending? && s.stream.Some? && s.stream.value in s.wires && s.tx.offset + n <= |s.image|
  {
    var c := s.stream.value;
    s.(tx := s.tx.(offset := s.tx.offset + n, unacked := s.tx.unacked + n), epoch := s.epoch + [Counted(n)],
       wires := s.wires[c := ChunkWire(s.wires[c], s.tx, s.image, n)])
  }

  /** Queuing more of a capture makes the unfinished part longer, still of that capture. */
  lemma ChunkTail(stray: bool, fs: seq<Frame>, image: seq<byte>, size: nat, offset: nat, n: nat, captures: set<Frame>)
    requires offset + n <= size <= |image| && image[..size] in captures
    ensures StreamBytes(stray, fs, PartHead(size) + image[..offset]) + image[offset..offset + n]
         == StreamBytes(stray, fs, PartHead(size) + image[..offset + n])
    ensures IsTail(PartHead(size) + image[..offset + n], captures)
  {
    hide PartHead, StreamBytes;
    var data := image[offset..offset + n];
    TailGrows(stray, fs, PartHead(size) + image[..offset], data);
    assert image[..offset] + data == image[..offset + n];
    Assoc(PartHead(size), image[..offset], data);
    CutIsTail(image[..size], offset + n, captures);
    assert image[..size][..offset + n] == image[..offset + n];
  }

  /** The connection after `n` more bytes of the JPEG. */
  function ChunkWire(w: Wire, tx: Tx, image: seq<byte>, n: nat): Wire
    requires tx.state.Sending? && tx.offset + n <= |image|
  {
    WithTail(w.QueueHeld(image[tx.offset..tx.offset + n], tx.offset), LiveTail(tx.(offset := tx.offset + n, unacked := tx.unacked + n), image))
  }

  lemma ChunkBytesOk(w: Wire, tx: Tx, image: seq<byte>, n: nat, captures: set<Frame>)
    requires tx.state.Sending? && 0 < n && tx.offset + n <= tx.size <= |image| && image[..tx.size] in captures
    requires WireOk(w, captures) && w.requests >= 1
    requires w.Clean() ==> w.purpose.Stream? && w.purpose.tail == LiveTail(tx, image)
    ensures WireOk(ChunkWire(w, tx, image, n), captures) && Keeps(w, ChunkWire(w, tx, image, n))
  {
    hide StreamBytes, IsTail, PartHead, ReplyTo, ReplyBytes, ViewOk;
    HoldOk(w.bytes, w.view, w.held, w.intact, image[tx.offset..tx.offset + n], tx.offset);
    if w.Clean() {
      ChunkTail(w.purpose.stray, w.purpose.frames, image, tx.size, tx.offset, n, captures);
    }
  }

  lemma ChunkWireOk(w: Wire, r: Slot, tx: Tx, image: seq<byte>, base: nat, epoch: seq<Entry>, n: nat)
    requires tx.state.Sending? && 0 < n && tx.offset + n <= tx.size <= |image|
    requires StreamWire(w, tx, image, base, epoch)
    ensures var t := tx.(offset := tx.offset + n, unacked := tx.unacked + n);
            var v := ChunkWire(w, tx, image, n);
            StreamWire(v, t, image, base, epoch + [Counted(n)]) && (SlotWire(r, w) ==> SlotWire(r, v))
  {
    hide PartHead, Run, Written;
    RunPost(base, epoch, Counted(n));
  }

  lemma ChunkQueuedOk(s: State, n: nat)
    requires Pushing(s) && s.tx.state.Sending? && 0 < n && s.tx.offset + n <= s.tx.size
    requires s.stream.value in s.wires && s.tx.offset + n <= |s.image|
    ensures Pushing(ChunkQueued(s, n)) && WiresKept(s.wires, ChunkQueued(s, n).wires)
  {
    hide WireOk, SlotWire, Run, PartHead, LiveTail, Segment;
    var c := s.stream.value;
    WireIn(s, c);
    assert StreamWire(s.wires[c], s.tx, s.image, s.base, s.epoch);
    ChunkBytesOk(s.wires[c], s.tx, s.image, n, s.captures);
    ChunkWireOk(s.wires[c], s.resp, s.tx, s.image, s.base, s.epoch, n);
    OneWire(s.wires, c, ChunkWire(s.wires[c], s.tx, s.image, n), s.captures);
    hide WiresOk, WiresGrow, WiresKept, StreamWire;
  }

  /** The connection after the header of a part of `size` bytes. */
  function StartedWire(w: Wire, size: nat): Wire {
    WithTail(w.Queue(PartHead(size)), PartHead(size))
  }

  ghost function FrameStarted(s: State, size: nat): State
    requires s.stream.Some? && s.stream.value in s.wires && s.wires[s.stream.value].acked <= |s.wires[s.stream.value].bytes|
  {
    var c := s.stream.value;
    s.(tx := Tx(Sending, 0, size, 0), base := s.wires[c].InFlight(), epoch := [Copied(|PartHead(size)|)],
       wires := s.wires[c := StartedWire(s.wires[c], size)])
  }

  lemma StartedWireOk(w: Wire, image: seq<byte>, size: nat, captures: set<Frame>)
    requires WireOk(w, captures) && w.requests >= 1 && 2 <= size <= |image| && image[..size] in captures
    requires w.Clean() ==> w.purpose.Stream? && w.purpose.tail == []
    ensures var v := StartedWire(w, size); WireOk(v, captures) && Keeps(w, v)
  {
    hide PartHead, StreamBytes, ReplyTo, ReplyBytes, ViewOk;
    CopyOk(w.bytes, w.view, w.held, w.intact, PartHead(size));
    if w.Clean() {
      TailGrows(w.purpose.stray, w.purpose.frames, [], PartHead(size));
      assert [] + PartHead(size) == PartHead(size);
      var f := image[..size];
      assert f[..0] == [] && PartHead(size) + [] == PartHead(size);
      CutIsTail(f, 0, captures);
    }
  }

  lemma StartedBooksOk(w: Wire, r: Slot, image: seq<byte>, size: nat)
    requires w.requests >= 1 && w.attached && w.acked <= |w.bytes| && 2 <= size <= |image|
    requires w.Clean() ==> w.purpose.Stream? && w.purpose.tail == []
    ensures var v := StartedWire(w, size);
      StreamWire(v, Tx(Sending, 0, size, 0), image, w.InFlight(), [Copied(|PartHead(size)|)])
      && (SlotWire(r, w) ==> SlotWire(r, v))
  {
    var h := PartHead(size);
    hide PartHead, Written;
    RunPost(w.InFlight(), [], Copied(|h|));
    assert [] + [Copied(|h|)] == [Copied(|h|)] && h + image[..0] == h;
  }

  lemma FrameStartedOk(s: State, size: nat)
    requires Sound(s) && s.stream.Some? && s.tx == TX_RESET
    requires size <= |s.image| && s.image[..size] in s.captures
    ensures s.stream.value in s.wires && s.wires[s.stream.value].acked <= |s.wires[s.stream.value].bytes|
    ensures Sound(FrameStarted(s, size)) && Pushing(FrameStarted(s, size))
    ensures WiresKept(s.wires, FrameStarted(s, size).wires)
  {
    hide WireOk, SlotWire, Run, PartHead, Segment;
    var c := s.stream.value;
    WireIn(s, c);
    AckedAtMost(s.wires[c], s.captures);
    assert IsJpeg(s.image[..size]);
    StartedWireOk(s.wires[c], s.image, size, s.captures);
    StartedBooksOk(s.wires[c], s.resp, s.image, size);
    OneWire(s.wires, c, StartedWire(s.wires[c], size), s.captures);
    hide WiresOk, WiresGrow, WiresKept, StreamWire;
  }

  lemma AckedAtMost(w: Wire, captures: set<Frame>)
    requires WireOk(w, captures)
    ensures w.acked <= |w.bytes|
  {
  }

  /** The connection after the closing CRLF, taken or refused: a finished part, or the stray line. */
  function ClosedWire(w: Wire, f: Frame, ok: bool): Wire {
    var v := (if ok then w.Queue(CRLF) else w).(sure := w.sure && ok);
    if !v.purpose.Stream? then v
    else if f == [] then v.(purpose := v.purpose.(stray := true))
    else v.(purpose := v.purpose.(frames := v.purpose.frames + [f], tail := []))
  }

  ghost function FrameClosed(s: State, ok: bool): State
    requires s.stream.Some? && s.stream.value in s.wires && s.tx.size <= |s.image|
  {
    var c := s.stream.value;
    s.(tx := s.tx.(state := Draining), epoch := if ok then s.epoch + [Copied(2)] else s.epoch,
       wires := s.wires[c := ClosedWire(s.wires[c], s.image[..s.tx.size], ok)])
  }

  /** The closing CRLF after a part, or after nothing at all. */
  lemma ClosedBytes(p: Purpose, f: Frame)
    requires p.Stream? && (if f == [] then p == Stream(false, [], []) else p.tail == PartHead(|f|) + f)
    ensures StreamBytes(p.stray, p.frames, p.tail) + CRLF ==
      if f == [] then StreamBytes(true, [], []) else StreamBytes(p.stray, p.frames + [f], [])
  {
    if f == [] {
      StrayOpens();
    } else {
      TailCloses(p.stray, p.frames, f);
    }
  }

  lemma ClosedWireOk(w: Wire, f: Frame, ok: bool, captures: set<Frame>)
    requires WireOk(w, captures) && w.requests >= 1
    requires w.Clean() && f == [] ==> w.purpose == Stream(false, [], [])
    requires w.Clean() && f != [] ==> w.purpose.Stream? && w.purpose.tail == PartHead(|f|) + f && f in captures
    ensures WireOk(ClosedWire(w, f, ok), captures)
  {
    hide PartHead, ReplyTo, ReplyBytes, LoadBytes, StreamBytes, ViewOk;
    CopyOk(w.bytes, w.view, w.held, w.intact, CRLF);
    if w.Clean() {
      ClosedBytes(w.purpose, f);
    }
  }

  lemma ClosedStreamWire(w: Wire, r: Slot, tx: Tx, image: seq<byte>, base: nat, epoch: seq<Entry>, ok: bool)
    requires (tx.state.Sending? ==> tx.offset <= |image|) && tx.offset >= tx.size && tx.size <= |image|
    requires StreamWire(w, tx, image, base, epoch) && TxOk(tx, Some(0)) && !tx.state.Draining?
    requires w.Clean() && !tx.state.Sending? ==> w.purpose == Stream(false, [], [])
    ensures var f := image[..tx.size];
      var v := ClosedWire(w, f, ok);
      && StreamWire(v, tx.(state := Draining), image, base, if ok then epoch + [Copied(2)] else epoch)
      && (SlotWire(r, w) ==> SlotWire(r, v)) && Keeps(w, v)
  {
    hide PartHead, Run, Written, CopiedCells;
    RunPost(base, epoch, Copied(2));
  }

  lemma FrameClosedOk(s: State, ok: bool)
    requires Pushing(s) && s.tx.offset >= s.tx.size
    requires s.stream.value in s.wires && s.tx.size <= |s.image|
    ensures Sound(FrameClosed(s, ok)) && WiresKept(s.wires, FrameClosed(s, ok).wires)
  {
    hide WireOk, SlotWire, Run, PartHead, Segment, BooksOk, HeldOk;
    var c, f := s.stream.value, s.image[..s.tx.size];
    var w := s.wires[c];
    WireIn(s, c);
    ClosedWireOk(w, f, ok, s.captures);
    ClosedStreamWire(w, s.resp, s.tx, s.image, s.base, s.epoch, ok);
    OneWire(s.wires, c, ClosedWire(w, f, ok), s.captures);
    hide WiresOk, WiresGrow, WiresKept, StreamWire, ClosedWire;
  }

  /** Every connection as the next capture leaves it. */
  ghost function CapturedWires(wires: map<Conn, Wire>, image: seq<byte>): map<Conn, Wire> {
    map c <- wires :: wires[c].Recapture(image)
  }

  ghost function CapturedInto(s: State, image: seq<byte>): State {
    s.(image := image, wires := CapturedWires(s.wires, image))
  }

  lemma RecaptureWireOk(w: Wire, r: Slot, before: seq<byte>, image: seq<byte>, base: nat, epoch: seq<Entry>, captures: set<Frame>)
    requires WireOk(w, captures)
    ensures var v := w.Recapture(image);
      && WireOk(v, captures) && Grows(w, v)
      && (SlotWire(r, w) ==> SlotWire(r, v))
      && (StreamWire(w, TX_RESET, before, base, epoch) ==> StreamWire(v, TX_RESET, image, base, epoch))
  {
    RecaptureOk(w.bytes, w.view, w.held, w.intact, w.acked, image);
    hide ViewOk, StreamBytes, IsTail, ReplyTo, ReplyBytes, Written, Run, Fair;
  }

  /** Capturing into an idle buffer disturbs nothing that was queued. */
  lemma CapturedOk(s: State, image: seq<byte>)
    requires Sound(s) && s.tx == TX_RESET
    ensures Sound(CapturedInto(s, image))
    ensures forall n | 0 <= n <= |image| && IsJpeg(image[..n]) ::
      Sound(CapturedInto(s, image).(captures := s.captures + {image[..n]}))
    ensures WiresGrow(s.wires, CapturedInto(s, image).wires)
  {
    hide WireOk, StreamWire, SlotWire, Grows;
    var t := CapturedInto(s, image);
    forall c <- s.wires
      ensures WireOk(t.wires[c], s.captures) && Grows(s.wires[c], t.wires[c])
      ensures SlotWire(s.resp, s.wires[c]) ==> SlotWire(s.resp, t.wires[c])
      ensures StreamWire(s.wires[c], TX_RESET, s.image, s.base, s.epoch) ==> StreamWire(t.wires[c], TX_RESET, image, s.base, s.epoch)
    {
      RecaptureWireOk(s.wires[c], s.resp, s.image, image, s.base, s.epoch, s.captures);
    }
    assert Sound(t);
    forall n | 0 <= n <= |image| && IsJpeg(image[..n])
      ensures Sound(t.(captures := s.captures + {image[..n]}))
    {
      MoreCaptures(t, image[..n]);
    }
  }

  lemma MoreCaptures(s: State, f: Frame)
    requires Sound(s) && IsJpeg(f)
    ensures Sound(s.(captures := s.captures + {f}))
  {
    forall c <- s.wires
      ensures WireOk(s.wires[c], s.captures + {f})
    {
      WireIn(s, c);
      MoreCapturesWire(s.wires[c], s.captures, f);
    }
    hide WireOk, StreamWire, SlotWire;
  }

  lemma MoreCapturesWire(w: Wire, captures: set<Frame>, f: Frame)
    requires WireOk(w, captures)
    ensures WireOk(w, captures + {f})
  {
    hide ViewOk, StreamBytes, ReplyTo, ReplyBytes, Part;
  }

  lemma KeptTx(s: State, t: State)
    requires Kept(s, t) && Sound(t)
    ensures t.image == s.image && t.captures == s.captures
    ensures t.stream.None? ==> t.tx == TX_RESET
  {
  }

  lemma StreamGone(s: State)
    requires Sound(s) && s.stream.None?
    ensures s.tx == TX_RESET
  {
  }

  lemma KeptGrows(s: State, t: State)
    requires Kept(s, t)
    ensures WiresGrow(s.wires, t.wires) && WiresKept(s.wires, t.wires)
  {
  }

  lemma ResetOk(s: State)
    requires Sound(s) && s.stream.Some? && s.stream.value in s.wires
    ensures s.wires[s.stream.value].acked <= |s.wires[s.stream.value].bytes|
    ensures s.tx.state.Draining? ==>
      Sound(s.(tx := TX_RESET, base := s.wires[s.stream.value].InFlight(), epoch := []))
    ensures s.tx.state.Idle? ==> s.tx == TX_RESET
    ensures s.tx.state.Sending? ==> Pushing(s)
  {
  }

  lemma GrownIn(s: State, t: State, c: Conn)
    requires Kept(s, t) && c in s.wires
    ensures c in t.wires && Grows(s.wires[c], t.wires[c])
  {
  }

  // ------------------------- What lwIP and the camera answer -------------------------

  /** Which of the server's calls an answer is to. */
  datatype Site = ForPreamble | ForHeader | ForJpeg | ForLineEnd | ForResponse

  datatype Answer =
    | Window(site: Site, c: Conn, avail: nat)
    | Offered(site: Site, c: Conn, data: seq<byte>, ok: bool)
    | Shot(failed: bool, length: nat)

  predicate ToJpeg(a: Answer) {
    !a.Shot? && a.site.ForJpeg?
  }

  /** The answers the send loop got. */
  function JpegOf(l: seq<Answer>): seq<Answer> {
    if l == [] then [] else JpegOf(l[..|l| - 1]) + (if ToJpeg(l[|l| - 1]) then [l[|l| - 1]] else [])
  }

  lemma JpegSnoc(l: seq<Answer>, a: Answer)
    ensures JpegOf(l + [a]) == JpegOf(l) + (if ToJpeg(a) then [a] else [])
  {
    assert (l + [a])[..|l|] == l;
  }

  /** More answers, none of them to the send loop. */
  ghost predicate Quiet(l: seq<Answer>, m: seq<Answer>) {
    l <= m && JpegOf(m) == JpegOf(l)
  }

  lemma QuietOne(l: seq<Answer>, a: Answer)
    requires !ToJpeg(a)
    ensures Quiet(l, l + [a])
  {
    JpegSnoc(l, a);
  }

  lemma QuietTwice(l: seq<Answer>, m: seq<Answer>, n: seq<Answer>)
    requires Quiet(l, m) && Quiet(m, n)
    ensures Quiet(l, n)
  {
  }

  /** How much one write offers. */
  function Piece(rest: nat, avail: nat): nat {
    var n := if rest > avail then avail else rest;
    if n > TCP_CHUNK_MAX then TCP_CHUNK_MAX else n
  }

  /** The send loop had to stop short: its last write on `c` was refused, or it found the window
      of `c` closed 65 times in a row. Before `n` the answers are to earlier polls. */
  ghost predicate Short(j: seq<Answer>, n: nat, c: Conn) {
    && n < |j|
    && var last := j[|j| - 1];
    || (last.Offered? && last.c == c && !last.ok)
    || (|j| >= n + SNDBUF_WAIT_ROUNDS + 1 && Waited(j, SNDBUF_WAIT_ROUNDS + 1, c))
  }

  /** The last `k` answers: the window of `c` is closed. */
  ghost predicate Waited(j: seq<Answer>, k: nat, c: Conn) {
    k <= |j| && forall i | |j| - k <= i < |j| :: j[i].Window? && j[i].c == c && j[i].avail == 0
  }

  /** From `n` on every window was open and every write accepted. */
  ghost predicate AllTaken(j: seq<Answer>, n: nat) {
    forall i | n <= i < |j| :: (j[i].Window? ==> j[i].avail > 0) && (j[i].Offered? ==> j[i].ok)
  }

  lemma TakenIsNotShort(j: seq<Answer>, n: nat, c: Conn)
    requires Short(j, n, c)
    ensures !AllTaken(j, n)
  {
    var last := j[|j| - 1];
    assert last.Offered? ==> !last.ok;
  }

  lemma WaitedNone(j: seq<Answer>, c: Conn)
    ensures Waited(j, 0, c)
  {
  }

  lemma WaitedIsShort(j: seq<Answer>, n: nat, c: Conn)
    requires Waited(j, SNDBUF_WAIT_ROUNDS + 1, c) && |j| >= n + SNDBUF_WAIT_ROUNDS + 1
    ensures Short(j, n, c)
  {
  }

  lemma RefusedIsShort(j: seq<Answer>, n: nat, c: Conn)
    requires n < |j| && j[|j| - 1].Offered? && j[|j| - 1].c == c && !j[|j| - 1].ok
    ensures Short(j, n, c)
  {
  }

  lemma WaitedMore(j: seq<Answer>, k: nat, c: Conn)
    requires Waited(j, k, c)
    ensures Waited(j + [Window(ForJpeg, c, 0)], k + 1, c)
  {
  }

  /** The pump stopped because lwIP had no room for `c`, or refused a write on it. */
  ghost predicate Blocked(l: seq<Answer>, m: seq<Answer>, c: Conn) {
    && |l| < |m|
    && (m[|m| - 1] == Window(ForResponse, c, 0)
        || (m[|m| - 1].Offered? && m[|m| - 1].site.ForResponse? && m[|m| - 1].c == c && !m[|m| - 1].ok))
  }

  lemma BlockedOn(l: seq<Answer>, m: seq<Answer>, n: seq<Answer>, c: Conn)
    requires Quiet(l, m) && Blocked(m, n, c)
    ensures Blocked(l, n, c)
  {
  }

  lemma QuietNone(l: seq<Answer>)
    ensures Quiet(l, l)
  {
  }

  /** The answers to one step of the pump, which had `rest` to send and sent `chunk` of it. */
  ghost predicate PumpAnswers(l: seq<Answer>, c: Conn, rest: seq<byte>, chunk: nat) {
    if |l| == 1 then l[0] == Window(ForResponse, c, 0) && chunk == 0
    else
      && |l| == 2 && l[0].Window? && l[0] == Window(ForResponse, c, l[0].avail) && l[0].avail > 0
      && var n := Piece(|rest|, l[0].avail);
      && l[1] == Offered(ForResponse, c, rest[..n], chunk > 0) && chunk in {0, n}
  }

  predicate Usable(a: Answer, image: seq<byte>) {
    a.Shot? && !a.failed && a.length <= |image| && IsJpeg(image[..a.length])
  }

  /** The answers to the header of a part: room for all of it and the header accepted, or the
      first of these that failed. */
  ghost predicate HeaderAnswers(l: seq<Answer>, c: Conn, size: nat, started: bool) {
    && l != [] && l[0].Window? && l[0] == Window(ForHeader, c, l[0].avail)
    && var head := PartHead(size);
    if l[0].avail < |head| then |l| == 1 && !started
    else |l| == 2 && l[1] == Offered(ForHeader, c, head, started)
  }

  /** The answers to the start of a frame: a capture, and if it is usable those to its header. */
  ghost predicate StartAnswers(l: seq<Answer>, c: Conn, image: seq<byte>, started: bool) {
    && l != [] && l[0].Shot?
    && if !Usable(l[0], image) then |l| == 1 && !started else HeaderAnswers(l[1..], c, l[0].length, started)
  }

  /** The line end was offered last. */
  ghost predicate Ended(l: seq<Answer>, c: Conn) {
    l != [] && l[|l| - 1].Offered? && l[|l| - 1] == Offered(ForLineEnd, c, CRLF, l[|l| - 1].ok)
  }

  lemma EndedNow(l: seq<Answer>, c: Conn, ok: bool)
    ensures Ended(l + [Offered(ForLineEnd, c, CRLF, ok)], c)
  {
  }

  /** Since `l` a frame was captured and, for what the answers say last, not started. */
  ghost predicate NotStarted(l: seq<Answer>, m: seq<Answer>, c: Conn, image: seq<byte>) {
    exists k | |l| <= k <= |m| :: StartAnswers(m[k..], c, image, false)
  }

  lemma NotStartedAt(l: seq<Answer>, m: seq<Answer>, k: nat, c: Conn, image: seq<byte>)
    requires |l| <= k <= |m| && StartAnswers(m[k..], c, image, false)
    ensures NotStarted(l, m, c, image)
  {
  }

  // -------------------------------- The server --------------------------------

  class Server {
    var stream: Option<Conn>
    var tx: Tx
    var resp: Slot
    var image: seq<byte>
    var streaming: bool
    var loadBytes: nat
    var wires: map<Conn, Wire>
    ghost var captures: set<Frame>  // frames captured and accepted so far
    ghost var base: nat             // in flight on the stream when its books were opened
    ghost var epoch: seq<Entry>     // its ledger entries since
    ghost var log: seq<Answer>      // what lwIP and the camera have answered

    ghost function Now(): State
      reads this
    {
      State(stream, tx, resp, image, wires, captures, base, epoch)
    }

    constructor (image: seq<byte>)
      ensures Sound(Now()) && wires == map[] && stream == None && tx == TX_RESET
    {
      this.stream, this.tx := None, TX_RESET;
      this.resp := Slot(None, [], [], 0, 0, 0, false);
      this.image, this.streaming, this.loadBytes := image, false, 0;
      this.wires, this.captures, this.base, this.epoch := map[], {}, 0, [];
      this.log := [];
    }

    // ---- lwIP and the camera, with any result they may give ----

    method SndBuf(site: Site, c: Conn) returns (avail: uint16)
      modifies `log
      ensures log == old(log) + [Window(site, c, avail)]
    {
      avail := SomeWindow();
      log := log + [Window(site, c, avail)];
    }

    method SomeWindow() returns (avail: uint16) {
      avail := *;
    }

    /** All of the data or none; `at`, where it stands in the capture buffer if it is not copied. */
    method TcpWrite(site: Site, c: Conn, data: seq<byte>, at: Option<nat>) returns (ok: bool)
      requires c in wires
      modifies `wires, `epoch, `log
      ensures log == old(log) + [Offered(site, c, data, ok)]
      ensures wires == if ok then old(wires)[c := old(wires[c]).Write(data, at)] else old(wires)
      ensures epoch == if ok && stream == Some(c)
                       then old(epoch) + [if at.Some? then Counted(|data|) else Copied(|data|)]
                       else old(epoch)
    {
      ok := *;
      log := log + [Offered(site, c, data, ok)];
      if ok {
        wires := wires[c := wires[c].Write(data, at)];
        if stream == Some(c) {
          epoch := epoch + [if at.Some? then Counted(|data|) else Copied(|data|)];
        }
      }
    }

    method Detach(c: Conn)
      requires c in wires
      modifies `wires
      ensures wires == old(wires)[c := old(wires[c]).(attached := false)]
    {
      wires := wires[c := wires[c].(attached := false)];
    }

    /** The only writer of the capture buffer; bytes that lwIP still reads from it change with it. */
    method GetFrame() returns (failed: bool, length: nat)
      requires tx.state.Idle?
      modifies `image, `wires, `log
      ensures log == old(log) + [Shot(failed, length)]
      ensures !failed ==> length <= |image|
      ensures |image| == |old(image)| && wires == CapturedWires(old(wires), image)
    {
      var before := image;
      failed, image, length := *, *, *;
      if |image| != |before| {
        image := before;
      }
      if length > |image| {
        failed := true;
      }
      log := log + [Shot(failed, length)];
      wires := map c <- wires :: wires[c].Recapture(image);
    }

    // ---- Transmit state ----

    method ResetTx()
      requires stream.Some? ==> stream.value in wires && wires[stream.value].acked <= |wires[stream.value].bytes|
      modifies `tx, `base, `epoch
      ensures tx == TX_RESET && epoch == []
      ensures base == if stream.Some? then wires[stream.value].InFlight() else 0
    {
      tx := TX_RESET;
      base := if stream.Some? then wires[stream.value].InFlight() else 0;
      epoch := [];
    }

    method ReleaseStream(c: Conn)
      modifies `stream, `tx, `base, `epoch
      ensures Now() == if old(stream) == Some(c) then Released(old(Now())) else old(Now())
    {
      if stream == Some(c) {
        stream := None;
        ResetTx();
      }
    }

    method CloseConn(c: Conn)
      requires Sound(Now()) && c in wires
      modifies `stream, `tx, `base, `epoch, `resp, `wires
      ensures Now() == Closed(old(Now()), c) && Sound(Now()) && Kept(old(Now()), Now())
    {
      hide Sound, Kept;
      ClosedOk(Now(), c);
      ReleaseStream(c);
      if resp.pcb == Some(c) {
        resp := resp.(pcb := None);
      }
      Detach(c);
    }

    // ---- Pending response ----

    /** The next `n` bytes of the current segment, all or none. */
    method PumpPiece(n: nat) returns (ok: bool)
      requires resp.pcb.Some? && resp.pcb.value in wires && resp.off + n <= |Segment(resp)|
      modifies `epoch, `resp, `wires, `loadBytes, `log
      ensures log == old(log) + [Offered(ForResponse, old(resp.pcb).value, Segment(old(resp))[old(resp.off)..old(resp.off) + n], ok)]
      ensures Now() == if ok then Pumped(old(Now()), n) else old(Now())
      ensures loadBytes == old(loadBytes) + if ok && resp.isLoad && resp.idx == 1 then n else 0
    {
      hide Segment;
      var c := resp.pcb.value;
      ghost var before := Now();
      ok := TcpWrite(ForResponse, c, Segment(resp)[resp.off..resp.off + n], None);
      if ok {
        var carried := if resp.isLoad && resp.idx == 1 then n else 0;
        loadBytes := loadBytes + carried;
        wires := wires[c := wires[c].(loaded := wires[c].loaded + carried)];
        resp := resp.(off := resp.off + n);
        assert wires == before.wires[c := PumpedWire(before.wires[c], before.resp, n)];
      }
    }

    /** Write as much of the current segment as one call takes; nothing when lwIP takes none. */
    method PumpChunk() returns (chunk: nat)
      requires resp.pcb.Some? && resp.pcb.value in wires && resp.idx < 2 && resp.off < |Segment(resp)|
      modifies `epoch, `resp, `wires, `loadBytes, `log
      ensures chunk <= TCP_CHUNK_MAX && old(resp.off) + chunk <= |Segment(old(resp))|
      ensures Now() == if chunk == 0 then old(Now()) else Pumped(old(Now()), chunk)
      ensures loadBytes - old(loadBytes) == if resp.isLoad && resp.idx == 1 then chunk else 0
      ensures Quiet(old(log), log)
      ensures PumpAnswers(log[|old(log)|..], old(resp.pcb).value, Segment(old(resp))[old(resp.off)..], chunk)
      ensures chunk == 0 ==> Blocked(old(log), log, old(resp.pcb).value)
    {
      hide Pumped, Segment, JpegOf;
      ghost var l, c := log, resp.pcb.value;
      var avail := SndBuf(ForResponse, resp.pcb.value);
      QuietOne(l, Window(ForResponse, c, avail));
      if avail == 0 {
        return 0;
      }
      var remain := |Segment(resp)| - resp.off;
      chunk := if remain > avail then avail else remain;
      if chunk > TCP_CHUNK_MAX {
        chunk := TCP_CHUNK_MAX;
      }
      ghost var m, rest := log, Segment(resp)[resp.off..];
      assert Segment(resp)[resp.off..resp.off + chunk] == rest[..chunk];
      var ok := PumpPiece(chunk);
      QuietOne(m, Offered(ForResponse, c, rest[..chunk], ok));
      assert log[|l|..] == [Window(ForResponse, c, avail), Offered(ForResponse, c, rest[..chunk], ok)];
      if !ok {
        chunk := 0;
      }
    }

    /** The pump's loop: the slot advances, nothing else does, to its end or until lwIP takes no more. */
    method PumpSegments()
      requires Sound(Now()) && resp.pcb.Some?
      modifies `epoch, `resp, `wires, `loadBytes, `log
      ensures Loose(Now()) && Kept(old(Now()), Now()) && resp.pcb == old(resp.pcb)
      ensures resp.pcb.value in old(wires) && wires == old(wires)[resp.pcb.value := wires[resp.pcb.value]]
      ensures wires[resp.pcb.value].purpose == old(wires[resp.pcb.value].purpose) && (resp.idx >= 2 || Blocked(old(log), log, resp.pcb.value)) && Quiet(old(log), log)
      ensures wires[resp.pcb.value].acked == old(wires[resp.pcb.value].acked) && wires[resp.pcb.value].held == old(wires[resp.pcb.value].held)
      ensures loadBytes - old(loadBytes) == wires[resp.pcb.value].loaded - old(wires[resp.pcb.value].loaded)
    {
      hide Loose, Sound, Kept, Quiet, Blocked, PumpAnswers;
      QuietNone(log);
      SoundIsLoose(Now());
      var c := resp.pcb.value;
      while resp.idx < 2
        invariant Loose(Now()) && Kept(old(Now()), Now()) && resp.pcb == Some(c)
        invariant c in wires && wires == old(wires)[c := wires[c]] && wires[c].purpose == old(wires[c].purpose)
        invariant wires[c].acked == old(wires[c].acked) && wires[c].held == old(wires[c].held)
        invariant Quiet(old(log), log)
        invariant loadBytes - old(loadBytes) == wires[c].loaded - old(wires[c].loaded)
        decreases 2 - resp.idx, resp.reps, |Segment(resp)| - resp.off
      {
        ghost var mid := Now();
        SlotInRange(mid);
        if resp.off == |Segment(resp)| {
          RolledOverOk(mid);
          if resp.idx == 1 && resp.reps > 0 {
            resp := resp.(reps := resp.reps - 1, off := 0);
          } else {
            resp := resp.(idx := resp.idx + 1, off := 0);
          }
        } else {
          ghost var heard := log;
          var chunk := PumpChunk();
          QuietTwice(old(log), heard, log);
          if chunk == 0 {
            BlockedOn(old(log), heard, log, c);
            break;
          }
          PumpedOk(mid, chunk);
        }
        KeptTwice(old(Now()), mid, Now());
      }
    }

    /** Drain the slot as far as lwIP allows. It is given back, and its connection closed,
        only once the whole response has been accepted; load is accounted byte for byte. */
    method RespPump()
      requires Sound(Now())
      modifies `stream, `tx, `base, `epoch, `resp, `wires, `loadBytes, `log
      ensures Quiet(old(log), log)
      ensures Sound(Now()) && Kept(old(Now()), Now())
      ensures stream == None || (stream == old(stream) && tx == old(tx))
      ensures old(resp.pcb).None? ==> Now() == old(Now()) && loadBytes == old(loadBytes)
      ensures old(resp.pcb).Some? ==>
        var c := old(resp.pcb.value);
        && c in wires && wires == old(wires)[c := wires[c]]
        && loadBytes - old(loadBytes) == wires[c].loaded - old(wires[c].loaded)
        && wires[c].purpose == old(wires[resp.pcb.value].purpose)
        && wires[c].acked == old(wires[resp.pcb.value].acked) && wires[c].held == old(wires[resp.pcb.value].held)
        && ((resp.pcb == Some(c) && Blocked(old(log), log, c)) ||
            (resp.pcb == None && !wires[c].attached &&
             (wires[c].Clean() ==> wires[c].purpose.Answer? && wires[c].bytes == ReplyBytes(wires[c].purpose.reply))))
    {
      hide Loose, Sound, Kept, JpegOf;
      SoundIsLoose(Now());
      if resp.pcb.None? || resp.idx >= 2 {
        return;
      }
      PumpSegments();
      ghost var pumped := Now();
      SlotInRange(pumped);
      SlotSettled(pumped);
      if resp.idx >= 2 {
        var c := resp.pcb.value;
        resp := resp.(pcb := None);
        ghost var given := Now();
        CloseConn(c);
        KeptTwice(pumped, given, Now());
        KeptTwice(old(Now()), pumped, Now());
      }
    }

    // ---- Callbacks ----

    /** Take the slot for this response, whatever it held, and hand over what lwIP will take. */
    method SendResponse(c: Conn, r: Reply, ghost a: Action)
      requires Sound(Now()) && Awaiting(Now(), c, a) && ReplyTo(a) == Some(r)
      modifies `stream, `tx, `base, `epoch, `resp, `wires, `loadBytes, `log
      ensures Quiet(old(log), log)
      ensures Sound(Now()) && Kept(old(Now()), Now())
      ensures c in wires && wires[c].purpose == Answer(r)
      ensures (resp.pcb == Some(c) && Blocked(old(log), log, c)) ||
        (resp.pcb == None && !wires[c].attached && (wires[c].Clean() ==> wires[c].bytes == ReplyBytes(r)))
    {
      hide Sound, Kept, JpegOf, ReplyTo;
      QueuedOk(Now(), c, r, a);
      resp := Slot(Some(c), r.head, r.body, 0, 0, r.reps, r.isLoad);
      wires := wires[c := wires[c].(purpose := Answer(r))];
      ghost var queued := Now();
      RespPump();
      KeptTwice(old(Now()), queued, Now());
    }

    method TakeOver()
      requires stream.Some? && stream.value in wires
      modifies `stream, `tx, `base, `epoch, `wires
      ensures Now() == TakenOver(old(Now()), old(stream.value))
    {
      var previous := stream.value;
      stream := None;
      ResetTx();
      Detach(previous);
    }

    method OpenOn(c: Conn) returns (sure: bool)
      requires c in wires && wires[c].acked <= |wires[c].bytes|
      modifies `stream, `tx, `base, `epoch, `wires, `log
      ensures log == old(log) + [Offered(ForPreamble, c, PREAMBLE, sure)]
      ensures Now() == Opened(old(Now()), c, sure)
    {
      sure := TcpWrite(ForPreamble, c, PREAMBLE, None);
      wires := wires[c := wires[c].(sure := wires[c].sure && sure, purpose := Stream(false, [], []))];
      stream := Some(c);
      ResetTx();
    }

    /** Hand the stream to the newest request; the old one is closed with its frame cut short. */
    method BeginStream(c: Conn) returns (sure: bool)
      requires Sound(Now()) && Awaiting(Now(), c, OpenStream)
      modifies `stream, `tx, `base, `epoch, `wires, `log
      ensures log == old(log) + [Offered(ForPreamble, c, PREAMBLE, sure)]
      ensures Sound(Now()) && Kept(old(Now()), Now())
      ensures var s := old(Now());
        var free := if s.stream == None || s.stream == Some(c) then s else TakenOver(s, s.stream.value);
        Now() == Opened(free, c, sure)
    {
      hide Sound, Kept, Awaiting;
      SoundIsLoose(Now());
      if stream.Some? && stream != Some(c) {
        TakenOverOk(Now(), c, OpenStream);
        TakeOver();
      }
      ghost var free := Now();
      OpenedOk(free, c, true);
      OpenedOk(free, c, false);
      sure := OpenOn(c);
      KeptTwice(old(Now()), free, Now());
    }

    method HttpRoute(c: Conn, request: Request)
      requires Sound(Now()) && Awaiting(Now(), c, request.action)
      modifies `stream, `tx, `base, `epoch, `resp, `wires, `loadBytes, `streaming, `log
      ensures Quiet(old(log), log)
      ensures Sound(Now()) && Kept(old(Now()), Now())
      ensures request.action.OpenStream? ==> stream == Some(c)
      ensures ReplyTo(request.action).Some? ==>
        c in wires && wires[c].purpose == Answer(ReplyTo(request.action).value)
      ensures request.action.Silent? ==> Now() == old(Now())
      ensures streaming == (if request.streaming.Some? then request.streaming.value else old(streaming))
    {
      hide Sound, Kept, JpegOf, MakeReply, LoadReply;
      SoundIsLoose(Now());
      if request.streaming.Some? {
        streaming := request.streaming.value;
      }
      match request.action
      case OpenStream =>
        ghost var l := log;
        var sure := BeginStream(c);
        QuietOne(l, Offered(ForPreamble, c, PREAMBLE, sure));
      case Respond(status, ctype, cache, body) =>
        SendResponse(c, MakeReply(status, ctype, cache, body, 0, false), request.action);
      case Load(q) =>
        var kb := QueryScan.ParseKb(q);
        SendResponse(c, LoadReply(kb), request.action);
      case Silent =>
    }

    /** Data from the peer, or its close. What is neither the stream nor pending is closed. */
    method RecvCb(c: Conn, request: Option<Request>)
      requires Sound(Now()) && c in wires && wires[c].attached
      modifies this
      ensures Quiet(old(log), log)
      ensures request.None? ==> Now() == Closed(old(Now()), c)
      ensures streaming == if request.Some? && request.value.streaming.Some? then request.value.streaming.value else old(streaming)
      ensures Sound(Now()) && Kept(old(Now()), Now())
      ensures c in wires && (stream == Some(c) || resp.pcb == Some(c) || !wires[c].attached)
      ensures request.Some? && request.value.action.OpenStream? ==> stream == Some(c)
      ensures request.Some? && ReplyTo(request.value.action).Some? ==>
        wires[c].purpose == Answer(ReplyTo(request.value.action).value)
    {
      hide Sound, Kept, JpegOf, ReplyTo;
      if request.None? {
        CloseConn(c);
        return;
      }
      ArrivedOk(Now(), c, request.value.action);
      wires := wires[c := Asking(wires[c], request.value.action)];
      ghost var arrived := Now();
      HttpRoute(c, request.value);
      KeptTwice(old(Now()), arrived, Now());
      ghost var routed := Now();
      GrownIn(old(Now()), routed, c);
      if stream != Some(c) && resp.pcb != Some(c) {
        CloseConn(c);
        KeptTwice(old(Now()), routed, Now());
      }
    }

    /** The peer has acknowledged `len` more bytes of `c`. */
    method SentCb(c: Conn, len: uint16)
      requires Sound(Now()) && c in wires && len <= wires[c].InFlight()
      modifies `tx, `epoch, `wires
      ensures Now() == AckedBy(old(Now()), c, len)
      ensures Sound(Now()) && Kept(old(Now()), Now())
    {
      hide Sound, Kept;
      if stream == Some(c) {
        AckedOnStream(Now(), c, len);
      } else {
        AckedElsewhere(Now(), c, len);
      }
      wires := wires[c := wires[c].(acked := wires[c].acked + len)];
      if stream == Some(c) {
        epoch := epoch + [Acked(len)];
        tx := tx.(unacked := if tx.unacked > len then tx.unacked - len else 0);
      }
    }

    /** A closed connection may still be acknowledged; nobody is told. */
    method LateAck(c: Conn)
      requires Sound(Now()) && c in wires && !wires[c].attached
      modifies `wires
      ensures Sound(Now()) && Kept(old(Now()), Now())
    {
      hide Sound, Kept;
      SoundIsLoose(Now());
      StreamIsAttached(Now());
      var n: int := *;
      if 0 <= n <= wires[c].InFlight() {
        AckedElsewhere(Now(), c, n);
        wires := wires[c := wires[c].(acked := wires[c].acked + n)];
      }
    }

    /** lwIP has dropped a connection: `arg` says which, when it was registered. */
    method ErrCb(arg: Option<Conn>)
      requires Sound(Now()) && (arg.Some? ==> arg.value in wires)
      modifies `stream, `tx, `base, `epoch, `resp, `wires
      ensures Sound(Now()) && Kept(old(Now()), Now())
      ensures Now() == if arg.Some? then Closed(old(Now()), arg.value) else Released(old(Now()))
    {
      hide Sound, Kept;
      if arg.Some? {
        ClosedOk(Now(), arg.value);
        ReleaseStream(arg.value);
        if resp.pcb == arg {
          resp := resp.(pcb := None);
        }
        Detach(arg.value);
      } else {
        ReleasedOk(Now());
        stream := None;
        ResetTx();
      }
    }

    method AcceptCb(c: Conn)
      requires Sound(Now()) && c !in wires
      modifies `wires
      ensures wires == old(wires)[c := NEW_WIRE]
      ensures Sound(Now()) && Kept(old(Now()), Now())
    {
      hide Sound, Kept;
      AcceptedOk(Now(), c);
      wires := wires[c := NEW_WIRE];
    }

    /** Whatever the network brings next: a new connection, or anything on one with callbacks. */
    method NetEvent()
      requires Sound(Now())
      modifies this
      ensures Quiet(old(log), log)
      ensures Sound(Now()) && Kept(old(Now()), Now())
    {
      hide Sound, Kept, JpegOf;
      SoundIsLoose(Now());
      var c: Conn := *;
      if c !in wires {
        AcceptCb(c);
      } else if wires[c].attached {
        var kind: nat, len: uint16, request: Request := *, *, *;
        if kind == 0 {
          RecvCb(c, Some(request));
        } else if kind == 1 {
          RecvCb(c, None);
        } else if kind == 2 && len <= wires[c].InFlight() {
          SentCb(c, len);
        } else if kind == 3 {
          ErrCb(Some(c));
        }
      } else {
        LateAck(c);
      }
    }

    /** Any number of network events. */
    method NetService()
      requires Sound(Now())
      modifies this
      ensures Quiet(old(log), log)
      ensures Sound(Now()) && Kept(old(Now()), Now())
    {
      hide Sound, Kept, JpegOf;
      SoundIsLoose(Now());
      var events: nat := *;
      while events > 0
        invariant Quiet(old(log), log)
        invariant Sound(Now()) && Kept(old(Now()), Now())
      {
        ghost var mid := Now();
        NetEvent();
        KeptTwice(old(Now()), mid, Now());
        events := events - 1;
      }
    }

    // ---- Stream pumping ----

    /** Capture a frame; only a JPEG is kept. */
    method CaptureFrame() returns (usable: bool, size: nat, ghost shot: Answer)
      requires Sound(Now()) && stream.Some? && tx == TX_RESET
      modifies `image, `wires, `captures, `log
      ensures Sound(Now()) && WiresGrow(old(wires), wires) && IntactIfFree(old(wires), wires)
      ensures usable ==> 2 <= size <= |image| && image[..size] in captures
      ensures shot.Shot? && shot.length == size && log == old(log) + [shot] && (usable <==> Usable(shot, image))
    {
      hide Sound, WiresGrow;
      var failed;
      failed, size := GetFrame();
      shot := Shot(failed, size);
      CapturedOk(old(Now()), image);
      if failed || size < 2 || image[0] != 0xFF || image[1] != 0xD8 {
        return false, size, shot;
      }
      captures := captures + {image[..size]};
      return true, size, shot;
    }

    /** Capture a frame and queue its part header; false when there is nothing to send yet. */
    method StartFrame() returns (started: bool)
      requires Sound(Now()) && stream.Some? && tx == TX_RESET
      modifies `tx, `image, `wires, `captures, `base, `epoch, `log
      ensures Sound(Now()) && stream.Some? && WiresGrow(old(wires), wires)
      ensures if started then Pushing(Now()) && tx.state.Sending? else tx == TX_RESET
      ensures IntactIfFree(old(wires), wires)
      ensures Quiet(old(log), log) && StartAnswers(log[|old(log)|..], stream.value, image, started)
      ensures started ==> log[|old(log)|].Shot? && tx == Tx(Sending, 0, log[|old(log)|].length, 0)
    {
      hide Loose, Sound, Pushing, WiresGrow, WiresKept, IntactIfFree, PartHead, CopiedCells, JpegOf;
      ghost var l, c := log, stream.value;
      var usable, size, shot := CaptureFrame();
      ghost var captured := Now();
      QuietOne(l, shot);
      assert log[|l|..] == [shot];
      if !usable {
        return false;
      }
      started := SendHeader(size);
      QuietTwice(l, l + [shot], log);
      assert log[|l|..][1..] == log[|l + [shot]|..];
      GrowTwice(old(wires), captured.wires, wires);
      IntactOn(old(wires), captured.wires, wires);
    }

    /** The part header of the frame in the buffer, if the window has room for all of it. */
    method SendHeader(size: nat) returns (started: bool)
      requires Sound(Now()) && stream.Some? && tx == TX_RESET && 2 <= size <= |image| && image[..size] in captures
      modifies `tx, `wires, `base, `epoch, `log
      ensures Sound(Now()) && stream.Some? && WiresKept(old(wires), wires) && WiresGrow(old(wires), wires)
      ensures if started then Pushing(Now()) && tx == Tx(Sending, 0, size, 0) else tx == TX_RESET
      ensures Quiet(old(log), log) && HeaderAnswers(log[|old(log)|..], stream.value, size, started)
    {
      hide Loose, Sound, Pushing, WiresGrow, WiresKept, PartHead, CopiedCells, JpegOf;
      GrowNone(wires);
      ghost var l, before := log, Now();
      FrameStartedOk(before, size);
      var c := stream.value;
      var head := PartHead(size);
      var avail := SndBuf(ForHeader, c);
      ghost var room := Window(ForHeader, c, avail);
      QuietOne(l, room);
      assert log[|l|..] == [room];
      if avail < |head| {
        return false;
      }
      started := TcpWrite(ForHeader, c, head, None);
      ghost var offer := Offered(ForHeader, c, head, started);
      QuietOne(l + [room], offer);
      QuietTwice(l, l + [room], log);
      assert log[|l|..] == [room, offer];
      if started {
        base, epoch := before.wires[c].InFlight(), [Copied(|head|)];
        wires := wires[c := WithTail(wires[c], head)];
        tx := Tx(Sending, 0, size, 0);
        assert Now() == FrameStarted(before, size);
        KeptOnlyGrows(before.wires, wires);
      }
    }

    /** One piece of the JPEG, by reference. */
    method PushChunk(avail: uint16) returns (ok: bool)
      requires Pushing(Now()) && avail > 0 && tx.offset < tx.size
      modifies `tx, `wires, `epoch, `log
      ensures var n := Piece(old(tx).size - old(tx).offset, avail);
        log == old(log) + [Offered(ForJpeg, old(stream).value, image[old(tx).offset..old(tx).offset + n], ok)]
      ensures Pushing(Now()) && tx.offset <= tx.size && tx.size == old(tx.size)
      ensures WiresKept(old(wires), wires)
      ensures if ok then tx.offset > old(tx.offset) else Now() == old(Now())
    {
      GrowNone(wires);
      hide Loose, Sound, Pushing, WiresGrow, WiresKept, LiveTail, HeldCells, WireOk;
      PushingIsSound(Now());
      var remain := tx.size - tx.offset;
      var chunk := if remain > avail then avail else remain;
      if chunk > TCP_CHUNK_MAX {
        chunk := TCP_CHUNK_MAX;
      }
      ChunkQueuedOk(Now(), chunk);
      var c := stream.value;
      ok := TcpWrite(ForJpeg, c, image[tx.offset..tx.offset + chunk], Some(tx.offset));
      if ok {
        tx := tx.(offset := tx.offset + chunk, unacked := tx.unacked + chunk);
        wires := wires[c := WithTail(wires[c], LiveTail(tx, image))];
        assert Now() == ChunkQueued(old(Now()), chunk);
      }
    }

    /** The window is closed: run the network and the response pump in place. */
    method ServeInLoop() returns (gone: bool)
      requires Pushing(Now()) && tx.offset < tx.size
      modifies this
      ensures Quiet(old(log), log) && WiresKept(old(wires), wires) && image == old(image) && captures == old(captures)
      ensures if gone then Sound(Now()) && stream == None else Pushing(Now()) && stream.Some?
      ensures !gone ==> tx.size - tx.offset <= old(tx).size - old(tx).offset
      ensures !gone && tx.offset < tx.size ==> stream == old(stream)
    {
      hide Loose, Sound, Pushing, Kept, WiresGrow, WiresKept, JpegOf;
      ghost var before, asked := Now(), log;
      PushingIsSound(before);
      NetService();
      ghost var served, heard := Now(), log;
      RespPump();
      QuietTwice(asked, heard, log);
      KeptTwice(before, served, Now());
      KeptGrows(before, Now());
      KeptTx(before, Now());
      gone := stream.None?;
      if !gone {
        StillPushing(before, Now());
      }
    }

    /** Push the JPEG, servicing the network in place while the window is closed. Every pass
        sends something, uses up one of the waits, or leaves, so the passes are bounded
        even with callbacks running inside the loop. It stops short only when the stream is
        gone, its last write was refused, or the window was closed 65 times in a row. */
    method PushJpeg() returns (gone: bool, ghost rounds: nat)
      requires Pushing(Now())
      modifies this
      ensures if gone then Sound(Now()) && stream == None else Pushing(Now()) && tx.offset <= tx.size
      ensures rounds <= 65 * (old(tx.size) - old(tx.offset) + 1)
      ensures var j, k := JpegOf(old(log)), JpegOf(log);
        && old(log) <= log && j <= k && rounds <= |k| - |j| <= 2 * rounds
        && (!gone && tx.offset < tx.size ==> stream == old(stream) && Short(k, |j|, stream.value))
        && (!gone && AllTaken(k, |j|) ==> tx.offset == tx.size)
      ensures WiresKept(old(wires), wires) && image == old(image) && captures == old(captures)
    {
      GrowNone(wires);
      hide Loose, Sound, Pushing, Kept, WiresGrow, WiresKept, JpegOf, Short, AllTaken, Waited;
      PushingIsSound(Now());
      WaitedNone(JpegOf(log), stream.value);
      var waits := 0;
      rounds := 0;
      ghost var j, c := JpegOf(log), stream.value;
      while tx.offset < tx.size
        invariant WiresKept(old(wires), wires) && image == old(image) && captures == old(captures)
        invariant Pushing(Now()) && waits <= SNDBUF_WAIT_ROUNDS && tx.offset <= tx.size
        invariant old(log) <= log && j <= JpegOf(log) && rounds <= |JpegOf(log)| - |j| <= 2 * rounds
        invariant tx.offset < tx.size ==> stream == Some(c) && Waited(JpegOf(log), waits, c) && |j| + waits <= |JpegOf(log)|
        invariant rounds + 65 * (tx.size - tx.offset) <= 65 * (old(tx.size) - old(tx.offset)) + waits
        decreases tx.size - tx.offset, SNDBUF_WAIT_ROUNDS - waits
      {
        ghost var before, k := Now(), JpegOf(log);
        PushingIsSound(before);
        rounds := rounds + 1;
        ghost var l := log;
        var avail := SndBuf(ForJpeg, stream.value);
        JpegSnoc(l, Window(ForJpeg, c, avail));
        if avail == 0 {
          WaitedMore(k, waits, c);
          waits := waits + 1;
          if waits > SNDBUF_WAIT_ROUNDS {
            WaitedIsShort(JpegOf(log), |j|, c);
            break;
          }
          gone := ServeInLoop();
          KeptOn(old(wires), before.wires, wires);
          if gone {
            return;
          }
          PushingIsSound(Now());
          continue;
        }
        waits := 0;
        l := log;
        var ok := PushChunk(avail);
        JpegSnoc(l, log[|l|]);
        KeptOn(old(wires), before.wires, wires);
        WaitedNone(JpegOf(log), c);
        if !ok {
          RefusedIsShort(JpegOf(log), |j|, c);
          break;
        }
      }
      if AllTaken(JpegOf(log), |j|) && tx.offset < tx.size {
        TakenIsNotShort(JpegOf(log), |j|, c);
      }
      gone := false;
    }

    /** Close the part and hold the buffer until it has been acknowledged. */
    method FinishFrame() returns (ok: bool)
      requires Pushing(Now()) && tx.offset >= tx.size
      modifies `tx, `wires, `epoch, `log
      ensures tx == old(tx).(state := Draining)
      ensures stream == old(stream) && stream.Some? && log == old(log) + [Offered(ForLineEnd, stream.value, CRLF, ok)]
      ensures Sound(Now()) && tx.state.Draining? && WiresKept(old(wires), wires)
    {
      hide Loose, Sound, Pushing, WiresGrow, WiresKept;
      PushingIsSound(Now());
      FrameClosedOk(Now(), true);
      FrameClosedOk(Now(), false);
      var c := stream.value;
      var f := image[..tx.size];
      var w := wires[c];
      ok := TcpWrite(ForLineEnd, c, CRLF, None);
      wires := wires[c := ClosedWire(w, f, ok)];
      tx := tx.(state := Draining);
      assert Now() == FrameClosed(old(Now()), ok);
    }

    /** The frame in progress as far as lwIP takes it, and its line end behind it. */
    method ContinueFrame()
      requires Pushing(Now())
      modifies this
      ensures Sound(Now()) && WiresKept(old(wires), wires) && WiresGrow(old(wires), wires)
      ensures image == old(image) && captures == old(captures)
      ensures old(log) <= log && JpegOf(old(log)) <= JpegOf(log)
      ensures stream.None? ==> tx == TX_RESET
      ensures stream.Some? ==>
        if tx.state.Sending? then Short(JpegOf(log), |JpegOf(old(log))|, stream.value)
        else tx.state.Draining? && tx.offset == tx.size && Ended(log, stream.value)
      ensures stream.Some? && AllTaken(JpegOf(log), |JpegOf(old(log))|) ==> tx.state.Draining?
    {
      hide JpegOf, Short, AllTaken, Ended;
      hide Loose, Sound, Pushing, Kept, WiresGrow, WiresKept, IntactIfFree;
      var gone, rounds := PushJpeg();
      KeptOnlyGrows(old(wires), wires);
      if gone {
        StreamGone(Now());
        return;
      }
      if tx.offset >= tx.size {
        ghost var pushed, heard := Now(), log;
        var ok := FinishFrame();
        JpegSnoc(heard, Offered(ForLineEnd, stream.value, CRLF, ok));
        EndedNow(heard, stream.value, ok);
        KeptOn(old(wires), pushed.wires, wires);
      } else {
        PushingIsSound(Now());
      }
    }

    /** One turn of the stream: pump the response, then drain, capture or send.
        The camera is touched only when no frame is held. */
    method StreamPoll(timedOut: bool) returns (captured: bool)
      requires Sound(Now())
      modifies this
      ensures old(log) <= log && JpegOf(old(log)) <= JpegOf(log)
      ensures tx.state.Sending? ==> stream.Some? && Short(JpegOf(log), |JpegOf(old(log))|, stream.value)
      ensures old(tx.state).Sending? && stream.Some? ==>
        tx.state.Sending? || (tx.state.Draining? && Ended(log, stream.value))
      ensures old(tx.state).Sending? && stream.Some? && AllTaken(JpegOf(log), |JpegOf(old(log))|) ==>
        tx.state.Draining? && tx.offset == tx.size && Ended(log, stream.value)
      ensures captured && stream.Some? ==>
        tx.state.Sending? || (tx.state.Draining? && Ended(log, stream.value))
        || (tx.state.Idle? && NotStarted(old(log), log, stream.value, image))
      ensures Sound(Now()) && WiresGrow(old(wires), wires)
      ensures old(tx.state).Draining? && (old(tx.unacked) == 0 || timedOut) ==> tx == TX_RESET
      ensures old(tx.state).Draining? && old(tx.unacked) > 0 && !timedOut ==> tx == old(tx) || stream == None
      ensures captured ==> old(tx.state).Idle? && old(streaming)
      ensures if captured then IntactIfFree(old(wires), wires) else WiresKept(old(wires), wires)
      ensures !captured ==> image == old(image) && captures == old(captures)
      ensures old(resp.pcb).None? && old(stream).Some? && old(tx.state).Idle? && old(streaming) ==> captured
    {
      hide JpegOf, Short, AllTaken, Ended, StartAnswers;
      hide Loose, Sound, Pushing, Kept, WiresGrow, WiresKept, IntactIfFree;
      captured := false;
      RespPump();
      ghost var pumped := Now();
      KeptGrows(old(Now()), pumped);
      KeptTx(old(Now()), pumped);
      if stream.None? {
        return;
      }
      SoundIsLoose(pumped);
      ResetOk(pumped);
      if tx.state.Draining? {
        if tx.unacked == 0 || timedOut {
          ResetTx();
        }
        return;
      }
      if tx.state.Idle? && !streaming {
        return;
      }
      if tx.state.Idle? {
        captured := true;
        ghost var heard := log;
        var started := StartFrame();
        QuietTwice(old(log), heard, log);
        GrowTwice(old(wires), pumped.wires, wires);
        IntactAfter(old(wires), pumped.wires, wires);
        if !started {
          NotStartedAt(old(log), log, |heard|, stream.value, image);
          return;
        }
      }
      ghost var pushing, before := Now(), log;
      ContinueFrame();
      CarriedOn(old(wires), pushing.wires, wires, captured);
    }

    method Service()
      requires Sound(Now())
      modifies this
      ensures tx.state.Sending? ==> stream.Some? && Short(JpegOf(log), |JpegOf(old(log))|, stream.value)
      ensures Sound(Now()) && WiresGrow(old(wires), wires)
    {
      hide Sound, Kept, WiresGrow, JpegOf, Short;
      NetService();
      ghost var served := Now();
      KeptGrows(old(Now()), served);
      var timedOut: bool := *;
      var captured := StreamPoll(timedOut);
      GrowTwice(old(wires), served.wires, wires);
    }

    /** Any number of passes of the main loop, against any network and any camera. */
    method Run(passes: nat)
      requires Sound(Now())
      modifies this
      ensures Sound(Now()) && WiresGrow(old(wires), wires)
    {
      GrowNone(wires);
      hide Sound, WiresGrow;
      for i := 0 to passes
        invariant Sound(Now()) && WiresGrow(old(wires), wires)
      {
        ghost var before := Now();
        Service();
        GrowTwice(old(wires), before.wires, wires);
      }
    }
  }

  // ------------------------------ What follows in every state ------------------------------

  /** On every clean stream connection the bytes as queued read as exactly the finished frames,
      each a whole JPEG of a single capture. */
  lemma EveryStreamReads(s: State, c: Conn)
    requires Sound(s) && c in s.wires && s.wires[c].Clean() && s.wires[c].purpose.Stream?
    ensures var fs := ReadStream(s.wires[c].bytes);
            fs == s.wires[c].purpose.frames && forall f <- fs :: f in s.captures && IsJpeg(f)
  {
    var w := s.wires[c];
    WireIn(s, c);
    ReadStreamInverts(w.purpose.stray, w.purpose.frames, w.purpose.tail, s.captures);
  }

  /**
   * And so do the bytes as they arrive, as far as they have come, whenever lwIP reads them
   * from the capture buffer, while the connection is intact: the receiver has the first of the
   * finished frames, whole, and never one spliced from two captures.
   */
  lemma EveryReceiverReads(s: State, c: Conn, d: seq<byte>)
    requires Sound(s) && c in s.wires && s.wires[c].Clean() && s.wires[c].purpose.Stream?
    requires s.wires[c].intact && MayArrive(s.wires[c].view, d)
    ensures ReadStream(d) <= s.wires[c].purpose.frames
    ensures |d| == |s.wires[c].bytes| ==> ReadStream(d) == s.wires[c].purpose.frames
    ensures forall f <- ReadStream(d) :: f in s.captures && IsJpeg(f)
  {
    hide Sound, ViewOk, Settled, MayArrive, StreamBytes, IsTail, IsJpeg, ReadStream;
    var w := s.wires[c];
    StreamIn(s, c);
    EveryStreamReads(s, c);
    SettledArrives(w.bytes, w.view, d);
    assert |d| == |w.bytes| ==> d == w.bytes;
    ReadStreamPrefix(w.purpose.stray, w.purpose.frames, w.purpose.tail, s.captures, d);
  }

  lemma StreamIn(s: State, c: Conn)
    requires Sound(s) && c in s.wires && s.wires[c].Clean() && s.wires[c].purpose.Stream?
    ensures var w := s.wires[c];
      && w.bytes == StreamBytes(w.purpose.stray, w.purpose.frames, w.purpose.tail)
      && IsTail(w.purpose.tail, s.captures)
      && (w.intact ==> Settled(w.view, w.bytes))
  {
    WireIn(s, c);
    hide StreamBytes, Settled;
  }

  /** A drained frame on a clean stream: what its connection has in flight, what has been
      reported acknowledged since it began, and how much of it is JPEG. */
  lemma DrainedBooks(s: State)
    requires Sound(s) && s.tx.state.Draining? && s.tx.size > 0
    requires s.stream.value in s.wires && s.wires[s.stream.value].Clean()
    ensures var w := s.wires[s.stream.value];
      && w.InFlight() + AckedIn(s.epoch) == s.base + |PartHead(s.tx.size)| + s.tx.size + 2
      && w.InFlight() - 2 == w.held - w.acked && w.InFlight() >= 0
      && ViewOk(w.bytes, w.view, w.held, w.intact)
  {
    hide PartHead, ViewOk;
    WireIn(s, s.stream.value);
    NothingLost(s.base, s.epoch);
  }

  /** A finished drain leaves at most a header's worth of JPEG unacknowledged, plus whatever
      was in flight when the frame began. */
  lemma DrainLeavesAHeader(s: State)
    requires Sound(s) && s.tx.state.Draining? && s.tx.unacked == 0 && s.tx.size > 0
    requires s.stream.value in s.wires && s.wires[s.stream.value].Clean()
    ensures var w := s.wires[s.stream.value]; w.held - w.acked <= s.base + |PartHead(s.tx.size)|
  {
    hide PartHead, ViewOk;
    DrainedBooks(s);
    DrainedBound(s.base, s.epoch);
  }

  /** When a drained frame really leaves the buffer free, no byte lwIP may still send being
      read from it: exactly when the callbacks have reported all that was in flight when the
      frame began, the header, and the whole JPEG. The counter asks for the JPEG alone. */
  lemma DrainFreesBuffer(s: State)
    requires Sound(s) && s.tx.state.Draining? && s.tx.size > 0
    requires s.stream.value in s.wires && s.wires[s.stream.value].Clean()
    ensures var w := s.wires[s.stream.value];
      FreeFrom(w.view, w.acked) <==> AckedIn(s.epoch) >= s.base + |PartHead(s.tx.size)| + s.tx.size
  {
    hide PartHead, ViewOk, FreeFrom;
    DrainedBooks(s);
    var w := s.wires[s.stream.value];
    FreeWhenAcked(w.bytes, w.view, w.held, w.intact, w.acked);
  }

  /** A connection with nothing in flight always lets the next frame start. */
  lemma AckedStreamDrains(s: State)
    requires Sound(s) && s.stream.Some? && s.stream.value in s.wires
    ensures 0 <= s.tx.unacked <= s.wires[s.stream.value].InFlight()
  {
    SlackAtMost(s.base, s.epoch, |s.epoch|);
  }

  /** A connection that is answered carries a prefix of the answer to its own request, header
      and repeated body, and its load is the body bytes accepted. */
  lemma EveryResponseIsPrefix(s: State, c: Conn)
    requires Sound(s) && c in s.wires && s.wires[c].Clean() && s.wires[c].purpose.Answer?
    ensures var w := s.wires[c];
      w.asked.Some? && ReplyTo(w.asked.value).Some? &&
      var r := ReplyTo(w.asked.value).value;
      && w.bytes <= r.head + Copies(r.body, r.reps + 1)
      && w.loaded == (if r.isLoad && |w.bytes| > |r.head| then |w.bytes| - |r.head| else 0)
  {
    WireIn(s, c);
  }

  /** Texts without a carriage return, and a length that fits its 32 bits. */
  predicate Printable(a: Action) {
    a.Respond? ==> 13 !in a.status && 13 !in a.ctype && 13 !in a.cache && |a.body| < U32
  }

  /** What a request is to be answered with, as the client understands it. */
  function Expected(a: Action): Response
    requires a.Respond? || a.Load?
  {
    if a.Respond? then Response(a.status, a.ctype, a.body, []) else LoadResponse(QueryScan.KbOf(a.query))
  }

  lemma AnswerReads(a: Action)
    requires (a.Respond? || a.Load?) && Printable(a)
    ensures var r := ReplyTo(a).value;
      && ReadResponse(ReplyBytes(r)) == Some(Expected(a))
      && forall d | d < ReplyBytes(r) :: ReadResponse(d) == None
  {
    hide MakeReply, LoadReply, LoadResponse, ReadResponse, ReplyBytes, QueryScan.KbOf, Copies;
    if a.Respond? {
      OneCopy(a.body);
      ReplyReads(a.status, a.ctype, a.cache, a.body, 0, false);
    } else {
      LoadReads(QueryScan.KbOf(a.query));
    }
  }

  /** Whatever of an answer has arrived, a client reads it as the response to its own request once
      all of it is there, and as incomplete before. */
  lemma EveryClientReads(s: State, c: Conn, d: seq<byte>)
    requires Sound(s) && c in s.wires && s.wires[c].Clean() && s.wires[c].purpose.Answer?
    requires s.wires[c].asked.Some? && Printable(s.wires[c].asked.value) && d <= s.wires[c].bytes
    ensures var w, a := s.wires[c], s.wires[c].asked.value;
      && (a.Respond? || a.Load?)
      && if d == ReplyBytes(w.purpose.reply) then ReadResponse(d) == Some(Expected(a)) else ReadResponse(d) == None
  {
    var a := s.wires[c].asked.value;
    AnswerIn(s, c);
    hide Sound, ReplyTo, ReplyBytes, ReadResponse, Expected, Printable;
    AnswerReads(a);
  }

  lemma AnswerIn(s: State, c: Conn)
    requires Sound(s) && c in s.wires && s.wires[c].Clean() && s.wires[c].purpose.Answer?
    ensures var w := s.wires[c];
      && w.asked.Some? && (w.asked.value.Respond? || w.asked.value.Load?)
      && ReplyTo(w.asked.value) == Some(w.purpose.reply) && w.bytes <= ReplyBytes(w.purpose.reply)
  {
    WireIn(s, c);
    hide ReplyBytes, MakeReply, LoadReply;
  }

  /** The stream goes to a connection that still has its callbacks and, if it asked once, asked for it. */
  lemma StreamBelongsToAsker(s: State)
    requires Sound(s) && s.stream.Some?
    ensures s.stream.value in s.wires &&
      var w := s.wires[s.stream.value];
      w.attached && (w.Clean() ==> w.asked == Some(OpenStream))
  {
    WireIn(s, s.stream.value);
  }

  // ------------------------------ Writes to a closed connection ------------------------------

  /** The slot names a closed connection: the pump's next write goes to it. */
  ghost predicate Orphaned(s: State) {
    s.resp.pcb.Some? && s.resp.pcb.value in s.wires && !s.wires[s.resp.pcb.value].attached
  }

  /** JPEG bytes never go to a closed connection, and a response only to one that asked twice. */
  lemma OrphanAskedTwice(s: State)
    requires Sound(s)
    ensures s.stream.Some? ==> s.stream.value in s.wires && s.wires[s.stream.value].attached
    ensures Orphaned(s) ==> s.wires[s.resp.pcb.value].requests >= 2
  {
    hide WireOk, StreamWire, SlotWire;
    StreamIsAttached(s);
  }

  /** A takeover closes the old stream without looking at the slot: exactly when the slot
      names that stream, it is left behind. */
  lemma TakeoverOrphans(s: State)
    requires Sound(s) && s.stream.Some? && s.stream.value in s.wires
    ensures Orphaned(TakenOver(s, s.stream.value)) <==> Orphaned(s) || s.resp.pcb == s.stream
  {
    hide Sound;
  }

  /** Nothing else leaves it behind: not a close, an error, a request, an answer, an
      acknowledgement, a new connection, nor a step of either pump. */
  lemma OnlyTakeoverOrphans(s: State, c: Conn, r: Reply, a: Action, n: nat)
    requires c in s.wires && !Orphaned(s)
    ensures !Orphaned(Closed(s, c)) && !Orphaned(Released(s)) && !Orphaned(AckedBy(s, c, n))
    ensures s.wires[c].attached ==> !Orphaned(Queued(s, c, r))
    ensures !Orphaned(s.(wires := s.wires[c := Asking(s.wires[c], a)]))
    ensures s.wires[c].acked <= |s.wires[c].bytes| ==> forall ok :: !Orphaned(Opened(s, c, ok))
    ensures forall d: Conn | d !in s.wires && s.resp.pcb != Some(d) :: !Orphaned(s.(wires := s.wires[d := NEW_WIRE]))
    ensures s.resp.pcb.Some? && s.resp.pcb.value in s.wires && s.resp.off + n <= |Segment(s.resp)| ==> !Orphaned(Pumped(s, n))
    ensures s.stream == Some(c) && s.tx.size <= |s.image| ==> forall ok :: !Orphaned(FrameClosed(s, ok))
    ensures s.stream == Some(c) && s.wires[c].acked <= |s.wires[c].bytes| ==> forall size :: !Orphaned(FrameStarted(s, size))
    ensures s.stream == Some(c) && s.tx.state.Sending? && s.tx.offset + n <= |s.image| ==> !Orphaned(ChunkQueued(s, n))
  {
    hide LiveTail, PartHead, CopiedCells, HeldCells, Segment;
  }

  /** And it happens: a connection with an answer pending asks for the stream, and another one
      takes the stream over. */
  lemma TwoRequestsOrphan(s: State, c: Conn, d: Conn)
    requires Sound(s) && s.resp.pcb == Some(c) && s.stream == None && c != d
    requires c in s.wires && d in s.wires && s.wires[c].attached && s.wires[d].attached
    ensures var asked := s.(wires := s.wires[c := Asking(s.wires[c], OpenStream)]);
      && s.wires[c].acked <= |s.wires[c].bytes|
      && var open := Opened(asked, c, true);
      var again := open.(wires := open.wires[d := Asking(open.wires[d], OpenStream)]);
      && Sound(again) && Awaiting(again, d, OpenStream)
      && Sound(TakenOver(again, c)) && Orphaned(TakenOver(again, c))
  {
    hide Sound, Kept;
    ArrivedOk(s, c, OpenStream);
    var asked := s.(wires := s.wires[c := Asking(s.wires[c], OpenStream)]);
    OpenedOk(asked, c, true);
    var open := Opened(asked, c, true);
    ArrivedOk(open, d, OpenStream);
    var again := open.(wires := open.wires[d := Asking(open.wires[d], OpenStream)]);
    TakenOverOk(again, d, OpenStream);
  }

  // ------------------------------ A capture that comes too early ------------------------------

  /** The JPEG queued in these chunks. */
  ghost function ChunksQueued(s: State, chunks: seq<nat>): (t: State)
    requires s.tx.state.Sending? && s.stream.Some? && s.stream.value in s.wires
    requires s.tx.offset + Sum(chunks) <= |s.image|
    ensures t.stream == s.stream && t.stream.value in t.wires && t.image == s.image && t.tx.state.Sending?
    ensures t.tx.offset == s.tx.offset + Sum(chunks) && t.tx.size == s.tx.size
    decreases |chunks|
  {
    if chunks == [] then s else
      ChunkQueued(ChunksQueued(s, chunks[..|chunks| - 1]), chunks[|chunks| - 1])
  }

  /** Acknowledgements of these sizes reported for the stream. */
  ghost function PiecesAcked(s: State, acks: seq<nat>): (t: State)
    requires s.stream.Some? && s.stream.value in s.wires
    ensures t.stream == s.stream && t.stream.value in t.wires
    decreases |acks|
  {
    if acks == [] then s else
      AckedBy(PiecesAcked(s, acks[..|acks| - 1]), s.stream.value, acks[|acks| - 1])
  }

  /** The same connection with `data` more of the JPEG, which stands in the buffer from `off` on. */
  ghost predicate MoreJpeg(w: Wire, v: Wire, data: seq<byte>, off: nat) {
    && v.bytes == w.bytes + data && v.view == w.view + HeldCells(data, off)
    && v.acked == w.acked && v.requests == w.requests && v.sure == w.sure
    && (w.purpose.Stream? ==> v.purpose.Stream? && v.purpose.frames == w.purpose.frames && v.purpose.stray == w.purpose.stray)
  }

  lemma MoreJpegOn(u: Wire, v: Wire, w: Wire, image: seq<byte>, from: nat, mid: nat, n: nat)
    requires from <= mid && mid + n <= |image|
    requires MoreJpeg(u, v, image[from..mid], from) && MoreJpeg(v, w, image[mid..mid + n], mid)
    ensures MoreJpeg(u, w, image[from..mid + n], from)
  {
    HeldOn(u.bytes, u.view, image, from, mid, n);
    hide HeldCells;
  }

  lemma ChunkGives(s: State, n: nat)
    requires s.tx.state.Sending? && s.stream.Some? && s.stream.value in s.wires && s.tx.offset + n <= |s.image|
    ensures var t := ChunkQueued(s, n);
      && t.epoch == s.epoch + [Counted(n)] && t.base == s.base && t.captures == s.captures
      && MoreJpeg(s.wires[s.stream.value], t.wires[s.stream.value], s.image[s.tx.offset..s.tx.offset + n], s.tx.offset)
  {
    hide LiveTail, HeldCells;
  }

  lemma {:induction false} ChunksOk(s: State, chunks: seq<nat>)
    requires Pushing(s) && s.tx.state.Sending? && s.stream.Some? && s.stream.value in s.wires
    requires s.tx.offset + Sum(chunks) <= s.tx.size <= |s.image| && forall n <- chunks :: n > 0
    ensures var t := ChunksQueued(s, chunks);
      && Pushing(t) && t.epoch == s.epoch + Counts(chunks) && t.base == s.base && t.captures == s.captures
      && MoreJpeg(s.wires[s.stream.value], t.wires[s.stream.value], s.image[s.tx.offset..t.tx.offset], s.tx.offset)
    decreases |chunks|
  {
    hide Pushing, ChunkQueued;
    var c := s.stream.value;
    if chunks == [] {
      assert MoreJpeg(s.wires[c], s.wires[c], [], s.tx.offset);
      assert s.image[s.tx.offset..s.tx.offset] == [];
      assert s.epoch + Counts(chunks) == s.epoch;
    } else {
      var init, n := chunks[..|chunks| - 1], chunks[|chunks| - 1];
      assert n in chunks && forall m <- init :: m in chunks;
      ChunksOk(s, init);
      var m := ChunksQueued(s, init);
      hide MoreJpeg;
      ChunkQueuedOk(m, n);
      ChunkGives(m, n);
      assert s.epoch + Counts(chunks) == m.epoch + [Counted(n)];
      MoreJpegOn(s.wires[c], m.wires[c], ChunkQueued(m, n).wires[c], s.image, s.tx.offset, m.tx.offset, n);
    }
  }

  lemma HeldOn(bytes: seq<byte>, view: seq<Cell>, image: seq<byte>, from: nat, mid: nat, n: nat)
    requires from <= mid && mid + n <= |image|
    ensures bytes + image[from..mid] + image[mid..mid + n] == bytes + image[from..mid + n]
    ensures view + HeldCells(image[from..mid], from) + HeldCells(image[mid..mid + n], mid)
         == view + HeldCells(image[from..mid + n], from)
  {
  }

  lemma {:induction false} PiecesOk(s: State, acks: seq<nat>)
    requires Sound(s) && s.stream.Some? && s.stream.value in s.wires && Sum(acks) <= s.wires[s.stream.value].InFlight()
    ensures var t, c := PiecesAcked(s, acks), s.stream.value;
      && Sound(t) && t.epoch == s.epoch + Acks(acks)
      && t.base == s.base && t.image == s.image && t.captures == s.captures
      && t.tx.state == s.tx.state && t.tx.size == s.tx.size
      && t.wires[c] == s.wires[c].(acked := s.wires[c].acked + Sum(acks))
    decreases |acks|
  {
    hide Sound, Kept;
    if acks == [] {
      assert s.epoch + Acks(acks) == s.epoch;
    } else {
      var init, n := acks[..|acks| - 1], acks[|acks| - 1];
      PiecesOk(s, init);
      AckedOnStream(PiecesAcked(s, init), s.stream.value, n);
      assert s.epoch + Acks(acks) == (s.epoch + Acks(init)) + [Acked(n)];
    }
  }

  /** An idle stream with everything acknowledged so far, and a JPEG in the buffer. */
  ghost predicate ReadyToSend(s: State, size: nat) {
    && Sound(s) && s.stream.Some? && s.stream.value in s.wires && s.tx == TX_RESET
    && 2 <= size <= |s.image| && s.image[..size] in s.captures
    && var w := s.wires[s.stream.value];
    && w.Clean() && w.acked == |w.bytes|
  }

  /** That frame sent in chunks, closed, and acknowledged in pieces. */
  ghost function FrameSent(s: State, size: nat, chunks: seq<nat>, acks: seq<nat>): State
    requires ReadyToSend(s, size) && Sum(chunks) == size
  {
    PiecesAcked(FrameClosed(ChunksQueued(FrameStarted(s, size), chunks), true), acks)
  }

  /** The transmitter let go of a drained frame. */
  ghost function DrainEnded(s: State): State
    requires s.stream.Some? && s.stream.value in s.wires && s.wires[s.stream.value].acked <= |s.wires[s.stream.value].bytes|
  {
    s.(tx := TX_RESET, base := s.wires[s.stream.value].InFlight(), epoch := [])
  }

  lemma QueuedFrame(s: State, size: nat, chunks: seq<nat>)
    requires ReadyToSend(s, size) && Sum(chunks) == size && forall n <- chunks :: n > 0
    ensures var t := FrameClosed(ChunksQueued(FrameStarted(s, size), chunks), true);
      var w, v, head, f := s.wires[s.stream.value], t.wires[s.stream.value], PartHead(size), s.image[..size];
      && Sound(t) && t.stream == s.stream && t.tx.state.Draining? && t.tx.size == size && t.base == 0
      && t.image == s.image && t.captures == s.captures
      && t.epoch == [Copied(|head|)] + Counts(chunks) + [Copied(2)]
      && v.Clean() && v.acked == w.acked
      && v.purpose.Stream? && w.purpose.Stream? && v.purpose.stray == w.purpose.stray && v.purpose.frames == w.purpose.frames + [f]
      && v.bytes == w.bytes + head + f + CRLF
      && v.view == w.view + CopiedCells(head) + HeldCells(f, 0) + CopiedCells(CRLF)
  {
    var a := FrameStarted(s, size);
    FrameStartedOk(s, size);
    StartedClean(s, size);
    var b := ChunksQueued(a, chunks);
    ChunksOk(a, chunks);
    PushingIsSound(b);
    FrameClosedOk(b, true);
    assert s.image[0..size] == s.image[..size];
    hide Sound, Pushing, StartedWire, HeldCells, CopiedCells, PartHead, ReadyToSend;
  }

  lemma StartedClean(s: State, size: nat)
    requires ReadyToSend(s, size)
    ensures var t, w := FrameStarted(s, size), s.wires[s.stream.value];
      var v := t.wires[s.stream.value];
      && w.purpose.Stream? && v.purpose.Stream? && v.Clean() && v.acked == w.acked
      && v.purpose.stray == w.purpose.stray && v.purpose.frames == w.purpose.frames
      && v.bytes == w.bytes + PartHead(size) && v.view == w.view + CopiedCells(PartHead(size))
      && t.base == 0 && t.epoch == [Copied(|PartHead(size)|)]
  {
    hide WiresOk, PartHead, CopiedCells, BooksOk;
  }

  /** The drain of such a frame ends when as many bytes are acknowledged as the JPEG has,
      however the JPEG is cut into writes and the acknowledgements into callbacks. */
  lemma DrainEndsEarly(s: State, size: nat, chunks: seq<nat>, acks: seq<nat>)
    requires ReadyToSend(s, size) && Sum(chunks) == size == Sum(acks) && forall n <- chunks :: n > 0
    ensures var t := FrameSent(s, size, chunks, acks);
      var w, v, head, f := s.wires[s.stream.value], t.wires[s.stream.value], PartHead(size), s.image[..size];
      && Sound(t) && t.stream == s.stream && t.tx.state.Draining? && t.tx.unacked == 0
      && t.image == s.image && t.captures == s.captures
      && v.Clean() && v.acked == |w.bytes| + size
      && v.purpose.Stream? && w.purpose.Stream? && v.purpose.stray == w.purpose.stray && v.purpose.frames == w.purpose.frames + [f]
      && v.bytes == w.bytes + head + f + CRLF
      && v.view == w.view + CopiedCells(head) + HeldCells(f, 0) + CopiedCells(CRLF)
  {
    var q := FrameClosed(ChunksQueued(FrameStarted(s, size), chunks), true);
    QueuedFrame(s, size, chunks);
    hide FrameStarted, ChunksQueued, FrameClosed, PartHead, CopiedCells, HeldCells;
    PiecesOk(q, acks);
    var t := PiecesAcked(q, acks);
    assert t.epoch == FrameEpoch(|PartHead(size)|, chunks, acks);
    DrainedTooEarly(|PartHead(size)|, chunks, acks);
    StreamBooks(t);
  }

  lemma StreamBooks(s: State)
    requires Sound(s) && s.stream.Some?
    ensures s.tx.unacked == Run(s.base, s.epoch).unacked
  {
  }

  /** What an idle clean stream has queued so far, and that it may arrive as queued. */
  lemma IdleStream(s: State)
    requires Sound(s) && s.stream.Some? && s.stream.value in s.wires && s.tx == TX_RESET && s.wires[s.stream.value].Clean()
    ensures var w := s.wires[s.stream.value];
      && w.purpose.Stream? && w.bytes == StreamBytes(w.purpose.stray, w.purpose.frames, [])
      && |w.view| == |w.bytes| && forall i | 0 <= i < |w.view| :: w.bytes[i] in w.view[i].may
  {
    WireIn(s, s.stream.value);
    hide StreamBytes;
  }

  lemma SplicedReads(stray: bool, fs: seq<Frame>, g: Frame)
    ensures ReadStream(StreamBytes(stray, fs, []) + PartHead(|g|) + g + CRLF) == fs + [g]
  {
    var b, tail := StreamBytes(stray, fs, []), PartHead(|g|) + g;
    Assoc(b, PartHead(|g|), g);
    TailGrows(stray, fs, [], tail);
    assert [] + tail == tail;
    TailCloses(stray, fs, g);
    ReadStreamInverts(stray, fs + [g], [], {});
  }

  /** A receiver of everything queued may read these frames. */
  ghost predicate MayRead(w: Wire, fs: seq<Frame>) {
    exists d :: MayArrive(w.view, d) && |d| == |w.bytes| && ReadStream(d) == fs
  }

  /** `v` is the connection `w` after the whole part of `f`, with as many bytes acknowledged as `f` has. */
  ghost predicate PartOut(w: Wire, v: Wire, f: Frame) {
    && v.acked == |w.bytes| + |f| && v.bytes == w.bytes + PartHead(|f|) + f + CRLF
    && v.view == w.view + CopiedCells(PartHead(|f|)) + HeldCells(f, 0) + CopiedCells(CRLF)
  }

  /** The end of the JPEG is still to be read from the buffer, so a capture now disturbs it. */
  lemma SplicedLeft(w: Wire, v: Wire, f: Frame, next: seq<byte>)
    requires |w.view| == |w.bytes| && |PartHead(|f|)| <= |f| && PartOut(w, v, f)
    requires ViewOk(v.bytes, v.view, v.held, v.intact)
    ensures JpegLeft(v, f, |PartHead(|f|)|) && !v.Recapture(next).intact
  {
    var head := PartHead(|f|);
    assert head != [] by { PartHeadNotEmpty(|f|); }
    hide PartHead, CopiedCells, HeldCells, ViewOk;
    HeldToItsEnd(v.bytes, v.view, v.held, v.intact, w.view + CopiedCells(head), f, CopiedCells(CRLF));
    LeftOf(w.bytes, head, f, CRLF);
  }

  lemma SplicedMay(w: Wire, v: Wire, f: Frame, next: seq<byte>)
    requires |w.view| == |w.bytes| && forall i | 0 <= i < |w.view| :: w.bytes[i] in w.view[i].may
    requires |PartHead(|f|)| <= |f| <= |next| && PartOut(w, v, f)
    ensures var d := w.bytes + PartHead(|f|) + Spliced(f, next, |PartHead(|f|)|) + CRLF;
      MayArrive(v.Recapture(next).view, d) && |d| == |v.bytes|
  {
    hide PartHead, CopiedCells, HeldCells, Spliced, MayArrive, Recaptured;
    SplicedArrives(w.bytes, w.view, PartHead(|f|), f, CRLF, next);
  }

  /** And a receiver may get the end of whatever is captured instead. */
  lemma SplicedWire(w: Wire, v: Wire, f: Frame, next: seq<byte>)
    requires w.purpose.Stream? && w.bytes == StreamBytes(w.purpose.stray, w.purpose.frames, [])
    requires |w.view| == |w.bytes| && forall i | 0 <= i < |w.view| :: w.bytes[i] in w.view[i].may
    requires |PartHead(|f|)| <= |f| <= |next| && PartOut(w, v, f)
    ensures MayRead(v.Recapture(next), w.purpose.frames + [Spliced(f, next, |PartHead(|f|)|)])
  {
    hide PartHead, StreamBytes, PartOut, Spliced, MayArrive, MayRead, Recaptured, ReadStream;
    var g := Spliced(f, next, |PartHead(|f|)|);
    SplicedMay(w, v, f, next);
    SplicedReads(w.purpose.stray, w.purpose.frames, g);
    ReadAs(v.Recapture(next), w.bytes + PartHead(|f|) + g + CRLF);
  }

  lemma StillLeft(w: Wire, f: Frame, h: nat, next: seq<byte>)
    requires JpegLeft(w, f, h)
    ensures JpegLeft(w.Recapture(next), f, h)
  {
  }

  lemma ReadAs(w: Wire, d: seq<byte>)
    requires MayArrive(w.view, d) && |d| == |w.bytes|
    ensures MayRead(w, ReadStream(d))
  {
  }

  /** Not acknowledged on the connection: the last `h` bytes of the JPEG, and the line end. */
  ghost predicate JpegLeft(w: Wire, f: Frame, h: nat) {
    h <= |f| && w.acked <= |w.bytes| && w.bytes[w.acked..] == f[|f| - h..] + CRLF
  }

  lemma PartHeadNotEmpty(n: nat)
    ensures PartHead(n) != []
  {
  }

  /**
   * So "the capture waits until everything has been acknowledged" is not what happens. For
   * every idle stream with nothing in flight, every JPEG longer than its part header, every
   * way of cutting it into writes and the acknowledgements into callbacks: the drain ends with
   * as many JPEG bytes still to be sent from the buffer as the header has, and whatever is
   * captured next, a receiver may get a frame that starts as the old capture and ends as the new.
   */
  lemma CapturedTooEarly(s: State, size: nat, chunks: seq<nat>, acks: seq<nat>, next: seq<byte>)
    requires ReadyToSend(s, size) && |PartHead(size)| <= size && |next| == |s.image|
    requires Sum(chunks) == size == Sum(acks) && forall n <- chunks :: 1 <= n <= TCP_CHUNK_MAX
    requires forall n <- acks :: n <= 0xFFFF
    ensures var w, t := s.wires[s.stream.value], FrameSent(s, size, chunks, acks);
      && EndsDrain(t) && t.stream == s.stream
      && var u, h := CapturedInto(DrainEnded(t), next), |PartHead(size)|;
      && Sound(u) && s.stream.value in u.wires && w.purpose.Stream?
      && var v, f := u.wires[s.stream.value], s.image[..size];
      && JpegLeft(v, f, h) && !v.intact && MayRead(v, w.purpose.frames + [Spliced(f, next, h)])
  {
    var c, f := s.stream.value, s.image[..size];
    var t := FrameSent(s, size, chunks, acks);
    DrainEndsEarly(s, size, chunks, acks);
    IdleStream(s);
    assert PartOut(s.wires[c], t.wires[c], f);
    hide FrameSent, MayRead, PartHead, PartOut, StreamBytes, ViewOk, EndsDrain, Spliced, JpegLeft;
    CapturedNext(t, next);
    SplicedLeft(s.wires[c], t.wires[c], f, next);
    SplicedWire(s.wires[c], t.wires[c], f, next);
    StillLeft(t.wires[c], f, |PartHead(size)|, next);
    hide Sound, CapturedInto, DrainEnded, ReadyToSend;
  }

  /** A drained frame about to be let go. */
  ghost predicate EndsDrain(s: State) {
    && Sound(s) && s.tx.state.Draining? && s.tx.unacked == 0
    && s.stream.Some? && s.stream.value in s.wires && s.wires[s.stream.value].acked <= |s.wires[s.stream.value].bytes|
  }

  lemma CapturedNext(t: State, next: seq<byte>)
    requires Sound(t) && t.tx.state.Draining? && t.tx.unacked == 0 && t.stream.Some?
    ensures EndsDrain(t)
    ensures var u, c := CapturedInto(DrainEnded(t), next), t.stream.value;
      && Sound(u) && c in u.wires && u.wires[c] == t.wires[c].Recapture(next)
      && ViewOk(t.wires[c].bytes, t.wires[c].view, t.wires[c].held, t.wires[c].intact)
  {
    ViewIn(t, t.stream.value);
    ResetOk(t);
    CapturedOk(DrainEnded(t), next);
    hide Sound;
  }

  lemma ViewIn(s: State, c: Conn)
    requires Sound(s) && c in s.wires
    ensures var w := s.wires[c]; ViewOk(w.bytes, w.view, w.held, w.intact)
  {
    WireIn(s, c);
  }
}
