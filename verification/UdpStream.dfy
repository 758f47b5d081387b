/** JPEG frames over UDP: the board cuts them into packets, the viewer puts them together. */
module UdpStream {
  import opened Bytes

  type Frame = seq<byte>
  type Packet = seq<byte>

  const HEADER_SIZE: nat := 4
  const PAYLOAD_SIZE: nat := 1396

  // ------------------------------ Packets ------------------------------

  /** How many packets a frame takes. */
  function PacketCount(size: nat): nat {
    (size + PAYLOAD_SIZE - 1) / PAYLOAD_SIZE
  }

  function Min(a: nat, b: nat): nat {
    if a < b then a else b
  }

  /** Slice `k` of the frame. */
  function Chunk(f: Frame, k: nat): seq<byte>
    requires k < PacketCount(|f|)
  {
    f[k * PAYLOAD_SIZE..Min((k + 1) * PAYLOAD_SIZE, |f|)]
  }

  function MakePacket(id: byte, k: byte, total: byte, payload: seq<byte>): Packet {
    [id, k, total, if k as int == total as int - 1 then 1 else 0] + payload
  }

  /** Packet `k` of a frame announced as `total` packets long. */
  function PacketOf(id: byte, f: Frame, total: byte, k: nat): Packet
    requires k < PacketCount(|f|) && k < 256
  {
    MakePacket(id, k as byte, total, Chunk(f, k))
  }

  function Packets(id: byte, f: Frame, total: byte, n: nat): (ps: seq<Packet>)
    requires n <= PacketCount(|f|) && n <= 256
    ensures |ps| == n && forall k | 0 <= k < n :: ps[k] == PacketOf(id, f, total, k)
  {
    if n == 0 then [] else Packets(id, f, total, n - 1) + [PacketOf(id, f, total, n - 1)]
  }

  predicate HasMarker(f: Frame) {
    |f| >= 2 && f[0] == 0xFF && f[1] == 0xD8
  }

  /** The 8-bit packet count the sender works with. */
  function NarrowCount(size: nat): byte {
    (PacketCount(size) % 256) as byte
  }

  /** The four header bytes and the slice, written over the transmit buffer. */
  method FillPacket(tx: array<byte>, id: byte, k: byte, total: byte, payload: seq<byte>)
    requires tx.Length == HEADER_SIZE + PAYLOAD_SIZE && |payload| <= PAYLOAD_SIZE
    modifies tx
    ensures tx[..HEADER_SIZE + |payload|] == MakePacket(id, k, total, payload)
  {
    tx[0] := id;
    tx[1] := k;
    tx[2] := total;
    tx[3] := if k as int == total as int - 1 then 1 else 0;
    forall j | 0 <= j < |payload| {
      tx[HEADER_SIZE + j] := payload[j];
    }
  }

  /** The socket: what was handed to sendto, and what it answered. */
  class Network {
    ghost var log: seq<(Packet, int)>

    method SendTo(p: Packet) returns (status: int)
      modifies this
      ensures log == old(log) + [(p, status)]
    {
      status := *;
      log := log + [(p, status)];
    }
  }

  /** After `before`, the packets `all` in order, every one but the last tried accepted. */
  ghost predicate Tried(before: seq<(Packet, int)>, log: seq<(Packet, int)>, all: seq<Packet>) {
    && before <= log && |log| - |before| <= |all|
    && (forall i | 0 <= i < |log| - |before| :: log[|before| + i].0 == all[i])
    && (forall i | |before| <= i < |log| - 1 :: log[i].1 >= 0)
  }

  /**
   * send_jpeg_frame. The packets go to sendto in order until one fails, whose error is returned,
   * or all have been accepted. The frame is sent whole exactly when its packets fit 8 bits;
   * otherwise a shorter frame is announced and sent in its place, or none.
   */
  method SendJpegFrame(net: Network, frameId: byte, jpeg: Frame) returns (ret: int)
    modifies net
    ensures !HasMarker(jpeg) ==> ret == -1 && net.log == old(net.log)
    ensures HasMarker(jpeg) && NarrowCount(|jpeg|) == 0 ==> ret == -2 && net.log == old(net.log)
    ensures HasMarker(jpeg) && NarrowCount(|jpeg|) != 0 ==>
      var total := NarrowCount(|jpeg|);
      && total as nat <= PacketCount(|jpeg|)
      && Tried(old(net.log), net.log, Packets(frameId, jpeg, total, total as nat))
      && |net.log| > |old(net.log)|
      && var answer := net.log[|net.log| - 1].1;
      if answer < 0 then ret == answer else ret == 1 && |net.log| == |old(net.log)| + total as nat
  {
    hide Chunk, MakePacket;
    if |jpeg| < 2 || jpeg[0] != 0xFF || jpeg[1] != 0xD8 {
      return -1;
    }
    var total: byte := ((|jpeg| + PAYLOAD_SIZE - 1) / PAYLOAD_SIZE % 256) as byte;
    if total == 0 {
      return -2;
    }
    CountNarrows(|jpeg|);
    ghost var before, all := net.log, Packets(frameId, jpeg, total, total as nat);
    var txPacket := new byte[HEADER_SIZE + PAYLOAD_SIZE];
    var k: byte := 0;
    while k < total
      invariant k <= total && Tried(before, net.log, all) && |net.log| == |before| + k as nat
      invariant k > 0 ==> net.log[|net.log| - 1].1 >= 0
      decreases total - k
    {
      var offset := k as nat * PAYLOAD_SIZE;
      SliceAt(jpeg, k as nat);
      var remain := |jpeg| - offset;
      var chunkSize := if remain > PAYLOAD_SIZE then PAYLOAD_SIZE else remain;
      FillPacket(txPacket, frameId, k, total, jpeg[offset..offset + chunkSize]);
      assert txPacket[..HEADER_SIZE + chunkSize] == all[k as nat];
      var status := net.SendTo(txPacket[..HEADER_SIZE + chunkSize]);
      if status < 0 {
        return status;
      }
      k := k + 1;
    }
    ret := 1;
  }

  /** Slice `k` as the sender cuts it. */
  lemma SliceAt(f: Frame, k: nat)
    requires k < PacketCount(|f|)
    ensures k * PAYLOAD_SIZE < |f|
    ensures var remain := |f| - k * PAYLOAD_SIZE;
      Chunk(f, k) == f[k * PAYLOAD_SIZE..k * PAYLOAD_SIZE + (if remain > PAYLOAD_SIZE then PAYLOAD_SIZE else remain)]
  {
    CountFits(|f|, k);
  }

  /** Every packet index below the count starts inside the frame. */
  lemma CountFits(size: nat, k: nat)
    requires k < PacketCount(size)
    ensures k * PAYLOAD_SIZE < size
    ensures k + 1 < PacketCount(size) <==> (k + 1) * PAYLOAD_SIZE < size
  {
  }

  lemma CountNarrows(size: nat)
    ensures NarrowCount(size) as nat <= PacketCount(size)
    ensures NarrowCount(size) as nat == PacketCount(size) <==> size <= 255 * PAYLOAD_SIZE
  {
  }

  /** The flag marks the last packet of what is announced, and no other. */
  lemma FlagMarksLast(id: byte, f: Frame, total: byte, k: nat)
    requires k < PacketCount(|f|) && k < 256
    ensures var p := PacketOf(id, f, total, k);
      && p[0] == id && p[1] as nat == k && p[2] == total
      && p[3] in {0, 1} && (p[3] == 1 <==> k == total as nat - 1)
  {
    hide Chunk;
  }

  /** The board's largest frame takes 147 packets, so narrowing loses nothing there. */
  lemma BoardFramesFit(size: nat)
    requires 2 <= size <= 200 * 1024
    ensures 1 <= NarrowCount(size) as nat == PacketCount(size) <= 147
  {
  }

  /** The first `n` chunks put together. */
  function Joined(f: Frame, n: nat): seq<byte>
    requires n <= PacketCount(|f|)
  {
    if n == 0 then [] else Joined(f, n - 1) + Chunk(f, n - 1)
  }

  /** Chunks are nonempty, never longer than the payload, and tile the frame. */
  lemma {:induction false} ChunksTile(f: Frame, n: nat)
    requires n <= PacketCount(|f|)
    ensures Joined(f, n) == f[..Min(n * PAYLOAD_SIZE, |f|)]
    ensures forall k | 0 <= k < n :: 1 <= |Chunk(f, k)| <= PAYLOAD_SIZE
  {
    forall k | 0 <= k < n
      ensures 1 <= |Chunk(f, k)| <= PAYLOAD_SIZE
    {
      CountFits(|f|, k);
    }
    if n > 0 {
      ChunksTile(f, n - 1);
      CountFits(|f|, n - 1);
    }
  }

  // ------------------------------ Assembler ------------------------------

  type Bucket = map<byte, seq<byte>>
  datatype State = State(buf: map<byte, Bucket>, need: map<byte, byte>)
  const EMPTY := State(map[], map[])

  function BucketOf(s: State, id: byte): Bucket {
    if id in s.buf then s.buf[id] else map[]
  }

  /** The payloads of slots 0, 1, ... `n`-1; a missing slot counts as empty. */
  function Gather(b: Bucket, n: nat): seq<byte>
    requires n <= 256
  {
    if n == 0 then [] else
      Gather(b, n - 1) + (if (n - 1) as byte in b then b[(n - 1) as byte] else [])
  }

  /** The bucket a packet leaves behind. */
  function Filled(s: State, p: Packet): Bucket
    requires |p| > HEADER_SIZE
  {
    BucketOf(s, p[0])[p[1] := p[HEADER_SIZE..]]
  }

  /** One call of add: the new state and the frame it returns, if any. */
  function Added(s: State, p: Packet): (State, Option<Frame>) {
    if |p| <= HEADER_SIZE then (s, None) else
      var id, total := p[0], p[2];
      var b := Filled(s, p);
      if |b| == total as int then
        (State(s.buf - {id}, s.need - {id}), Some(Gather(b, total as nat)))
      else
        (State(s.buf[id := b], s.need[id := total]), None)
  }

  method Join(b: Bucket, total: byte) returns (data: seq<byte>)
    ensures data == Gather(b, total as nat)
  {
    data := [];
    for i := 0 to total as int
      invariant data == Gather(b, i)
    {
      data := data + if i as byte in b then b[i as byte] else [];
    }
  }

  lemma PutAndTake<V>(m: map<byte, V>, k: byte, v: V)
    ensures m[k := v] - {k} == m - {k}
  {
  }

  class Assembler {
    var buf: map<byte, Bucket>
    var need: map<byte, byte>

    constructor ()
      ensures Now() == EMPTY
    {
      buf, need := map[], map[];
    }

    function Now(): State
      reads this
    {
      State(buf, need)
    }

    method Add(p: Packet) returns (frame: Option<Frame>)
      modifies this
      ensures (Now(), frame) == Added(old(Now()), p)
    {
      hide Gather;
      if |p| <= HEADER_SIZE {
        return None;
      }
      ghost var before, b := Now(), Filled(Now(), p);
      var fid, pid, tot := p[0], p[1], p[2];
      if fid !in buf {
        buf := buf[fid := map[]];
      }
      buf := buf[fid := buf[fid][pid := p[HEADER_SIZE..]]];
      need := need[fid := tot];
      assert buf[fid] == b && buf == before.buf[fid := b];
      hide Filled, BucketOf;
      if |buf[fid]| == tot as int {
        var data := Join(buf[fid], tot);
        buf := buf - {fid};
        need := need - {fid};
        PutAndTake(before.buf, fid, b);
        PutAndTake(before.need, fid, tot);
        return Some(data);
      }
      return None;
    }
  }

  /** The state after a run of packets. */
  function After(s: State, ps: seq<Packet>): State {
    if ps == [] then s else Added(After(s, ps[..|ps| - 1]), ps[|ps| - 1]).0
  }

  /** What the call for packet `i` returns. */
  function Output(s: State, ps: seq<Packet>, i: nat): Option<Frame>
    requires i < |ps|
  {
    Added(After(s, ps[..i]), ps[i]).1
  }

  // ------------------------------ No splices ------------------------------

  /** `p` is one of the packets of frame `frames[p[0]]`, as the board sends it. */
  ghost predicate Genuine(p: Packet, frames: map<byte, Frame>) {
    && |p| > HEADER_SIZE && p[0] in frames
    && var f := frames[p[0]];
    && PacketCount(|f|) <= 255
    && p[1] as nat < PacketCount(|f|)
    && p == PacketOf(p[0], f, PacketCount(|f|) as byte, p[1] as nat)
  }

  /** Every slot filled so far holds its own chunk of its own frame, and no frame is complete. */
  ghost predicate Faithful(s: State, frames: map<byte, Frame>) {
    forall id <- s.buf ::
      && id in frames
      && PacketCount(|frames[id]|) <= 255
      && SlotsOf(s.buf[id], frames[id], PacketCount(|frames[id]|))
  }

  /** Slots below `n`, each holding its own chunk. */
  ghost predicate SlotsOf(b: Bucket, f: Frame, n: nat)
    requires n <= PacketCount(|f|)
  {
    forall k <- b :: k as nat < n && b[k] == Chunk(f, k as nat)
  }

  function Slots(n: nat): (s: set<byte>)
    requires n <= 256
    ensures |s| == n && forall k: byte :: k in s <==> k as nat < n
  {
    if n == 0 then {} else Slots(n - 1) + {(n - 1) as byte}
  }

  /** A bucket with as many slots as a frame has packets has exactly its slots. */
  lemma FullBucket(b: Bucket, n: nat)
    requires n <= 256 && (forall k <- b :: k as nat < n) && |b| == n
    ensures b.Keys == Slots(n)
  {
    assert b.Keys <= Slots(n);
    SubsetOfSameSize(b.Keys, Slots(n));
  }

  lemma SubsetOfSameSize(a: set<byte>, b: set<byte>)
    requires a <= b && |a| == |b|
    ensures a == b
  {
    assert b == a + (b - a);
  }

  lemma {:induction false} GatherIsJoined(b: Bucket, f: Frame, n: nat)
    requires n <= PacketCount(|f|) && n <= 255
    requires forall k: byte | k as nat < n :: k in b && b[k] == Chunk(f, k as nat)
    ensures Gather(b, n) == Joined(f, n)
  {
    if n > 0 {
      GatherIsJoined(b, f, n - 1);
      assert (n - 1) as byte in b;
    }
  }

  lemma FilledIsFaithful(s: State, p: Packet, frames: map<byte, Frame>)
    requires Faithful(s, frames) && Genuine(p, frames)
    ensures SlotsOf(Filled(s, p), frames[p[0]], PacketCount(|frames[p[0]]|))
  {
    assert p[HEADER_SIZE..] == Chunk(frames[p[0]], p[1] as nat);
  }

  lemma FullBucketIsFrame(b: Bucket, f: Frame, n: nat)
    requires n <= PacketCount(|f|) && n <= 255 && SlotsOf(b, f, n) && |b| == n
    ensures Gather(b, n) == Joined(f, n) && (n == PacketCount(|f|) ==> Joined(f, n) == f)
  {
    FullBucket(b, n);
    GatherIsJoined(b, f, n);
    ChunksTile(f, n);
    assert f[..|f|] == f;
  }

  lemma FaithfulStep(s: State, p: Packet, frames: map<byte, Frame>)
    requires Faithful(s, frames) && Genuine(p, frames)
    ensures Faithful(Added(s, p).0, frames)
    ensures Added(s, p).1 == None || Added(s, p).1 == Some(frames[p[0]])
  {
    FilledIsFaithful(s, p, frames);
    if |Filled(s, p)| == PacketCount(|frames[p[0]]|) {
      FullBucketIsFrame(Filled(s, p), frames[p[0]], PacketCount(|frames[p[0]]|));
    }
    hide Chunk, Gather, PacketCount;
  }

  lemma {:induction false} FaithfulRun(ps: seq<Packet>, frames: map<byte, Frame>)
    requires forall k | 0 <= k < |ps| :: Genuine(ps[k], frames)
    ensures Faithful(After(EMPTY, ps), frames)
  {
    if ps != [] {
      var init := ps[..|ps| - 1];
      FaithfulRun(init, frames);
      FaithfulStep(After(EMPTY, init), ps[|ps| - 1], frames);
    }
  }

  /** Whatever the channel loses, repeats or reorders, frames with distinct ids never mix:
      each call returns nothing or exactly the frame sent under that id. */
  lemma NoSplice(ps: seq<Packet>, frames: map<byte, Frame>, i: nat)
    requires i < |ps| && forall k | 0 <= k < |ps| :: Genuine(ps[k], frames)
    ensures var p, r := ps[i], Output(EMPTY, ps, i);
            Genuine(p, frames) && (r == None || r == Some(frames[p[0]]))
  {
    FaithfulRun(ps[..i], frames);
    FaithfulStep(After(EMPTY, ps[..i]), ps[i], frames);
  }

  // ------------------------- Delivery in any order -------------------------

  predicate Carries(p: Packet, id: byte) {
    |p| > HEADER_SIZE && p[0] == id
  }

  /** Packet `p` of frame `f`, announced as `t` packets long. */
  ghost predicate SentFor(p: Packet, id: byte, f: Frame, t: byte)
    requires t as nat <= PacketCount(|f|)
  {
    Carries(p, id) && p[1] < t && p == PacketOf(id, f, t, p[1] as nat)
  }

  /** Among the packets, those with this id come from `f` and none comes twice. */
  ghost predicate OnceEach(ps: seq<Packet>, id: byte, f: Frame, t: byte)
    requires t as nat <= PacketCount(|f|)
  {
    && (forall i | 0 <= i < |ps| :: Carries(ps[i], id) ==> SentFor(ps[i], id, f, t))
    && (forall i, j | 0 <= i < j < |ps| :: Carries(ps[i], id) && Carries(ps[j], id) ==> ps[i][1] != ps[j][1])
  }

  /** The packet numbers delivered for an id. */
  function Delivered(ps: seq<Packet>, id: byte): set<byte> {
    if ps == [] then {} else
      var last := ps[|ps| - 1];
      Delivered(ps[..|ps| - 1], id) + (if Carries(last, id) then {last[1]} else {})
  }

  lemma {:induction false} DeliveredIn(ps: seq<Packet>, id: byte, k: byte)
    requires k in Delivered(ps, id)
    ensures exists i | 0 <= i < |ps| :: Carries(ps[i], id) && ps[i][1] == k
  {
    var init, last := ps[..|ps| - 1], ps[|ps| - 1];
    if k in Delivered(init, id) {
      DeliveredIn(init, id, k);
      var i :| 0 <= i < |init| && Carries(init[i], id) && init[i][1] == k;
      assert Carries(ps[i], id);
    } else {
      assert Carries(ps[|ps| - 1], id);
    }
  }

  lemma DeliveredBelow(ps: seq<Packet>, id: byte, f: Frame, t: byte)
    requires t as nat <= PacketCount(|f|) && OnceEach(ps, id, f, t)
    ensures Delivered(ps, id) <= Slots(t as nat) && |Delivered(ps, id)| <= t as nat
    ensures |Delivered(ps, id)| == t as nat <==> Delivered(ps, id) == Slots(t as nat)
  {
    var d, all := Delivered(ps, id), Slots(t as nat);
    forall k | k in d
      ensures k in all
    {
      DeliveredIn(ps, id, k);
    }
    assert all == d + (all - d);
  }

  /** The entry of an id while its frame is coming in: the packets delivered, and no entry once it is whole. */
  ghost predicate Collecting(s: State, ps: seq<Packet>, id: byte, f: Frame, t: byte)
    requires t as nat <= PacketCount(|f|)
  {
    if |Delivered(ps, id)| < t as nat
    then BucketOf(s, id).Keys == Delivered(ps, id) && SlotsOf(BucketOf(s, id), f, t as nat)
    else id !in s.buf
  }

  lemma {:induction false} CollectingRun(s: State, ps: seq<Packet>, id: byte, f: Frame, t: byte)
    requires 1 <= t as nat <= PacketCount(|f|) && OnceEach(ps, id, f, t) && id !in s.buf
    ensures Collecting(After(s, ps), ps, id, f, t)
  {
    if ps != [] {
      var init := ps[..|ps| - 1];
      CollectingRun(s, init, id, f, t);
      CollectingStep(After(s, init), ps, id, f, t);
    }
  }

  /** A packet of another id leaves the entry alone. */
  lemma OtherPacket(s: State, p: Packet, id: byte)
    requires !Carries(p, id)
    ensures BucketOf(Added(s, p).0, id) == BucketOf(s, id) && (id in Added(s, p).0.buf <==> id in s.buf)
  {
    hide Gather, Filled;
  }

  /** A new packet fills its slot; the call that fills the last one returns what is gathered. */
  lemma NewPacket(s: State, p: Packet, d: set<byte>, id: byte, f: Frame, t: byte)
    requires 1 <= t as nat <= PacketCount(|f|) && SentFor(p, id, f, t) && p[1] !in d && |d| < t as nat
    requires BucketOf(s, id).Keys == d && SlotsOf(BucketOf(s, id), f, t as nat)
    ensures BucketOf(s, id)[p[1] := p[HEADER_SIZE..]] == Filled(s, p)
    ensures Filled(s, p).Keys == d + {p[1]} && SlotsOf(Filled(s, p), f, t as nat)
    ensures Added(s, p).1 == if |d| + 1 == t as nat then Some(Joined(f, t as nat)) else None
    ensures if |d| + 1 == t as nat then id !in Added(s, p).0.buf else BucketOf(Added(s, p).0, id) == Filled(s, p)
  {
    PayloadIs(p, id, f, t);
    hide Chunk, Joined, Gather, PacketOf;
    assert |Filled(s, p).Keys| == |d| + 1;
    if |d| + 1 == t as nat {
      FullBucketIsFrame(Filled(s, p), f, t as nat);
    }
  }

  lemma PayloadIs(p: Packet, id: byte, f: Frame, t: byte)
    requires t as nat <= PacketCount(|f|) && SentFor(p, id, f, t)
    ensures p[2] == t && p[HEADER_SIZE..] == Chunk(f, p[1] as nat)
  {
  }

  /** One more packet: the call that completes the frame, and no other of its id, returns it. */
  lemma CollectingStep(s: State, ps: seq<Packet>, id: byte, f: Frame, t: byte)
    requires ps != [] && 1 <= t as nat <= PacketCount(|f|) && OnceEach(ps, id, f, t)
    requires Collecting(s, ps[..|ps| - 1], id, f, t)
    ensures var p := ps[|ps| - 1];
            && Collecting(Added(s, p).0, ps, id, f, t)
            && (Carries(p, id) ==>
              Added(s, p).1 == if |Delivered(ps, id)| == t as nat then Some(Joined(f, t as nat)) else None)
  {
    var init, p := ps[..|ps| - 1], ps[|ps| - 1];
    var d := Delivered(init, id);
    DeliveredBelow(ps, id, f, t);
    if Carries(p, id) {
      NotDeliveredYet(ps, id, f, t);
      assert |d + {p[1]}| == |d| + 1;
      hide SentFor, OnceEach, SlotsOf, PacketCount, Joined, Added;
      assert SentFor(p, id, f, t) by { CarriedIsSent(ps, id, f, t); }
      NewPacket(s, p, d, id, f, t);
    } else {
      OtherPacket(s, p, id);
    }
  }

  lemma CarriedIsSent(ps: seq<Packet>, id: byte, f: Frame, t: byte)
    requires ps != [] && t as nat <= PacketCount(|f|) && OnceEach(ps, id, f, t) && Carries(ps[|ps| - 1], id)
    ensures SentFor(ps[|ps| - 1], id, f, t)
  {
  }

  lemma NotDeliveredYet(ps: seq<Packet>, id: byte, f: Frame, t: byte)
    requires ps != [] && t as nat <= PacketCount(|f|) && OnceEach(ps, id, f, t) && Carries(ps[|ps| - 1], id)
    ensures ps[|ps| - 1][1] !in Delivered(ps[..|ps| - 1], id)
  {
    var init, p := ps[..|ps| - 1], ps[|ps| - 1];
    if p[1] in Delivered(init, id) {
      DeliveredIn(init, id, p[1]);
    }
  }

  /**
   * A frame's packets, each delivered at most once, in any order and among any other packets,
   * into a viewer with no entry for its id: every call for it returns nothing, except the one
   * that completes the set, which returns the chunks joined; then no entry is left.
   */
  lemma Reassembled(s: State, ps: seq<Packet>, id: byte, f: Frame, t: byte, i: nat)
    requires 1 <= t as nat <= PacketCount(|f|) && OnceEach(ps, id, f, t) && id !in s.buf
    requires i < |ps| && Carries(ps[i], id)
    ensures Output(s, ps, i) ==
            if Delivered(ps[..i + 1], id) == Slots(t as nat) then Some(Joined(f, t as nat)) else None
    ensures Delivered(ps, id) == Slots(t as nat) ==> id !in After(s, ps).buf
  {
    hide Delivered, Added, Joined, PacketCount, SlotsOf, Slots;
    CollectingRun(s, ps, id, f, t);
    DeliveredBelow(ps, id, f, t);
    var head := ps[..i + 1];
    assert head[..|head| - 1] == ps[..i];
    assert OnceEach(ps[..i], id, f, t) && OnceEach(head, id, f, t);
    hide OnceEach;
    CollectingRun(s, ps[..i], id, f, t);
    CollectingStep(After(s, ps[..i]), head, id, f, t);
    DeliveredBelow(head, id, f, t);
  }

  /** What is reassembled from a transmission is the frame exactly when its packets fit 8 bits. */
  lemma WholeExactlyWhen(f: Frame)
    ensures NarrowCount(|f|) as nat <= PacketCount(|f|)
    ensures Joined(f, NarrowCount(|f|) as nat) == f <==> |f| <= 255 * PAYLOAD_SIZE
  {
    CountNarrows(|f|);
    var t := NarrowCount(|f|) as nat;
    ChunksTile(f, t);
    if t < PacketCount(|f|) {
      CountFits(|f|, t);
    } else {
      assert f[..|f|] == f;
    }
  }

  // ------------------------------ The whole way ------------------------------

  /** The packets of an id, in the order they come. */
  function CarriedBy(ps: seq<Packet>, id: byte): seq<Packet> {
    if ps == [] then [] else
      CarriedBy(ps[..|ps| - 1], id) + (if Carries(ps[|ps| - 1], id) then [ps[|ps| - 1]] else [])
  }

  /** What send_jpeg_frame hands over for a frame that the board can hold. */
  function SentPackets(id: byte, f: Frame): seq<Packet>
    requires |f| <= 255 * PAYLOAD_SIZE
  {
    CountNarrows(|f|);
    Packets(id, f, NarrowCount(|f|), PacketCount(|f|))
  }

  lemma {:induction false} CarriedIs(ps: seq<Packet>, id: byte, i: nat)
    requires i < |ps| && Carries(ps[i], id)
    ensures ps[i] in CarriedBy(ps, id)
  {
    if i < |ps| - 1 {
      CarriedIs(ps[..|ps| - 1], id, i);
    }
  }

  lemma {:induction false} CarriedTwice(ps: seq<Packet>, id: byte, i: nat, j: nat)
    requires i < j < |ps| && Carries(ps[i], id) && ps[i] == ps[j]
    ensures multiset(CarriedBy(ps, id))[ps[i]] >= 2
  {
    var init := ps[..|ps| - 1];
    if j == |ps| - 1 {
      CarriedIs(init, id, i);
      assert init[i] == ps[i];
    } else {
      CarriedTwice(init, id, i, j);
    }
  }

  lemma PacketsBelow(id: byte, f: Frame, t: byte, n: nat)
    requires n <= PacketCount(|f|) && n <= 256
    ensures forall p <- Packets(id, f, t, n) :: |p| > 1 && p[1] as nat < n
  {
    hide Chunk;
  }

  lemma {:induction false} PacketsDistinct(id: byte, f: Frame, t: byte, n: nat, p: Packet)
    requires n <= PacketCount(|f|) && n <= 256
    ensures multiset(Packets(id, f, t, n))[p] <= 1
  {
    if n > 0 {
      hide PacketOf, PacketCount, Packets;
      PacketsDistinct(id, f, t, n - 1, p);
      PacketsBelow(id, f, t, n - 1);
      PacketNumber(id, f, t, n - 1);
      assert Packets(id, f, t, n) == Packets(id, f, t, n - 1) + [PacketOf(id, f, t, n - 1)];
      assert p == PacketOf(id, f, t, n - 1) ==> p !in Packets(id, f, t, n - 1);
    } else {
      assert Packets(id, f, t, 0) == [];
    }
  }

  lemma PacketNumber(id: byte, f: Frame, t: byte, k: nat)
    requires k < PacketCount(|f|) && k < 256
    ensures var p := PacketOf(id, f, t, k); |p| > 1 && p[1] as nat == k
  {
    hide Chunk;
  }

  /** A permutation of what was sent, among other packets, is each of it once. */
  lemma SentOnceEach(ps: seq<Packet>, id: byte, f: Frame)
    requires 1 <= |f| <= 255 * PAYLOAD_SIZE
    requires multiset(CarriedBy(ps, id)) == multiset(SentPackets(id, f))
    ensures var t := NarrowCount(|f|); t as nat == PacketCount(|f|) && OnceEach(ps, id, f, t)
  {
    CountNarrows(|f|);
    var t := NarrowCount(|f|);
    forall i | 0 <= i < |ps| && Carries(ps[i], id)
      ensures SentFor(ps[i], id, f, t)
    {
      CarriedIs(ps, id, i);
      assert ps[i] in multiset(SentPackets(id, f));
      PacketIsSent(ps[i], id, f);
    }
    forall i, j | 0 <= i < j < |ps| && Carries(ps[i], id) && Carries(ps[j], id)
      ensures ps[i][1] != ps[j][1]
    {
      if ps[i][1] == ps[j][1] {
        assert SentFor(ps[i], id, f, t) && SentFor(ps[j], id, f, t);
        CarriedTwice(ps, id, i, j);
        PacketsDistinct(id, f, t, t as nat, ps[i]);
      }
    }
  }

  lemma PacketIsSent(p: Packet, id: byte, f: Frame)
    requires 1 <= |f| <= 255 * PAYLOAD_SIZE && p in SentPackets(id, f)
    ensures NarrowCount(|f|) as nat == PacketCount(|f|) && SentFor(p, id, f, NarrowCount(|f|))
  {
    CountNarrows(|f|);
    var n := PacketCount(|f|);
    var k :| 0 <= k < n && SentPackets(id, f)[k] == p;
    ChunksTile(f, n);
    hide Chunk;
  }

  lemma {:induction false} AllDelivered(ps: seq<Packet>, id: byte, k: byte)
    requires exists i | 0 <= i < |ps| :: Carries(ps[i], id) && ps[i][1] == k
    ensures k in Delivered(ps, id)
  {
    var i :| 0 <= i < |ps| && Carries(ps[i], id) && ps[i][1] == k;
    if i < |ps| - 1 {
      assert ps[..|ps| - 1][i] == ps[i];
      AllDelivered(ps[..|ps| - 1], id, k);
    }
  }

  lemma {:induction false} CarriedFrom(ps: seq<Packet>, id: byte, p: Packet)
    requires p in CarriedBy(ps, id)
    ensures exists i | 0 <= i < |ps| :: Carries(ps[i], id) && ps[i] == p
  {
    var init, last := ps[..|ps| - 1], ps[|ps| - 1];
    if p in CarriedBy(init, id) {
      CarriedFrom(init, id, p);
      var i :| 0 <= i < |init| && Carries(init[i], id) && init[i] == p;
      assert ps[i] == p;
    } else {
      assert Carries(ps[|ps| - 1], id);
    }
  }

  lemma SentAllDelivered(ps: seq<Packet>, id: byte, f: Frame)
    requires 1 <= |f| <= 255 * PAYLOAD_SIZE
    requires multiset(CarriedBy(ps, id)) == multiset(SentPackets(id, f))
    ensures PacketCount(|f|) <= 255 && Delivered(ps, id) == Slots(PacketCount(|f|))
  {
    CountNarrows(|f|);
    SentOnceEach(ps, id, f);
    hide PacketCount, Chunk, OnceEach, CarriedBy, Delivered, SentPackets;
    DeliveredBelow(ps, id, f, NarrowCount(|f|));
    forall k: byte | k in Slots(PacketCount(|f|))
      ensures k in Delivered(ps, id)
    {
      SlotDelivered(ps, id, f, k);
    }
    hide Slots;
  }

  lemma SlotDelivered(ps: seq<Packet>, id: byte, f: Frame, k: byte)
    requires 1 <= |f| <= 255 * PAYLOAD_SIZE && k as nat < PacketCount(|f|)
    requires multiset(CarriedBy(ps, id)) == multiset(SentPackets(id, f))
    ensures k in Delivered(ps, id)
  {
    hide CarriedBy, Delivered, SentPackets;
    var p := SentAt(id, f, k);
    assert p in multiset(SentPackets(id, f));
    CarriedFrom(ps, id, p);
    AllDelivered(ps, id, k);
  }

  lemma SentAt(id: byte, f: Frame, k: byte) returns (p: Packet)
    requires |f| <= 255 * PAYLOAD_SIZE && k as nat < PacketCount(|f|)
    ensures p in SentPackets(id, f) && |p| > 1 && p[1] == k
  {
    CountNarrows(|f|);
    p := SentPackets(id, f)[k as nat];
    hide Chunk;
  }

  /**
   * From the board's send_jpeg_frame to the viewer's add: for every frame of up to 255 packets,
   * which every frame of 2 to 204800 bytes is, its packets in any order, among any packets of
   * other ids, into a viewer with no entry for its id. The last of them returns exactly the
   * frame, the others nothing, and no entry is left.
   */
  lemma FrameArrives(s: State, ps: seq<Packet>, id: byte, f: Frame, i: nat)
    requires 1 <= |f| <= 255 * PAYLOAD_SIZE && id !in s.buf
    requires multiset(CarriedBy(ps, id)) == multiset(SentPackets(id, f))
    requires i < |ps| && Carries(ps[i], id)
    ensures Output(s, ps, i) == if forall j | i < j < |ps| :: !Carries(ps[j], id) then Some(f) else None
    ensures id !in After(s, ps).buf
  {
    var t := NarrowCount(|f|);
    WholeExactlyWhen(f);
    SentOnceEach(ps, id, f);
    SentAllDelivered(ps, id, f);
    hide SentPackets, Joined, PacketCount;
    Reassembled(s, ps, id, f, t, i);
    if j :| i < j < |ps| && Carries(ps[j], id) {
      LaterMissing(ps, id, f, t, i, j);
    } else {
      DeliveredSame(ps, id, i + 1);
    }
  }

  lemma LaterMissing(ps: seq<Packet>, id: byte, f: Frame, t: byte, i: nat, j: nat)
    requires t as nat <= PacketCount(|f|) && OnceEach(ps, id, f, t) && i < j < |ps| && Carries(ps[j], id)
    ensures Delivered(ps[..i + 1], id) != Slots(t as nat)
  {
    var k := ps[j][1];
    assert SentFor(ps[j], id, f, t);
    if k in Delivered(ps[..i + 1], id) {
      DeliveredIn(ps[..i + 1], id, k);
    }
  }

  lemma {:induction false} DeliveredSame(ps: seq<Packet>, id: byte, n: nat)
    requires n <= |ps| && forall j | n <= j < |ps| :: !Carries(ps[j], id)
    ensures Delivered(ps[..n], id) == Delivered(ps, id)
  {
    if n < |ps| {
      var init := ps[..|ps| - 1];
      assert ps[..n] == init[..n];
      DeliveredSame(init, id, n);
    } else {
      assert ps[..n] == ps;
    }
  }

  // ------------------------------ An id used twice ------------------------------

  /** Packets of two frames sent under one id, lost, repeated and reordered at will. */
  ghost predicate Mixed(ps: seq<Packet>, id: byte, f: Frame, g: Frame)
    requires PacketCount(|f|) <= 255 && PacketCount(|g|) <= 255
  {
    forall i | 0 <= i < |ps| ::
      SentFor(ps[i], id, f, PacketCount(|f|) as byte) || SentFor(ps[i], id, g, PacketCount(|g|) as byte)
  }

  /** Some such delivery makes the viewer return a frame that is neither. */
  ghost predicate CanSplice(id: byte, f: Frame, g: Frame)
    requires PacketCount(|f|) <= 255 && PacketCount(|g|) <= 255
  {
    exists ps, i: nat | i < |ps| && Mixed(ps, id, f, g) ::
      Output(EMPTY, ps, i).Some? && Output(EMPTY, ps, i).value != f && Output(EMPTY, ps, i).value != g
  }

  /** Frames of as many packets that differ in at least two of them. */
  ghost predicate DifferInTwo(f: Frame, g: Frame)
    requires PacketCount(|f|) == PacketCount(|g|)
  {
    exists i, j | 0 <= i < j < PacketCount(|f|) :: Chunk(f, i) != Chunk(g, i) && Chunk(f, j) != Chunk(g, j)
  }

  /** Every slice of `h` is the one or the other frame's. */
  ghost predicate Woven(h: Frame, f: Frame, g: Frame)
    requires PacketCount(|f|) == PacketCount(|g|)
  {
    && PacketCount(|h|) == PacketCount(|f|)
    && forall k | 0 <= k < PacketCount(|f|) :: Chunk(h, k) == Chunk(f, k) || Chunk(h, k) == Chunk(g, k)
  }

  lemma ChunkLength(f: Frame, k: nat)
    requires k < PacketCount(|f|)
    ensures 1 <= |Chunk(f, k)| <= PAYLOAD_SIZE
    ensures k + 1 < PacketCount(|f|) ==> |Chunk(f, k)| == PAYLOAD_SIZE
  {
    CountFits(|f|, k);
  }

  /** Slots filled as packets are: all full but perhaps the last. */
  ghost predicate Cut(b: Bucket, n: nat) {
    && n <= 255 && (forall k: byte | k as nat < n :: k in b && 1 <= |b[k]| <= PAYLOAD_SIZE)
    && (forall k: byte | k as nat + 1 < n :: |b[k]| == PAYLOAD_SIZE)
  }

  lemma {:induction false} GatheredLength(b: Bucket, n: nat, m: nat)
    requires m <= n && Cut(b, n)
    ensures |Gather(b, m)| == (if m < n then m * PAYLOAD_SIZE else |Gather(b, n)|)
    ensures m > 0 ==> (m - 1) * PAYLOAD_SIZE < |Gather(b, m)| <= m * PAYLOAD_SIZE
  {
    if m > 0 {
      GatheredLength(b, n, m - 1);
      assert (m - 1) as byte in b;
    }
  }

  lemma {:induction false} GatherPrefix(b: Bucket, m: nat, n: nat)
    requires m <= n <= 256
    ensures Gather(b, m) <= Gather(b, n)
  {
    if m < n {
      GatherPrefix(b, m, n - 1);
    }
  }

  /** What is put together from such slots is a frame with exactly those slices. */
  lemma GatheredSlices(b: Bucket, n: nat)
    requires Cut(b, n)
    ensures PacketCount(|Gather(b, n)|) == n
    ensures forall k: nat | k < n :: Chunk(Gather(b, n), k) == b[k as byte]
  {
    var h := Gather(b, n);
    GatheredLength(b, n, n);
    forall k: nat | k < n
      ensures Chunk(h, k) == b[k as byte]
    {
      GatheredLength(b, n, k);
      GatheredLength(b, n, k + 1);
      GatherPrefix(b, k, n);
      GatherPrefix(b, k + 1, n);
      assert Gather(b, k + 1) == Gather(b, k) + b[k as byte];
      hide Gather;
      assert h[..|Gather(b, k + 1)|] == Gather(b, k + 1);
    }
  }

  /** Frames with the same slices are the same. */
  lemma SameSlices(f: Frame, g: Frame)
    requires PacketCount(|f|) == PacketCount(|g|)
    requires forall k | 0 <= k < PacketCount(|f|) :: Chunk(f, k) == Chunk(g, k)
    ensures f == g
  {
    JoinedSame(f, g, PacketCount(|f|));
    ChunksTile(f, PacketCount(|f|));
    ChunksTile(g, PacketCount(|g|));
    assert f[..|f|] == f && g[..|g|] == g;
  }

  lemma {:induction false} JoinedSame(f: Frame, g: Frame, n: nat)
    requires n <= PacketCount(|f|) && n <= PacketCount(|g|) && forall k | 0 <= k < n :: Chunk(f, k) == Chunk(g, k)
    ensures Joined(f, n) == Joined(g, n)
  {
    if n > 0 {
      JoinedSame(f, g, n - 1);
    }
  }

  /** A woven frame other than both shows two slots where they differ. */
  lemma WovenDiffers(h: Frame, f: Frame, g: Frame)
    requires PacketCount(|f|) == PacketCount(|g|) && Woven(h, f, g) && h != f && h != g
    ensures DifferInTwo(f, g)
  {
    hide Chunk, PacketCount;
    if forall k | 0 <= k < PacketCount(|f|) :: Chunk(h, k) == Chunk(f, k) {
      SameSlices(h, f);
    } else if forall k | 0 <= k < PacketCount(|f|) :: Chunk(h, k) == Chunk(g, k) {
      SameSlices(h, g);
    } else {
      var i :| 0 <= i < PacketCount(|f|) && Chunk(h, i) != Chunk(f, i);
      var j :| 0 <= j < PacketCount(|f|) && Chunk(h, j) != Chunk(g, j);
      assert Chunk(f, i) != Chunk(g, i) && Chunk(f, j) != Chunk(g, j) && i != j;
    }
  }

  /** The slots of `f`, but that of `g` at `j`. */
  function Swapped(f: Frame, g: Frame, j: nat, n: nat): (b: Bucket)
    requires n <= PacketCount(|f|) && n <= PacketCount(|g|) && n <= 255
    ensures forall k: byte | k as nat < n :: k in b && b[k] == if k as nat == j then Chunk(g, j) else Chunk(f, k as nat)
  {
    map k <- Slots(n) :: if k as nat == j then Chunk(g, j) else Chunk(f, k as nat)
  }

  lemma SwappedCut(f: Frame, g: Frame, j: nat, n: nat)
    requires n == PacketCount(|f|) == PacketCount(|g|) <= 255 && j < n
    ensures Cut(Swapped(f, g, j, n), n)
  {
    var b := Swapped(f, g, j, n);
    forall k: byte | k as nat < n
      ensures 1 <= |b[k]| <= PAYLOAD_SIZE && (k as nat + 1 < n ==> |b[k]| == PAYLOAD_SIZE)
    {
      ChunkLength(f, k as nat);
      ChunkLength(g, k as nat);
      hide Chunk;
    }
    hide Chunk, PacketCount;
  }

  lemma WovenExists(f: Frame, g: Frame) returns (h: Frame)
    requires PacketCount(|f|) == PacketCount(|g|) <= 255 && DifferInTwo(f, g)
    ensures Woven(h, f, g) && h != f && h != g
  {
    hide Chunk, PacketCount, Cut, Gather;
    var n := PacketCount(|f|);
    var i, j :| 0 <= i < j < n && Chunk(f, i) != Chunk(g, i) && Chunk(f, j) != Chunk(g, j);
    var b := Swapped(f, g, j, n);
    SwappedCut(f, g, j, n);
    GatheredSlices(b, n);
    h := Gather(b, n);
    assert Chunk(h, i) == Chunk(f, i) && Chunk(h, j) == Chunk(g, j);
  }

  lemma {:induction false} AllCarried(id: byte, f: Frame, t: byte, n: nat)
    requires n <= PacketCount(|f|) && n <= 255
    ensures CarriedBy(Packets(id, f, t, n), id) == Packets(id, f, t, n)
  {
    if n > 0 {
      var ps := Packets(id, f, t, n);
      AllCarried(id, f, t, n - 1);
      ChunkLength(f, n - 1);
      assert ps[..n - 1] == Packets(id, f, t, n - 1);
      assert Carries(ps[n - 1], id);
    }
  }

  /** A frame's own packets in order: the last returns the frame. */
  lemma InOrder(id: byte, h: Frame)
    requires 1 <= PacketCount(|h|) <= 255
    ensures |h| <= 255 * PAYLOAD_SIZE && Output(EMPTY, SentPackets(id, h), PacketCount(|h|) - 1) == Some(h)
  {
    CountNarrows(|h|);
    var ps := SentPackets(id, h);
    AllCarried(id, h, NarrowCount(|h|), PacketCount(|h|));
    LastCarries(id, h);
    assert |h| >= 1;
    hide SentPackets, PacketCount, Output;
    FrameArrives(EMPTY, ps, id, h, |ps| - 1);
  }

  lemma LastCarries(id: byte, h: Frame)
    requires 1 <= PacketCount(|h|) && |h| <= 255 * PAYLOAD_SIZE
    ensures var n := PacketCount(|h|);
      |SentPackets(id, h)| == n && Carries(SentPackets(id, h)[n - 1], id)
  {
    CountNarrows(|h|);
    ChunkLength(h, PacketCount(|h|) - 1);
    hide Chunk;
  }

  lemma WovenPacket(id: byte, f: Frame, g: Frame, h: Frame, k: nat)
    requires k < PacketCount(|f|) == PacketCount(|g|) <= 255 && Woven(h, f, g)
    ensures var n := PacketCount(|f|) as byte; var p := PacketOf(id, h, n, k);
      SentFor(p, id, f, n) || SentFor(p, id, g, n)
  {
    ChunkLength(h, k);
    hide Chunk, PacketCount;
    if Chunk(h, k) != Chunk(f, k) {
      assert Chunk(h, k) == Chunk(g, k);
    }
  }

  /** Every woven frame is returned on some delivery. */
  lemma WovenArrives(id: byte, f: Frame, g: Frame, h: Frame)
    requires 1 <= PacketCount(|f|) == PacketCount(|g|) <= 255 && Woven(h, f, g)
    ensures |h| <= 255 * PAYLOAD_SIZE && Mixed(SentPackets(id, h), id, f, g)
    ensures Output(EMPTY, SentPackets(id, h), PacketCount(|h|) - 1) == Some(h)
  {
    hide Chunk, Output, PacketOf, SentFor, Packets;
    InOrder(id, h);
    CountNarrows(|h|);
    hide PacketCount;
    var ps := SentPackets(id, h);
    forall i | 0 <= i < |ps|
      ensures var n := PacketCount(|f|) as byte; SentFor(ps[i], id, f, n) || SentFor(ps[i], id, g, n)
    {
      WovenPacket(id, f, g, h, i);
    }
  }

  /** Slots below `n`, each holding its slice of one of the two. */
  ghost predicate WovenSlots(b: Bucket, f: Frame, g: Frame)
    requires PacketCount(|f|) == PacketCount(|g|)
  {
    forall k <- b :: k as nat < PacketCount(|f|) && (b[k] == Chunk(f, k as nat) || b[k] == Chunk(g, k as nat))
  }

  lemma SlotLength(b: Bucket, f: Frame, g: Frame, k: byte)
    requires PacketCount(|f|) == PacketCount(|g|) && WovenSlots(b, f, g) && k in b
    ensures k as nat < PacketCount(|f|) && 1 <= |b[k]| <= PAYLOAD_SIZE
    ensures k as nat + 1 < PacketCount(|f|) ==> |b[k]| == PAYLOAD_SIZE
  {
    ChunkLength(f, k as nat);
    ChunkLength(g, k as nat);
    hide Chunk;
  }

  lemma FullCut(b: Bucket, f: Frame, g: Frame)
    requires PacketCount(|f|) == PacketCount(|g|) <= 255 && WovenSlots(b, f, g) && |b| == PacketCount(|f|)
    ensures Cut(b, PacketCount(|f|)) && b.Keys == Slots(PacketCount(|f|))
  {
    hide WovenSlots, Chunk, PacketCount, Slots;
    var n := PacketCount(|f|);
    forall k <- b
      ensures k as nat < n && 1 <= |b[k]| <= PAYLOAD_SIZE && (k as nat + 1 < n ==> |b[k]| == PAYLOAD_SIZE)
    {
      SlotLength(b, f, g, k);
    }
    FullBucket(b, n);
  }

  lemma FullWoven(b: Bucket, f: Frame, g: Frame)
    requires PacketCount(|f|) == PacketCount(|g|) <= 255 && WovenSlots(b, f, g) && |b| == PacketCount(|f|)
    ensures Woven(Gather(b, |b|), f, g)
  {
    var n := PacketCount(|f|);
    hide Chunk, PacketCount, Gather, Cut;
    FullCut(b, f, g);
    GatheredSlices(b, n);
    forall k | 0 <= k < n
      ensures Chunk(Gather(b, n), k) == Chunk(f, k) || Chunk(Gather(b, n), k) == Chunk(g, k)
    {
      assert k as byte in b.Keys;
    }
  }

  lemma WovenStep(s: State, p: Packet, id: byte, f: Frame, g: Frame)
    requires PacketCount(|f|) == PacketCount(|g|) <= 255
    requires WovenSlots(BucketOf(s, id), f, g)
    requires var n := PacketCount(|f|) as byte; SentFor(p, id, f, n) || SentFor(p, id, g, n)
    ensures WovenSlots(BucketOf(Added(s, p).0, id), f, g)
    ensures Added(s, p).1.Some? ==> Woven(Added(s, p).1.value, f, g)
  {
    var n := PacketCount(|f|) as byte;
    if SentFor(p, id, f, n) {
      PayloadIs(p, id, f, n);
    } else {
      PayloadIs(p, id, g, n);
    }
    hide Chunk, PacketCount, Gather, Woven, SentFor, PacketOf;
    assert WovenSlots(Filled(s, p), f, g);
    if |Filled(s, p)| == n as int {
      FullWoven(Filled(s, p), f, g);
    }
  }

  lemma {:induction false} WovenRun(ps: seq<Packet>, id: byte, f: Frame, g: Frame)
    requires PacketCount(|f|) == PacketCount(|g|) <= 255 && Mixed(ps, id, f, g)
    ensures WovenSlots(BucketOf(After(EMPTY, ps), id), f, g)
  {
    if ps != [] {
      var init := ps[..|ps| - 1];
      assert Mixed(init, id, f, g);
      WovenRun(init, id, f, g);
      WovenStep(After(EMPTY, init), ps[|ps| - 1], id, f, g);
    }
  }

  /** Two frames of as many packets under one id can be spliced exactly when they differ in at
      least two of them. */
  lemma SpliceOfEqual(id: byte, f: Frame, g: Frame)
    requires 1 <= PacketCount(|f|) == PacketCount(|g|) <= 255
    ensures CanSplice(id, f, g) <==> DifferInTwo(f, g)
  {
    hide Chunk, PacketCount, Output;
    if CanSplice(id, f, g) {
      var ps, i: nat :| i < |ps| && Mixed(ps, id, f, g)
        && Output(EMPTY, ps, i).Some? && Output(EMPTY, ps, i).value != f && Output(EMPTY, ps, i).value != g;
      OutputIsWoven(ps, id, f, g, i);
      WovenDiffers(Output(EMPTY, ps, i).value, f, g);
    }
    if DifferInTwo(f, g) {
      var h := WovenExists(f, g);
      WovenArrives(id, f, g, h);
      assert CanSplice(id, f, g) by {
        assert PacketCount(|h|) - 1 < |SentPackets(id, h)|;
      }
    }
  }

  lemma OutputIsWoven(ps: seq<Packet>, id: byte, f: Frame, g: Frame, i: nat)
    requires 1 <= PacketCount(|f|) == PacketCount(|g|) <= 255 && i < |ps| && Mixed(ps, id, f, g)
    ensures Output(EMPTY, ps, i).Some? ==> Woven(Output(EMPTY, ps, i).value, f, g)
  {
    assert Mixed(ps[..i], id, f, g);
    WovenRun(ps[..i], id, f, g);
    WovenStep(After(EMPTY, ps[..i]), ps[i], id, f, g);
  }

  // ---- Frames of different length ----

  /** One packet after `ps`. */
  lemma AfterSnoc(s: State, ps: seq<Packet>, p: Packet)
    ensures After(s, ps + [p]) == Added(After(s, ps), p).0
    ensures Output(s, ps + [p], |ps|) == Added(After(s, ps), p).1
  {
    assert (ps + [p])[..|ps|] == ps;
  }

  /** A packet that completes nothing is kept. */
  lemma PacketKept(s: State, id: byte, f: Frame, t: byte, k: nat)
    requires t as nat <= PacketCount(|f|) && k < t as nat
    ensures var p := PacketOf(id, f, t, k);
      && SentFor(p, id, f, t) && Filled(s, p) == BucketOf(s, id)[k as byte := Chunk(f, k)]
      && (|Filled(s, p)| != t as nat ==> Added(s, p).1 == None && BucketOf(Added(s, p).0, id) == Filled(s, p))
      && (|Filled(s, p)| == t as nat ==> Added(s, p).1 == Some(Gather(Filled(s, p), t as nat)))
  {
    ChunkLength(f, k);
    PayloadIs(PacketOf(id, f, t, k), id, f, t);
    hide Chunk, PacketCount, Gather;
  }

  /** The last slot of the longer frame and the first `k` of the shorter. */
  function Short(f: Frame, g: Frame, k: nat): (b: Bucket)
    requires k < PacketCount(|f|) < PacketCount(|g|) <= 255
    ensures |b| == k + 1 && (PacketCount(|g|) - 1) as byte in b
    ensures forall i: byte :: i in b && i as nat < PacketCount(|f|) <==> i as nat < k
    ensures forall i: byte | i as nat < k :: i in b && b[i] == Chunk(f, i as nat)
  {
    var last := (PacketCount(|g|) - 1) as byte;
    if k == 0 then map[last := Chunk(g, PacketCount(|g|) - 1)] else
      Short(f, g, k - 1)[(k - 1) as byte := Chunk(f, k - 1)]
  }

  /** Those packets, in that order. */
  function ShortPackets(id: byte, f: Frame, g: Frame, k: nat): seq<Packet>
    requires k < PacketCount(|f|) < PacketCount(|g|) <= 255
  {
    [PacketOf(id, g, PacketCount(|g|) as byte, PacketCount(|g|) - 1)] + Packets(id, f, PacketCount(|f|) as byte, k)
  }

  /** The first packet of a frame of more than one. */
  lemma FirstPacket(id: byte, g: Frame, k: nat)
    requires k < PacketCount(|g|) && 2 <= PacketCount(|g|) <= 255
    ensures var p := PacketOf(id, g, PacketCount(|g|) as byte, k);
      && SentFor(p, id, g, PacketCount(|g|) as byte)
      && After(EMPTY, [p]) == Added(EMPTY, p).0 && BucketOf(After(EMPTY, [p]), id) == map[k as byte := Chunk(g, k)]
  {
    var p := PacketOf(id, g, PacketCount(|g|) as byte, k);
    hide Chunk, Added, PacketOf, SentFor, PacketCount;
    PacketKept(EMPTY, id, g, PacketCount(|g|) as byte, k);
    AfterSnoc(EMPTY, [], p);
    assert [] + [p] == [p];
    assert BucketOf(EMPTY, id) == map[];
    assert |Filled(EMPTY, p)| == 1;
  }

  lemma ShortStart(id: byte, f: Frame, g: Frame)
    requires 1 < PacketCount(|f|) < PacketCount(|g|) <= 255
    ensures BucketOf(After(EMPTY, ShortPackets(id, f, g, 0)), id) == Short(f, g, 0)
    ensures Mixed(ShortPackets(id, f, g, 0), id, f, g)
  {
    hide Chunk, After, PacketOf, SentFor, PacketCount;
    FirstPacket(id, g, PacketCount(|g|) - 1);
    assert ShortPackets(id, f, g, 0) == [PacketOf(id, g, PacketCount(|g|) as byte, PacketCount(|g|) - 1)];
  }

  lemma ShortGrows(id: byte, f: Frame, g: Frame, k: nat)
    requires 1 <= k < PacketCount(|f|) < PacketCount(|g|) <= 255
    ensures ShortPackets(id, f, g, k) == ShortPackets(id, f, g, k - 1) + [PacketOf(id, f, PacketCount(|f|) as byte, k - 1)]
    ensures Short(f, g, k) == Short(f, g, k - 1)[(k - 1) as byte := Chunk(f, k - 1)]
  {
    hide PacketOf, Chunk, PacketCount;
  }

  lemma {:induction false} ShortRun(id: byte, f: Frame, g: Frame, k: nat)
    requires k + 1 < PacketCount(|f|) < PacketCount(|g|) <= 255
    ensures BucketOf(After(EMPTY, ShortPackets(id, f, g, k)), id) == Short(f, g, k)
    ensures Mixed(ShortPackets(id, f, g, k), id, f, g)
  {
    hide Chunk, Added, PacketOf, SentFor, PacketCount, ShortPackets, Short, After;
    if k == 0 {
      ShortStart(id, f, g);
    } else {
      var n := PacketCount(|f|) as byte;
      ShortRun(id, f, g, k - 1);
      ShortGrows(id, f, g, k);
      var ps := ShortPackets(id, f, g, k - 1);
      PacketKept(After(EMPTY, ps), id, f, n, k - 1);
      AfterSnoc(EMPTY, ps, PacketOf(id, f, n, k - 1));
    }
  }

  lemma {:induction false} ShortGathered(f: Frame, g: Frame, k: nat, j: nat)
    requires j <= k < PacketCount(|f|) < PacketCount(|g|) <= 255
    ensures Gather(Short(f, g, k), j) == Joined(f, j)
  {
    if j > 0 {
      ShortGathered(f, g, k, j - 1);
      assert (j - 1) as byte in Short(f, g, k);
    }
  }

  /** The shorter frame without its last packet, returned because one of the longer stands in for it. */
  lemma Truncated(id: byte, f: Frame, g: Frame)
    requires 2 <= PacketCount(|f|) < PacketCount(|g|) <= 255
    ensures CanSplice(id, f, g)
  {
    var ps := ShortReturned(id, f, g);
    var n := PacketCount(|f|);
    CountFits(|f|, n - 1);
    assert |f| < |g|;
    hide Output, Mixed, PacketCount;
    assert |ps| - 1 < |ps|;
  }

  lemma ShortReturned(id: byte, f: Frame, g: Frame) returns (ps: seq<Packet>)
    requires 2 <= PacketCount(|f|) < PacketCount(|g|) <= 255
    ensures var a := (PacketCount(|f|) - 1) * PAYLOAD_SIZE;
      a < |f| && Mixed(ps, id, f, g) && ps != [] && Output(EMPTY, ps, |ps| - 1) == Some(f[..a])
  {
    hide Added, Output, Chunk, PacketOf, ShortPackets, After, Short, SentFor, Joined;
    var n := PacketCount(|f|);
    CountFits(|f|, n - 1);
    var init, p := ShortPackets(id, f, g, n - 2), PacketOf(id, f, n as byte, n - 2);
    ShortRun(id, f, g, n - 2);
    ShortGrows(id, f, g, n - 1);
    PacketKept(After(EMPTY, init), id, f, n as byte, n - 2);
    AfterSnoc(EMPTY, init, p);
    ShortGathered(f, g, n - 1, n - 1);
    assert (n - 1) as byte !in Short(f, g, n - 1);
    assert Gather(Short(f, g, n - 1), n) == Joined(f, n - 1);
    ChunksTile(f, n - 1);
    hide PacketCount, Filled, Gather;
    ps := init + [p];
    assert Output(EMPTY, ps, |init|) == Some(Gather(Short(f, g, n - 1), n));
  }

  /** A frame of one packet and all but the first of a longer one. */
  function Long(f: Frame, g: Frame, k: nat): (b: Bucket)
    requires 1 <= k < PacketCount(|g|) <= 255
    ensures |b| == k + 1 && 0 in b && b[0] == f
    ensures forall i: byte :: i in b <==> i as nat <= k
    ensures forall i: byte | 1 <= i as nat <= k :: b[i] == Chunk(g, i as nat)
  {
    if k == 1 then map[1 := Chunk(g, 1), 0 := f] else Long(f, g, k - 1)[k as byte := Chunk(g, k)]
  }

  function LongPackets(id: byte, f: Frame, g: Frame, k: nat): seq<Packet>
    requires PacketCount(|f|) == 1 <= k < PacketCount(|g|) <= 255
  {
    var m := PacketCount(|g|) as byte;
    if k == 1 then [PacketOf(id, g, m, 1)] + [PacketOf(id, f, 1, 0)]
    else LongPackets(id, f, g, k - 1) + [PacketOf(id, g, m, k)]
  }

  lemma LongStart(id: byte, f: Frame, g: Frame)
    requires PacketCount(|f|) == 1 < PacketCount(|g|) <= 255
    ensures BucketOf(After(EMPTY, LongPackets(id, f, g, 1)), id) == Long(f, g, 1)
    ensures Mixed(LongPackets(id, f, g, 1), id, f, g)
  {
    var m := PacketCount(|g|) as byte;
    var p, q := PacketOf(id, g, m, 1), PacketOf(id, f, 1, 0);
    assert Chunk(f, 0) == f;
    hide Chunk, Added, PacketOf, SentFor;
    FirstPacket(id, g, 1);
    PacketKept(After(EMPTY, [p]), id, f, 1, 0);
    AfterSnoc(EMPTY, [p], q);
  }

  lemma {:induction false} LongRun(id: byte, f: Frame, g: Frame, k: nat)
    requires PacketCount(|f|) == 1 <= k < PacketCount(|g|) <= 255 && (k > 1 ==> k + 1 < PacketCount(|g|))
    ensures BucketOf(After(EMPTY, LongPackets(id, f, g, k)), id) == Long(f, g, k)
    ensures Mixed(LongPackets(id, f, g, k), id, f, g)
  {
    hide Chunk, Added, PacketOf, SentFor, After;
    if k == 1 {
      LongStart(id, f, g);
    } else {
      var m := PacketCount(|g|) as byte;
      LongRun(id, f, g, k - 1);
      var ps := LongPackets(id, f, g, k - 1);
      PacketKept(After(EMPTY, ps), id, g, m, k);
      AfterSnoc(EMPTY, ps, PacketOf(id, g, m, k));
    }
  }

  lemma SliceOn(f: Frame, g: Frame, a: nat, b: nat, c: nat)
    requires a <= b <= c <= |g|
    ensures (f + g[a..b]) + g[b..c] == f + g[a..c]
  {
  }

  lemma {:induction false} LongGathered(f: Frame, g: Frame, k: nat, j: nat)
    requires 1 <= k < PacketCount(|g|) <= 255 && 1 <= j <= k + 1
    ensures (j - 1) * PAYLOAD_SIZE < |g|
    ensures PAYLOAD_SIZE < |g| && Gather(Long(f, g, k), j) == f + g[PAYLOAD_SIZE..Min(j * PAYLOAD_SIZE, |g|)]
  {
    CountFits(|g|, j - 1);
    CountFits(|g|, 1);
    var b := Long(f, g, k);
    assert (j - 1) as byte in b;
    hide Long;
    if j == 1 {
      assert Gather(b, 0) == [];
      assert g[PAYLOAD_SIZE..PAYLOAD_SIZE] == [];
    } else {
      LongGathered(f, g, k, j - 1);
      SliceOn(f, g, PAYLOAD_SIZE, (j - 1) * PAYLOAD_SIZE, Min(j * PAYLOAD_SIZE, |g|));
    }
  }

  lemma LongLast(f: Frame, g: Frame, k: nat)
    requires 1 <= k < PacketCount(|g|) <= 255 && k == (if PacketCount(|g|) == 2 then 1 else PacketCount(|g|) - 2)
    ensures var m := PacketCount(|g|);
      Long(f, g, k)[(m - 1) as byte := Chunk(g, m - 1)] == Long(f, g, m - 1)
  {
    hide Chunk;
  }

  lemma LongReturned(id: byte, f: Frame, g: Frame) returns (ps: seq<Packet>)
    requires PacketCount(|f|) == 1 < PacketCount(|g|) <= 255
    ensures Mixed(ps, id, f, g) && ps != [] && |g| > PAYLOAD_SIZE
    ensures Output(EMPTY, ps, |ps| - 1) == Some(f + g[PAYLOAD_SIZE..])
  {
    hide Added, Output, Chunk, PacketOf, LongPackets, After, Long, Gather, SentFor;
    var m := PacketCount(|g|);
    var k := if m == 2 then 1 else m - 2;
    var init, p := LongPackets(id, f, g, k), PacketOf(id, g, m as byte, m - 1);
    LongRun(id, f, g, k);
    LongLast(f, g, k);
    PacketKept(After(EMPTY, init), id, g, m as byte, m - 1);
    AfterSnoc(EMPTY, init, p);
    LongGathered(f, g, m - 1, m);
    CountFits(|g|, m - 1);
    hide PacketCount, Filled;
    ps := init + [p];
    assert Output(EMPTY, ps, |init|) == Some(Gather(Long(f, g, m - 1), m));
    assert Min(m * PAYLOAD_SIZE, |g|) == |g|;
    assert g[PAYLOAD_SIZE..|g|] == g[PAYLOAD_SIZE..];
  }

  lemma Cancel(a: seq<byte>, b: seq<byte>, rest: seq<byte>)
    requires a + rest == b + rest
    ensures a == b
  {
    assert |a + rest| == |b + rest|;
    assert (a + rest)[..|a|] == a && (b + rest)[..|b|] == b;
  }

  /** The longer frame with the short one in place of its first packet. */
  lemma Replaced(id: byte, f: Frame, g: Frame)
    requires PacketCount(|f|) == 1 < PacketCount(|g|) <= 255 && f != Chunk(g, 0)
    ensures CanSplice(id, f, g)
  {
    var ps := LongReturned(id, f, g);
    var x, a, rest := f + g[PAYLOAD_SIZE..], Chunk(g, 0), g[PAYLOAD_SIZE..];
    assert g == a + rest;
    hide Output, Chunk, Mixed, PacketCount;
    if x == g {
      Cancel(f, a, rest);
    }
    assert |x| > |f|;
    assert |ps| - 1 < |ps|;
  }

  lemma StartStep(s: State, p: Packet, id: byte, f: Frame, g: Frame)
    requires PacketCount(|f|) == 1 < PacketCount(|g|) <= 255 && f == Chunk(g, 0)
    requires SlotsOf(BucketOf(s, id), g, PacketCount(|g|))
    requires SentFor(p, id, f, 1) || SentFor(p, id, g, PacketCount(|g|) as byte)
    ensures SlotsOf(BucketOf(Added(s, p).0, id), g, PacketCount(|g|))
    ensures Added(s, p).1.Some? ==> Added(s, p).1.value in {f, g}
  {
    var m := PacketCount(|g|);
    assert Chunk(f, 0) == f;
    if SentFor(p, id, f, 1) {
      PayloadIs(p, id, f, 1);
      assert Filled(s, p)[0] == f && 0 in Filled(s, p);
      assert Gather(Filled(s, p), 1) == f by { assert Gather(Filled(s, p), 0) == []; }
    } else {
      PayloadIs(p, id, g, m as byte);
      if |Filled(s, p)| == m {
        FullBucketIsFrame(Filled(s, p), g, m);
      }
    }
    hide Chunk, PacketCount, Gather, SentFor, PacketOf, Joined;
  }

  lemma {:induction false} StartRun(ps: seq<Packet>, id: byte, f: Frame, g: Frame)
    requires PacketCount(|f|) == 1 < PacketCount(|g|) <= 255 && f == Chunk(g, 0) && Mixed(ps, id, f, g)
    ensures SlotsOf(BucketOf(After(EMPTY, ps), id), g, PacketCount(|g|))
  {
    if ps != [] {
      var init := ps[..|ps| - 1];
      assert Mixed(init, id, f, g);
      StartRun(init, id, f, g);
      StartStep(After(EMPTY, init), ps[|ps| - 1], id, f, g);
    }
  }

  lemma StartNeverSplices(id: byte, f: Frame, g: Frame)
    requires PacketCount(|f|) == 1 < PacketCount(|g|) <= 255 && f == Chunk(g, 0)
    ensures !CanSplice(id, f, g)
  {
    forall ps, i: nat | i < |ps| && Mixed(ps, id, f, g)
      ensures Output(EMPTY, ps, i).Some? ==> Output(EMPTY, ps, i).value in {f, g}
    {
      assert Mixed(ps[..i], id, f, g);
      StartRun(ps[..i], id, f, g);
      StartStep(After(EMPTY, ps[..i]), ps[i], id, f, g);
    }
    hide Output, Chunk, PacketCount, Mixed;
  }

  /** When a frame can be spliced from two: of as many packets, if they differ in two of them;
      otherwise if the shorter has two packets or is not just the start of the longer. */
  ghost predicate Spliceable(f: Frame, g: Frame)
    requires 1 <= PacketCount(|f|) && 1 <= PacketCount(|g|)
  {
    if PacketCount(|f|) == PacketCount(|g|) then DifferInTwo(f, g)
    else if PacketCount(|f|) < PacketCount(|g|) then PacketCount(|f|) >= 2 || f != Chunk(g, 0)
    else PacketCount(|g|) >= 2 || g != Chunk(f, 0)
  }

  lemma SpliceEitherWay(id: byte, f: Frame, g: Frame)
    requires PacketCount(|f|) <= 255 && PacketCount(|g|) <= 255 && CanSplice(id, f, g)
    ensures CanSplice(id, g, f)
  {
    hide Output, PacketCount;
    var ps, i: nat :| i < |ps| && Mixed(ps, id, f, g)
      && Output(EMPTY, ps, i).Some? && Output(EMPTY, ps, i).value != f && Output(EMPTY, ps, i).value != g;
    assert Mixed(ps, id, g, f);
  }

  /**
   * A frame id used again, any two frames, any loss, repetition and order: exactly when the
   * viewer can be made to return something that is neither frame.
   */
  lemma SpliceOnReuse(id: byte, f: Frame, g: Frame)
    requires 1 <= PacketCount(|f|) <= 255 && 1 <= PacketCount(|g|) <= 255
    ensures CanSplice(id, f, g) <==> Spliceable(f, g)
  {
    hide Chunk, CanSplice, DifferInTwo;
    if PacketCount(|f|) == PacketCount(|g|) {
      SpliceOfEqual(id, f, g);
    } else if PacketCount(|f|) < PacketCount(|g|) {
      SpliceOfUnequal(id, f, g);
    } else {
      SpliceOfUnequal(id, g, f);
      if CanSplice(id, f, g) {
        SpliceEitherWay(id, f, g);
      } else if CanSplice(id, g, f) {
        SpliceEitherWay(id, g, f);
      }
    }
  }

  lemma SpliceOfUnequal(id: byte, f: Frame, g: Frame)
    requires 1 <= PacketCount(|f|) < PacketCount(|g|) <= 255
    ensures CanSplice(id, f, g) <==> PacketCount(|f|) >= 2 || f != Chunk(g, 0)
  {
    hide Chunk, CanSplice;
    if PacketCount(|f|) >= 2 {
      Truncated(id, f, g);
    } else if f != Chunk(g, 0) {
      Replaced(id, f, g);
    } else {
      StartNeverSplices(id, f, g);
    }
  }
}
