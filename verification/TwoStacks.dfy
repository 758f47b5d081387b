/** The same /load query on the two network stacks. */
module TwoStacks {
  import opened Bytes
  import opened HttpReply
  import QueryScan
  import Lwip = LwipServer
  import Toe = ToeServer

  lemma LoadReplyShape(kb: nat)
    ensures var r := LoadReply(kb);
      && |ReplyBytes(r)| == |r.head| + |Copies(r.body, r.reps + 1)|
      && (if kb == 0 then !r.isLoad else r.isLoad && |ReplyBytes(r)| == |r.head| + LOAD_CHUNK_SIZE * kb)
  {
    var r := LoadReply(kb);
    assert kb > 0 ==> r.reps + 1 == kb && |r.body| == LOAD_CHUNK_SIZE;
    CopiesLength(r.body, r.reps + 1);
  }

  /** What a TOE connection that asked for load carries and accounts. */
  lemma ToeLoad(t: Toe.State, d: nat, q: string)
    requires Toe.Sound(t) && d in t.links && t.links[d].asked == Some(Toe.Load(q))
    ensures var r, l := LoadReply(QueryScan.KbOf(q)), t.links[d];
      l.bytes <= ReplyBytes(r) && l.loaded <= LoadBytes(r, |l.bytes|) < l.loaded + LOAD_CHUNK_SIZE
      && (l.bytes == ReplyBytes(r) ==> l.loaded == LoadBytes(r, |l.bytes|))
  {
    hide LoadReply, QueryScan.KbOf, ReplyBytes, LoadBytes;
    assert Toe.LinkOk(t.links[d], t.captures);
  }

  /**
   * Both connections carry prefixes of one and the same response, so a completed one is byte
   * for byte the same and accounts the same total. On a cut-off the lwIP count is the body
   * bytes handed over; the TOE count is the whole blocks among them.
   */
  lemma LoadsAgree(s: Lwip.State, c: nat, t: Toe.State, d: nat, q: string)
    requires Lwip.Sound(s) && c in s.wires && s.wires[c].Clean()
    requires s.wires[c].asked == Some(Lwip.Load(q)) && s.wires[c].purpose.Answer?
    requires Toe.Sound(t) && d in t.links && t.links[d].asked == Some(Toe.Load(q))
    ensures var w, l := s.wires[c], t.links[d];
      && (w.bytes <= l.bytes || l.bytes <= w.bytes)
      && (|w.bytes| == |l.bytes| ==> w.bytes == l.bytes && 0 <= w.loaded - l.loaded < LOAD_CHUNK_SIZE)
      && (w.bytes == l.bytes == ReplyBytes(LoadReply(QueryScan.KbOf(q))) ==>
        w.loaded == l.loaded == LOAD_CHUNK_SIZE * QueryScan.KbOf(q))
  {
    hide LoadReply, QueryScan.KbOf, Lwip.Sound, Toe.Sound, Copies, ReplyBytes, LoadBytes;
    var r := LoadReply(QueryScan.KbOf(q));
    LwipLoad(s, c, q);
    ToeLoad(t, d, q);
    LoadReplyShape(QueryScan.KbOf(q));
    CountsAgree(r, QueryScan.KbOf(q), s.wires[c].bytes, t.links[d].bytes, s.wires[c].loaded, t.links[d].loaded);
  }

  /** What an lwIP connection that asked for load carries and accounts. */
  lemma LwipLoad(s: Lwip.State, c: nat, q: string)
    requires Lwip.Sound(s) && c in s.wires && s.wires[c].Clean()
    requires s.wires[c].asked == Some(Lwip.Load(q)) && s.wires[c].purpose.Answer?
    ensures var r, w := LoadReply(QueryScan.KbOf(q)), s.wires[c];
      w.bytes <= ReplyBytes(r) && w.loaded == LoadBytes(r, |w.bytes|)
  {
    Lwip.EveryResponseIsPrefix(s, c);
    hide LoadReply, QueryScan.KbOf, Lwip.Sound, Copies;
  }

  /** Two prefixes of one load response, counted by the byte and by the block. */
  lemma CountsAgree(r: Reply, kb: nat, a: seq<byte>, b: seq<byte>, byByte: nat, byBlock: nat)
    requires a <= ReplyBytes(r) && b <= ReplyBytes(r)
    requires if kb == 0 then !r.isLoad else r.isLoad && |ReplyBytes(r)| == |r.head| + LOAD_CHUNK_SIZE * kb
    requires byByte == LoadBytes(r, |a|) && byBlock <= LoadBytes(r, |b|) < byBlock + LOAD_CHUNK_SIZE
    requires b == ReplyBytes(r) ==> byBlock == LoadBytes(r, |b|)
    ensures a <= b || b <= a
    ensures |a| == |b| ==> a == b && 0 <= byByte - byBlock < LOAD_CHUNK_SIZE
    ensures a == b == ReplyBytes(r) ==> byByte == byBlock == LOAD_CHUNK_SIZE * kb
  {
    hide ReplyBytes;
  }
}
