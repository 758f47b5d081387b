/**
 * The TOE build: four hardware sockets, a role each, one stream owner, and a chip that
 * moves sockets on its own while the firmware is busy sending.
 *
 * `links` is the chip's side of the wire: one entry per connection ever made, with what
 * was handed over on it. `conn` says which connection a socket carries or carried last.
 */
module ToeServer {
  import opened Bytes
  import opened Multipart
  import opened HttpReply
  import opened HttpReader
  import QueryScan

  const SOCKETS: nat := 4
  const TCP_CHUNK_MAX: nat := 1460
  const SEND_TIMEOUT_US: nat := 2_000_000

  datatype Sr = Closed | Init | Listen | Established | CloseWait | Closing
  datatype Role = Http | Streaming

  datatype Purpose =
    | Fresh
    | Stream(begun: bool, frames: seq<Frame>, tail: seq<byte>)
    | Answer

  /** `asked`: the request that came in on it; `finished`: the firmware has disconnected it. */
  datatype Link = Link(bytes: seq<byte>, asked: Option<Action>, purpose: Purpose, loaded: nat, finished: bool)
  {
    function Queue(data: seq<byte>): Link {
      this.(bytes := bytes + data)
    }
  }

  /** Why a send ended. */
  datatype Stop = Done | Gone | Stalled | Failed

  /** How one pass of the send loop ended. */
  datatype Pass = Lost | NoSpace | Refused(error: int) | Took(taken: nat)

  const NEW_LINK := Link([], None, Fresh, 0, false)

  datatype Action =
    | OpenStream
    | Respond(status: seq<byte>, ctype: seq<byte>, body: seq<byte>)
    | Logo(body: seq<byte>)
    | Load(query: string)
    | Silent

  datatype Request = Request(streaming: Option<bool>, action: Action)

  /** The whole answer to a request that is not for the stream. */
  function Full(a: Action): seq<byte> {
    match a
    case Respond(status, ctype, body) => PrintHead(status, ctype, |body|) + body
    case Logo(body) => PrintLogoHead(|body|) + body
    case Load(q) => ReplyBytes(LoadReply(QueryScan.KbOf(q)))
    case _ => []
  }

  /** Filler bytes among the first `n` bytes of the answer. */
  function Carried(a: Action, n: nat): nat {
    match a
    case Load(q) => LoadBytes(LoadReply(QueryScan.KbOf(q)), n)
    case _ => 0
  }

  // ------------------------------ Invariant ------------------------------

  datatype State = State(
    sr: seq<Sr>, conn: seq<nat>, role: seq<Role>, streamSn: int,
    links: map<nat, Link>, captures: set<Frame>)

  /** Whole units on every connection; only a finished one may end inside a unit. */
  ghost predicate LinkOk(l: Link, captures: set<Frame>) {
    match l.purpose
    case Fresh => l.bytes == [] && l.asked.None? && l.loaded == 0
    case Stream(begun, fs, tail) =>
      l.asked == Some(OpenStream) && l.loaded == 0 &&
      if begun then
        && l.bytes == StreamBytes(false, fs, tail) && FromCaptures(fs, tail, captures)
        && (tail != [] ==> l.finished)
      else l.bytes < PREAMBLE && l.finished
    case Answer =>
      && l.asked.Some? && !l.asked.value.OpenStream?
      && l.bytes <= Full(l.asked.value) && (l.bytes != Full(l.asked.value) ==> l.finished)
      && LoadOk(l, l.asked.value)
  }

  /** Load is accounted a kilobyte at a time, once it has gone out whole. */
  predicate LoadOk(l: Link, a: Action) {
    var carried := Carried(a, |l.bytes|);
    && l.loaded <= carried < l.loaded + LOAD_CHUNK_SIZE
    && (l.bytes == Full(a) ==> l.loaded == carried)
  }

  ghost predicate Shape(s: State) {
    && |s.sr| == |s.conn| == |s.role| == SOCKETS
    && -1 <= s.streamSn < SOCKETS
    && (forall i | 0 <= i < SOCKETS :: s.role[i].Streaming? <==> s.streamSn == i)
    && (forall i | 0 <= i < SOCKETS :: s.conn[i] in s.links)
    && (forall f <- s.captures :: IsJpeg(f))
    && (forall i, j | 0 <= i < j < SOCKETS :: s.conn[i] != s.conn[j])
  }

  /** One socket and the connection it carries; `busy` exempts the connection being written. */
  ghost predicate SocketOk(sr: Sr, role: Role, l: Link, busy: bool) {
    && (sr.Established? ==> !l.finished)
    && (role.Streaming? ==> !sr.Init? && !sr.Listen?)
    && (!busy ==>
      && (sr.Established? && role.Http? ==> l.purpose.Fresh?)
      && (role.Streaming? ==> l.purpose.Stream? && l.purpose.begun && l.purpose.tail == []))
  }

  ghost predicate SocketsOk(s: State, busy: Option<nat>)
    requires Shape(s)
  {
    forall i | 0 <= i < SOCKETS :: SocketOk(s.sr[i], s.role[i], s.links[s.conn[i]], Some(s.conn[i]) == busy)
  }

  ghost predicate LinksOk(links: map<nat, Link>, captures: set<Frame>, busy: Option<nat>) {
    forall c <- links :: Some(c) == busy || LinkOk(links[c], captures)
  }

  /** Sound, except for what connection `busy` carries at the moment. */
  ghost predicate Loose(s: State, busy: Option<nat>) {
    Shape(s) && SocketsOk(s, busy) && LinksOk(s.links, s.captures, busy)
  }

  ghost predicate Sound(s: State) {
    Loose(s, None)
  }

  // ------------------------- What may happen meanwhile -------------------------

  /** Bytes are only appended, and nothing more is written on a finished connection. */
  ghost predicate Grows(l: Link, m: Link) {
    l.bytes <= m.bytes && (l.finished ==> m == l)
  }

  ghost predicate LinksGrow(u: map<nat, Link>, v: map<nat, Link>) {
    forall c <- u :: c in v && Grows(u[c], v[c])
  }

  /** The chip's doing: roles and captures stay, no connection but `busy` is written, and a socket
      that is not listening keeps its connection and does not start listening. */
  ghost predicate Moved(s: State, t: State, busy: Option<nat>) {
    && Shape(s) && Shape(t)
    && t.role == s.role && t.streamSn == s.streamSn && t.captures == s.captures
    && (forall c <- s.links :: c in t.links && (Some(c) == busy || t.links[c] == s.links[c]))
    && (forall i | 0 <= i < SOCKETS && !s.sr[i].Listen? ::
          t.conn[i] == s.conn[i] && !t.sr[i].Listen? && (t.sr[i].Init? ==> s.sr[i].Init?))
  }

  lemma MovedTwice(s: State, t: State, u: State, busy: Option<nat>)
    requires Moved(s, t, busy) && Moved(t, u, busy)
    ensures Moved(s, u, busy)
  {
  }

  lemma MovedNot(s: State, busy: Option<nat>)
    requires Shape(s)
    ensures Moved(s, s, busy)
  {
  }

  /** Transitions the chip makes by itself. Only the firmware takes a socket out of Closed or Init. */
  predicate ChipMoves(a: Sr, b: Sr) {
    match a
    case Closed => false
    case Init => b.Closed?
    case Listen => b.Established? || b.Closed?
    case Established => b.CloseWait? || b.Closing? || b.Closed?
    case CloseWait => b.Closing? || b.Closed?
    case Closing => b.Closed?
  }

  /** Socket `i` after the chip's move; a client that connects brings a new connection. */
  ghost function ChipMoved(s: State, i: nat, b: Sr, c: nat): State
    requires Shape(s) && i < SOCKETS
  {
    if b.Established? then
      s.(sr := s.sr[i := b], conn := s.conn[i := c], links := s.links[c := NEW_LINK])
    else s.(sr := s.sr[i := b])
  }

  lemma ChipMovedOk(s: State, i: nat, b: Sr, c: nat, busy: Option<nat>)
    requires Loose(s, busy) && i < SOCKETS && ChipMoves(s.sr[i], b) && c !in s.links && busy != Some(c)
    ensures Loose(ChipMoved(s, i, b, c), busy) && Moved(s, ChipMoved(s, i, b, c), busy)
  {
    hide LinkOk;
    var t := ChipMoved(s, i, b, c);
    assert LinkOk(NEW_LINK, s.captures) by { NewLinkOk(s.captures); }
    assert Shape(t);
    assert forall j | 0 <= j < SOCKETS && j != i :: t.sr[j] == s.sr[j] && t.conn[j] == s.conn[j];
  }

  /** A name no connection has had. */
  ghost function Unused(made: set<nat>): (c: nat)
    ensures forall b <- made :: b < c
    decreases |made|
  {
    if made == {} then 0 else
      var b :| b in made;
      var c := Unused(made - {b});
      assert made == (made - {b}) + {b};
      if c > b then c else b + 1
  }

  lemma NewLinkOk(captures: set<Frame>)
    ensures LinkOk(NEW_LINK, captures)
  {
  }

  lemma ShapeOf(s: State, busy: Option<nat>)
    requires Loose(s, busy)
    ensures Shape(s)
  {
  }

  // --------------------------- Steps of the firmware ---------------------------

  /** Something written on connection `c`. */
  ghost function Wrote(s: State, c: nat, data: seq<byte>): State
    requires c in s.links
  {
    s.(links := s.links[c := s.links[c].Queue(data)])
  }

  lemma WroteOk(s: State, c: nat, data: seq<byte>)
    requires Loose(s, Some(c)) && c in s.links
    ensures Loose(Wrote(s, c, data), Some(c)) && Moved(s, Wrote(s, c, data), Some(c))
  {
    hide LinkOk;
  }

  /** From `s` to `t` the chip has moved, and `data` has gone out on the connection of socket `i`. */
  ghost predicate Handed(s: State, t: State, i: nat, data: seq<byte>) {
    && Shape(s) && i < SOCKETS && !s.sr[i].Listen? && !s.sr[i].Init?
    && var c := s.conn[i];
    && Loose(t, Some(c)) && Moved(s, t, Some(c))
    && c in t.links && t.links[c] == s.links[c].Queue(data)
  }

  lemma HandedNothing(s: State, i: nat)
    requires |s.conn| == |s.sr| == SOCKETS && i < SOCKETS && !s.sr[i].Listen? && !s.sr[i].Init? && Loose(s, Some(s.conn[i]))
    ensures Handed(s, s, i, [])
  {
    ShapeOf(s, Some(s.conn[i]));
    MovedNot(s, Some(s.conn[i]));
    hide Loose, Moved;
    assert s.links[s.conn[i]].bytes + [] == s.links[s.conn[i]].bytes;
  }

  lemma Onward(data: seq<byte>, n: nat, m: nat)
    requires n + m <= |data|
    ensures data[..n] + data[n..][..m] == data[..n + m]
  {
  }

  lemma HandedSocket(s: State, t: State, i: nat, data: seq<byte>)
    requires Handed(s, t, i, data)
    ensures i < SOCKETS == |t.conn| == |t.sr|
    ensures Shape(t) && t.conn[i] == s.conn[i] && t.conn[i] in t.links && Loose(t, Some(t.conn[i]))
  {
    SocketStays(s, t, i, Some(s.conn[i]));
    hide Loose;
  }

  lemma HandedMoved(s: State, t: State, u: State, i: nat, data: seq<byte>)
    requires Handed(s, t, i, data) && Loose(u, Some(s.conn[i])) && Moved(t, u, Some(s.conn[i]))
    requires s.conn[i] in u.links && s.conn[i] in t.links && u.links[s.conn[i]] == t.links[s.conn[i]]
    ensures Handed(s, u, i, data)
  {
    MovedTwice(s, t, u, Some(s.conn[i]));
    hide Loose, Moved;
  }

  lemma HandedMore(s: State, t: State, i: nat, data: seq<byte>, more: seq<byte>)
    requires Handed(s, t, i, data) && s.conn[i] in t.links
    ensures Handed(s, Wrote(t, s.conn[i], more), i, data + more)
  {
    WroteOk(t, s.conn[i], more);
    MovedTwice(s, t, Wrote(t, s.conn[i], more), Some(s.conn[i]));
    Assoc(s.links[s.conn[i]].bytes, data, more);
    hide Loose, Moved;
  }

  /** The connection on socket `i` is being written and has not been disconnected. */
  ghost predicate Writing(s: State, i: nat) {
    && Shape(s) && i < SOCKETS && Loose(s, Some(s.conn[i]))
    && !s.sr[i].Listen? && !s.sr[i].Init?
    && !s.links[s.conn[i]].finished
  }

  /** The connection on socket `i` is being written and so far is `l`. */
  ghost predicate Serving(s: State, i: nat, l: Link) {
    Writing(s, i) && s.links[s.conn[i]] == l
  }

  /** A connection on which a request has just come in: nothing written yet. */
  function Asking(a: Action): Link {
    NEW_LINK.(asked := Some(a))
  }

  /** Nothing more will be written on the connection of socket `i`: it may be finished as it is. */
  ghost predicate Ended(s: State, i: nat) {
    Writing(s, i) && LinkOk(s.links[s.conn[i]].(finished := true), s.captures)
  }

  /** The open stream: whole parts, and so much of the next. */
  ghost function StreamLink(fs: seq<Frame>, tail: seq<byte>): Link {
    Link(StreamBytes(false, fs, tail), Some(OpenStream), Stream(true, fs, tail), 0, false)
  }

  ghost predicate FramesIn(fs: seq<Frame>, captures: set<Frame>) {
    forall f <- fs :: f in captures
  }

  lemma FramesMore(fs: seq<Frame>, captures: set<Frame>, f: Frame)
    requires FramesIn(fs, captures)
    ensures FramesIn(fs, captures + {f}) && FramesIn(fs + [f], captures + {f})
  {
  }

  /** Writing keeps the roles, and every other connection as it is or longer. */
  ghost predicate Kept(s: State, t: State, i: nat) {
    && Shape(s) && Shape(t) && i < SOCKETS && t.conn[i] == s.conn[i]
    && t.role == s.role && t.streamSn == s.streamSn && s.captures <= t.captures
    && LinksGrow(s.links, t.links)
  }

  lemma KeptTwice(s: State, t: State, u: State, i: nat)
    requires Kept(s, t, i) && Kept(t, u, i)
    ensures Kept(s, u, i)
  {
    GrowTwice(s.links, t.links, u.links);
    hide LinksGrow;
  }

  lemma GrowTwice(u: map<nat, Link>, v: map<nat, Link>, w: map<nat, Link>)
    requires LinksGrow(u, v) && LinksGrow(v, w)
    ensures LinksGrow(u, w)
  {
    forall c <- u ensures c in w && Grows(u[c], w[c]) {
      assert c in v && Grows(u[c], v[c]) && Grows(v[c], w[c]);
    }
  }

  /** From a sound state the connection of an established socket may be written. */
  lemma MayWrite(s: State, i: nat)
    requires Sound(s) && i < SOCKETS && s.sr[i].Established?
    ensures Writing(s, i)
    ensures s.role[i].Http? ==> s.links[s.conn[i]] == NEW_LINK
    ensures s.role[i].Streaming? ==>
      s.links[s.conn[i]].purpose.Stream? && s.links[s.conn[i]] == StreamLink(s.links[s.conn[i]].purpose.frames, [])
    ensures s.role[i].Streaming? ==> LinkOk(s.links[s.conn[i]], s.captures)
  {
    var l := s.links[s.conn[i]];
    assert SocketOk(s.sr[i], s.role[i], l, false);
    assert LinkOk(l, s.captures);
    hide LinkOk;
  }

  /** Sending on a connection appends to it alone. */
  lemma SentOk(s: State, t: State, i: nat, data: seq<byte>)
    requires Writing(s, i) && Handed(s, t, i, data)
    ensures Writing(t, i) && Kept(s, t, i) && t.captures == s.captures
    ensures Serving(t, i, s.links[s.conn[i]].Queue(data))
  {
    hide LinkOk, SocketsOk, LinksOk;
  }

  /** What is noted of a connection that is being written. */
  ghost function Noted(s: State, i: nat, l: Link): State
    requires Shape(s) && i < SOCKETS
  {
    s.(links := s.links[s.conn[i] := l])
  }

  lemma NotedOk(s: State, i: nat, l: Link)
    requires Writing(s, i) && l.bytes == s.links[s.conn[i]].bytes && !l.finished
    ensures Writing(Noted(s, i, l), i) && Kept(s, Noted(s, i, l), i)
  {
    hide LinkOk;
  }

  /** What is noted shows, and nothing else changes. */
  lemma NotedServing(s: State, i: nat, l: Link, m: Link)
    requires Serving(s, i, l) && m.bytes == l.bytes && !m.finished
    ensures |s.conn| == SOCKETS && i < SOCKETS && s.conn[i] in s.links && s.links[s.conn[i]] == l
    ensures Serving(Noted(s, i, m), i, m) && Kept(s, Noted(s, i, m), i)
    ensures Noted(s, i, m) == s.(links := s.links[s.conn[i] := m])
  {
    NotedOk(s, i, m);
    hide Loose, LinksGrow;
  }

  /** A connection that is whole again is no longer exempt. */
  lemma WholeAgain(s: State, i: nat, fs: seq<Frame>)
    requires Serving(s, i, StreamLink(fs, [])) && s.role[i].Streaming?
    requires FramesIn(fs, s.captures)
    ensures Sound(s)
  {
    assert LinkOk(s.links[s.conn[i]], s.captures);
    hide LinkOk;
  }

  /** A stream cut inside a part. */
  lemma CutIsEnded(s: State, i: nat, fs: seq<Frame>, f: Frame, tail: seq<byte>)
    requires Serving(s, i, StreamLink(fs, tail))
    requires FramesIn(fs, s.captures) && f in s.captures && tail < Part(f)
    ensures Ended(s, i)
  {
    hide Loose, Shape, Part;
  }

  /** Another capture leaves every connection as it was. */
  lemma CapturedOk(s: State, i: nat, f: Frame)
    requires Writing(s, i) && IsJpeg(f)
    ensures var t := s.(captures := s.captures + {f});
      Writing(t, i) && Kept(s, t, i) && t.links == s.links && t.conn == s.conn
  {
    var t := s.(captures := s.captures + {f});
    forall c <- s.links | c != s.conn[i] ensures LinkOk(t.links[c], t.captures) {
      assert LinkOk(s.links[c], s.captures);
      CapturesGrow(s.links[c], s.captures, f);
    }
    hide LinkOk;
  }

  lemma CapturedServing(s: State, i: nat, f: Frame, l: Link)
    requires Serving(s, i, l) && IsJpeg(f)
    ensures var t := s.(captures := s.captures + {f}); Serving(t, i, l) && Kept(s, t, i)
  {
    CapturedOk(s, i, f);
    hide Writing, Kept;
  }

  lemma CapturesGrow(l: Link, captures: set<Frame>, f: Frame)
    requires LinkOk(l, captures)
    ensures LinkOk(l, captures + {f})
  {
    hide StreamBytes, Part, Full, LoadOk;
  }

  ghost function Disconnected(s: State, i: nat, b: Sr): State
    requires Shape(s) && i < SOCKETS
  {
    var c := s.conn[i];
    s.(sr := s.sr[i := b], links := s.links[c := s.links[c].(finished := true)])
  }

  /** Disconnecting the connection being written, which may end inside a unit. */
  lemma DisconnectedBusy(s: State, i: nat, b: Sr)
    requires Ended(s, i) && s.role[i].Http? && (b.Closing? || b.Closed?)
    ensures Sound(Disconnected(s, i, b)) && LinksGrow(s.links, Disconnected(s, i, b).links)
  {
    hide LinkOk;
  }

  /** Disconnecting some other connection. */
  lemma DisconnectedOther(s: State, i: nat, b: Sr, busy: Option<nat>)
    requires Shape(s) && i < SOCKETS && Loose(s, busy) && busy != Some(s.conn[i]) && (b.Closing? || b.Closed?)
    requires s.role[i].Http?
    ensures Loose(Disconnected(s, i, b), busy) && LinksGrow(s.links, Disconnected(s, i, b).links)
  {
    FinishedOk(s.links[s.conn[i]], s.captures);
    var t, c := Disconnected(s, i, b), s.conn[i];
    assert Shape(t) && LinksOk(t.links, t.captures, busy) by { hide LinkOk, SocketOk; }
    assert SocketsOk(t, busy) by {
      hide LinkOk, SocketOk;
      forall j | 0 <= j < SOCKETS
        ensures SocketOk(t.sr[j], t.role[j], t.links[t.conn[j]], Some(t.conn[j]) == busy)
      {
        assert SocketOk(s.sr[j], s.role[j], s.links[s.conn[j]], Some(s.conn[j]) == busy);
        if j == i {
          OverOk(b, s.links[c], busy == Some(c));
        } else {
          assert t.links[t.conn[j]] == s.links[s.conn[j]];
        }
      }
    }
    hide LinkOk, SocketsOk, LinksOk;
  }

  lemma OverOk(b: Sr, l: Link, busy: bool)
    requires b.Closing? || b.Closed?
    ensures SocketOk(b, Http, l.(finished := true), busy)
  {
  }

  lemma FinishedOk(l: Link, captures: set<Frame>)
    requires LinkOk(l, captures)
    ensures LinkOk(l.(finished := true), captures)
  {
  }

  /** Socket `i` has nothing more to do with its connection. */
  ghost predicate Over(s: State, i: nat) {
    && Shape(s) && i < SOCKETS && s.role[i].Http?
    && (s.sr[i].Closing? || s.sr[i].Closed?) && s.links[s.conn[i]].finished
  }

  ghost function Unstreamed(s: State, i: nat): State
    requires Shape(s) && i < SOCKETS
  {
    s.(role := s.role[i := Http], streamSn := if s.streamSn == i then -1 else s.streamSn)
  }

  lemma UnstreamedOk(s: State, i: nat, busy: Option<nat>)
    requires Shape(s) && i < SOCKETS && Loose(s, busy)
    requires s.sr[i].Established? && s.role[i].Streaming? ==> busy == Some(s.conn[i])
    ensures Loose(Unstreamed(s, i), busy)
  {
    hide LinkOk;
  }

  /** The stream's owner loses it and is disconnected, while socket `i` is being written. */
  lemma TakenOverOk(s: State, i: nat, j: nat, b: Sr, a: Action)
    requires Serving(s, i, Asking(a)) && s.role[i].Http? && j < SOCKETS && s.streamSn == j && (b.Closing? || b.Closed?)
    ensures var t := Disconnected(Unstreamed(s, j), j, b);
      Serving(t, i, Asking(a)) && LinksGrow(s.links, t.links) && t.streamSn == -1 && t.conn == s.conn
    ensures var l := s.links[s.conn[j]];
      LinkOk(l, s.captures) && l.purpose.Stream? && l.purpose.begun && l.purpose.tail == []
  {
    var t, busy, old' := Disconnected(Unstreamed(s, j), j, b), Some(s.conn[i]), s.links[s.conn[j]];
    OwnerIs(s, i, j);
    FinishedOk(old', s.captures);
    assert Shape(t) && LinksOk(t.links, t.captures, busy) && LinksGrow(s.links, t.links) by { hide LinkOk, SocketOk; }
    assert SocketsOk(t, busy) by {
      hide LinkOk, SocketOk;
      forall k | 0 <= k < SOCKETS
        ensures SocketOk(t.sr[k], t.role[k], t.links[t.conn[k]], Some(t.conn[k]) == busy)
      {
        assert SocketOk(s.sr[k], s.role[k], s.links[s.conn[k]], Some(s.conn[k]) == busy);
        if k == j {
          OverOk(b, old', busy == Some(s.conn[j]));
        } else {
          assert t.links[t.conn[k]] == s.links[s.conn[k]];
        }
      }
    }
    hide LinkOk, SocketsOk, LinksOk, LinksGrow;
  }

  /** The stream's owner is another socket, on a part boundary. */
  lemma OwnerIs(s: State, i: nat, j: nat)
    requires Writing(s, i) && s.role[i].Http? && j < SOCKETS && s.streamSn == j
    ensures i != j && s.conn[i] != s.conn[j] && LinkOk(s.links[s.conn[j]], s.captures)
    ensures var l := s.links[s.conn[j]]; l.purpose.Stream? && l.purpose.begun && l.purpose.tail == []
  {
    assert SocketOk(s.sr[j], s.role[j], s.links[s.conn[j]], Some(s.conn[j]) == Some(s.conn[i]));
    hide LinkOk;
  }

  /** Socket `i` owns the stream, freshly opened on a connection that asked for it. */
  ghost predicate Opened(s: State, i: nat) {
    && Shape(s) && i < SOCKETS && s.role[i].Streaming? && s.streamSn == i
    && s.links[s.conn[i]] == StreamLink([], [])
  }

  /** The preamble is out: the socket becomes the stream. */
  ghost function Streamed(s: State, i: nat): State
    requires Shape(s) && i < SOCKETS
  {
    s.(role := s.role[i := Streaming], streamSn := i)
  }

  lemma StreamedOk(s: State, i: nat)
    requires Serving(s, i, StreamLink([], [])) && s.streamSn == -1
    ensures Sound(Streamed(s, i))
  {
    assert Writing(Streamed(s, i), i) by { hide LinkOk; }
    WholeAgain(Streamed(s, i), i, []);
  }

  /** The firmware opens a closed socket, or sets an open one listening. */
  lemma OpenedOk(s: State, i: nat, b: Sr)
    requires Sound(s) && i < SOCKETS && s.role[i].Http? && (b.Init? || b.Listen?)
    ensures Sound(s.(sr := s.sr[i := b]))
  {
    hide LinkOk;
  }

  /** An answer that stops anywhere may be finished as it is, if its load is accounted. */
  lemma AnswerCut(s: State, i: nat, a: Action, sent: seq<byte>, loaded: nat)
    requires Serving(s, i, Link(sent, Some(a), Answer, loaded, false))
    requires !a.OpenStream? && sent <= Full(a) && loaded <= Carried(a, |sent|) < loaded + LOAD_CHUNK_SIZE
    requires sent == Full(a) ==> loaded == Carried(a, |sent|)
    ensures Ended(s, i)
  {
    hide Loose, Shape, Full, Carried;
  }

  /** The load response after `i` blocks and `n` bytes of the next. */
  function LoadSent(kb: nat, i: nat, n: nat): seq<byte>
    requires n <= LOAD_CHUNK_SIZE
  {
    LoadReply(kb).head + Copies(LoadChunk(), i) + LoadChunk()[..n]
  }

  function LoadLink(q: string, i: nat, n: nat): Link
    requires n <= LOAD_CHUNK_SIZE
  {
    Link(LoadSent(QueryScan.KbOf(q), i, n), Some(Load(q)), Answer, LOAD_CHUNK_SIZE * i, false)
  }

  lemma LoadSentIs(kb: nat, i: nat, n: nat)
    requires n <= LOAD_CHUNK_SIZE && kb > 0 && i + (if n > 0 then 1 else 0) <= kb
    ensures var r := LoadReply(kb);
      && LoadSent(kb, i, n) <= ReplyBytes(r)
      && LoadBytes(r, |LoadSent(kb, i, n)|) == LOAD_CHUNK_SIZE * i + n
      && LoadSent(kb, 0, 0) == r.head
      && LoadSent(kb, i, n) == LoadSent(kb, i, 0) + LoadChunk()[..n]
      && (n == LOAD_CHUNK_SIZE ==> LoadSent(kb, i, n) == LoadSent(kb, i + 1, 0))
  {
    var r := LoadReply(kb);
    var b := LoadChunk();
    assert r.body == b && r.reps + 1 == kb && r.isLoad;
    hide LoadReply, LoadChunk;
    BlocksOut(r.head, b, kb, i, n);
    BlocksOut(r.head, b, kb, 0, 0);
  }

  lemma LoadReplyIs(q: string)
    ensures var r := LoadReply(QueryScan.KbOf(q));
      && r.head <= Full(Load(q))
      && (QueryScan.KbOf(q) == 0 ==> Full(Load(q)) == r.head + r.body)
      && forall n: nat | n <= |r.head| :: Carried(Load(q), n) == 0
  {
    var r := LoadReply(QueryScan.KbOf(q));
    if QueryScan.KbOf(q) == 0 {
      assert r.reps == 0;
      assert Copies(r.body, 1) == Copies(r.body, 0) + r.body == r.body;
    }
    hide LoadReply;
  }

  lemma NoLoadIs(q: string)
    requires QueryScan.KbOf(q) == 0
    ensures Full(Load(q)) == PrintHead(Ascii("200 OK"), Ascii("text/plain"), |Ascii("load=0")|) + Ascii("load=0")
  {
    NoLoadHeadsAgree();
    LoadReplyIs(q);
    assert LoadReply(0).body == Ascii("load=0");
    hide PrintHead, Full, HeaderText, LoadReply;
  }

  /** A load that stops anywhere has accounted the blocks that went out whole. */
  lemma LoadCut(s: State, i: nat, q: string, k: nat, n: nat)
    requires n < LOAD_CHUNK_SIZE && k + (if n > 0 then 1 else 0) <= QueryScan.KbOf(q) && QueryScan.KbOf(q) > 0
    requires Serving(s, i, LoadLink(q, k, n))
    ensures Ended(s, i)
    ensures k == QueryScan.KbOf(q) ==> LoadLink(q, k, n).bytes == Full(Load(q))
  {
    var kb := QueryScan.KbOf(q);
    var r := LoadReply(kb);
    hide LoadChunk, QueryScan.KbOf, Loose, Shape;
    LoadSentIs(kb, k, n);
    LoadSentIs(kb, kb, 0);
    CopiesLength(r.body, kb);
    AnswerCut(s, i, Load(q), LoadSent(kb, k, n), LOAD_CHUNK_SIZE * k);
  }

  lemma PartIs(f: Frame)
    ensures var p, n := Part(f), |PartHead(|f|)|;
      && |p| == n + |f| + 2 && p[..0] == [] && p[..|p|] == p
      && PartHead(|f|) == p[0..n] && f == p[n..n + |f|] && CRLF == p[n + |f|..|p|]
  {
    hide PartHead;
  }

  lemma StreamLinkGrows(fs: seq<Frame>, f: Frame)
    ensures StreamLink(fs, Part(f)).(purpose := Stream(true, fs + [f], [])) == StreamLink(fs + [f], [])
  {
    TailGrows(false, fs, PartHead(|f|) + f, CRLF);
    TailCloses(false, fs, f);
  }

  /** The stream may go on where it stands: on a part boundary, with the parts it has. */
  lemma MayPush(s: State, i: nat)
    requires Sound(s) && i < SOCKETS && s.sr[i].Established? && s.role[i].Streaming?
    ensures |s.conn| == |s.role| == SOCKETS && s.conn[i] in s.links && Kept(s, s, i)
    ensures s.links[s.conn[i]].purpose.Stream?
    ensures var fs := s.links[s.conn[i]].purpose.frames;
      Writing(s, i) && Serving(s, i, StreamLink(fs, [])) && FramesIn(fs, s.captures)
  {
    MayWrite(s, i);
    KeptNot(s, i);
  }

  lemma MovedGrows(s: State, t: State)
    requires Moved(s, t, None)
    ensures LinksGrow(s.links, t.links)
  {
  }

  lemma KeptNot(s: State, i: nat)
    requires Shape(s) && i < SOCKETS
    ensures Kept(s, s, i)
  {
    GrowNot(s.links);
  }

  lemma GrowNot(u: map<nat, Link>)
    ensures LinksGrow(u, u)
  {
  }

  lemma PartBoundary(l: Link, captures: set<Frame>)
    requires LinkOk(l, captures) && l.purpose.Stream? && l.purpose.begun && l.purpose.tail == []
    ensures l.bytes == StreamBytes(false, l.purpose.frames, [])
  {
  }

  /** A preamble that did not go out whole. */
  lemma Unopened(s: State, i: nat, l: Link)
    requires Serving(s, i, l) && l.bytes < PREAMBLE && l == Asking(OpenStream).(bytes := l.bytes, purpose := Stream(false, [], []))
    ensures Ended(s, i)
  {
  }

  /** Socket `i` is not serving anyone, or not as the stream. */
  lemma UnstreamedSound(s: State, i: nat)
    requires Sound(s) && i < SOCKETS
    ensures !s.sr[i].Established? ==> Sound(Unstreamed(s, i))
    ensures s.sr[i].Init? ==> s.role[i].Http?
  {
    if !s.sr[i].Established? {
      UnstreamedOk(s, i, None);
    }
  }

  lemma UnstreamedEnded(s: State, i: nat)
    requires Ended(s, i)
    ensures Ended(Unstreamed(s, i), i)
  {
    UnstreamedOk(s, i, Some(s.conn[i]));
    hide LinkOk, Loose;
  }

  // ------------------------- What the chip, the clock and the camera answer -------------------------

  datatype Answer =
    | Status(sn: nat, sr: Sr)
    | Space(sn: nat, free: nat)
    | Sent(sn: nat, data: seq<byte>, ret: int)
    | Clock(t: nat)
    | Shot(failed: bool, length: nat)
    | Heard(sn: nat, request: Option<Request>)
    | Socket(sn: nat, ok: bool)
    | Listening(sn: nat, ok: bool)

  predicate NoRoom(a: Answer) {
    a.Space? && a.free == 0
  }

  /** The last reading of the clock that was not a look at how long there has been no space:
      when the send loop started, or when it last made progress. */
  function Progress(l: seq<Answer>): nat {
    if l == [] then 0
    else if l[|l| - 1].Clock? && (|l| == 1 || !NoRoom(l[|l| - 2])) then l[|l| - 1].t
    else Progress(l[..|l| - 1])
  }

  /** Nothing so far to give up for: the socket established, every send taken, and no wait for
      space as long as two seconds. */
  predicate Going(l: seq<Answer>) {
    l != [] ==> Going(l[..|l| - 1]) && Fine(l[..|l| - 1], l[|l| - 1])
  }

  /** `a`, coming after `l`, is nothing to give up for. */
  predicate Fine(l: seq<Answer>, a: Answer) {
    && (a.Status? ==> a.sr.Established?)
    && (a.Sent? ==> a.ret > 0)
    && (a.Clock? && l != [] && NoRoom(l[|l| - 1]) ==> a.t - Progress(l) < SEND_TIMEOUT_US)
  }

  predicate SocketLost(l: seq<Answer>, sn: nat) {
    l != [] && l[|l| - 1].Status? && l[|l| - 1].sn == sn && !l[|l| - 1].sr.Established?
  }

  predicate SendFailed(l: seq<Answer>, sn: nat, ret: int) {
    l != [] && l[|l| - 1].Sent? && l[|l| - 1].sn == sn && l[|l| - 1].ret == ret < 0
  }

  predicate TimedOut(l: seq<Answer>, sn: nat) {
    && |l| >= 2 && NoRoom(l[|l| - 2]) && l[|l| - 2].sn == sn
    && l[|l| - 1].Clock? && l[|l| - 1].t - Progress(l[..|l| - 1]) >= SEND_TIMEOUT_US
  }

  function Least(a: nat, b: nat): nat {
    if a < b then a else b
  }

  /** How much one send offers. */
  function Piece(rest: nat, free: nat): nat {
    var n := if rest > free then free else rest;
    if n > TCP_CHUNK_MAX then TCP_CHUNK_MAX else n
  }

  /** The answers to one pass of the send loop with `rest` to send, and what follows from them. */
  ghost predicate PassAnswers(l: seq<Answer>, sn: nat, rest: seq<byte>, result: Pass) {
    && l != [] && l[0].Status? && l[0].sn == sn
    && if !l[0].sr.Established? then |l| == 1 && result.Lost?
    else
      && |l| >= 2 && l[1].Space? && l[1].sn == sn
      && if l[1].free == 0 then |l| == 2 && result.NoSpace?
      else
        && |l| == 3 && l[2].Sent? && l[2] == Sent(sn, rest[..Piece(|rest|, l[1].free)], l[2].ret)
        && result == (if l[2].ret < 0 then Refused(l[2].ret) else Took(l[2].ret))
        && (l[2].ret >= 0 ==> l[2].ret > 0)
  }

  /** The answers to a whole send: nothing to give up for, or nothing but the last. */
  ghost predicate SendAnswers(l: seq<Answer>, sn: nat, ret: int, why: Stop) {
    match why
    case Done => Going(l)
    case Gone => l != [] && Going(l[..|l| - 1]) && SocketLost(l, sn) && ret == -1
    case Stalled => l != [] && Going(l[..|l| - 1]) && TimedOut(l, sn) && ret == -2
    case Failed => l != [] && Going(l[..|l| - 1]) && SendFailed(l, sn, ret)
  }

  lemma Next(l: seq<Answer>, a: Answer)
    ensures var m := l + [a];
      && m[..|m| - 1] == l && m[|m| - 1] == a
      && Progress(m) == (if a.Clock? && (l == [] || !NoRoom(l[|l| - 1])) then a.t else Progress(l))
      && (Going(m) <==> Going(l) && Fine(l, a))
  {
  }

  lemma InOrder(l: seq<Answer>, a: seq<Answer>)
    requires 1 <= |a| <= 3
    ensures |a| == 1 ==> l + a == l + [a[0]]
    ensures |a| == 2 ==> l + a == (l + [a[0]]) + [a[1]]
    ensures |a| == 3 ==> l + a == ((l + [a[0]]) + [a[1]]) + [a[2]]
  {
  }

  /** A pass adds to the answers: something to give up for, as its last, or nothing. */
  lemma GoingPass(l: seq<Answer>, a: seq<Answer>, sn: nat, rest: seq<byte>, result: Pass)
    requires Going(l) && PassAnswers(a, sn, rest, result)
    ensures var m := l + a;
      && m != [] && Progress(m) == Progress(l)
      && match result
        case Lost => SendAnswers(m, sn, -1, Gone)
        case Refused(error) => error < 0 && SendAnswers(m, sn, error, Failed)
        case NoSpace => Going(m) && NoRoom(m[|m| - 1]) && m[|m| - 1].sn == sn
        case Took(taken) => Going(m) && !NoRoom(m[|m| - 1])
  {
    hide Going, Progress, Piece;
    InOrder(l, a);
    var one := l + [a[0]];
    Next(l, a[0]);
    if |a| >= 2 {
      var two := one + [a[1]];
      Next(one, a[1]);
      if |a| == 3 {
        Next(two, a[2]);
      }
    }
  }

  lemma GoingStarts(t: nat)
    ensures Going([Clock(t)]) && Progress([Clock(t)]) == t
  {
  }

  /** A reading of the clock: progress, or a wait for space that goes on or is too long. */
  lemma ClockGoes(l: seq<Answer>, t: nat, sn: nat)
    requires Going(l) && l != []
    ensures var m := l + [Clock(t)];
      if !NoRoom(l[|l| - 1]) then Going(m) && Progress(m) == t
      else
        && Progress(m) == Progress(l)
        && if t - Progress(l) < SEND_TIMEOUT_US then Going(m)
           else l[|l| - 1].sn == sn ==> SendAnswers(m, sn, -2, Stalled)
  {
    hide Going, Progress;
    Next(l, Clock(t));
  }

  lemma AnswersDone(l: seq<Answer>, sn: nat, ret: int)
    requires Going(l)
    ensures SendAnswers(l, sn, ret, Done)
  {
  }

  /** What cut a send short: the socket, an error of the chip, or two seconds without space. */
  ghost predicate CutBy(l: seq<Answer>, sn: nat) {
    && l != [] && Going(l[..|l| - 1])
    && (SocketLost(l, sn) || TimedOut(l, sn) || (l[|l| - 1].Sent? && SendFailed(l, sn, l[|l| - 1].ret)))
  }

  lemma AnswersCut(l: seq<Answer>, sn: nat, ret: int, why: Stop)
    requires SendAnswers(l, sn, ret, why) && !why.Done?
    ensures CutBy(l, sn)
  {
  }

  /** Since `l`, a send on socket `sn` was cut short, and nothing has been asked after it. */
  ghost predicate Stopped(l: seq<Answer>, m: seq<Answer>, sn: nat) {
    l <= m && exists k | |l| <= k <= |m| :: CutBy(m[k..], sn)
  }

  lemma StoppedSince(l: seq<Answer>, m: seq<Answer>, n: seq<Answer>, sn: nat)
    requires l <= m && Stopped(m, n, sn)
    ensures Stopped(l, n, sn)
  {
  }

  lemma StoppedNow(l: seq<Answer>, m: seq<Answer>, sn: nat)
    requires l <= m && CutBy(m[|l|..], sn)
    ensures Stopped(l, m, sn)
  {
  }

  predicate Usable(a: Answer, image: seq<byte>) {
    a.Shot? && !a.failed && a.length <= |image| && IsJpeg(image[..a.length])
  }

  /** A request was answered: with the stream, or with the whole answer and the connection over;
      or not, because nothing could be composed or a send was cut short. */
  ghost predicate Answered(s: State, sn: nat, a: Action, l: seq<Answer>, m: seq<Answer>) {
    || (a.OpenStream? && Opened(s, sn))
    || (Over(s, sn) && !a.OpenStream? && s.links[s.conn[sn]].bytes == Full(a))
    || (Over(s, sn) && (a.Silent? || Stopped(l, m, sn)))
  }

  lemma FullIs(a: Action)
    ensures a.Respond? ==> Full(a) == PrintHead(a.status, a.ctype, |a.body|) + a.body
    ensures a.Logo? ==> Full(a) == PrintLogoHead(|a.body|) + a.body
  {
    hide PrintHead, PrintLogoHead;
  }

  /** The disconnect after a request that was routed so. */
  lemma AnsweredOver(s: State, t: State, sn: nat, a: Action, l: seq<Answer>, m: seq<Answer>)
    requires Shape(s) && sn < SOCKETS && Over(t, sn) && t == Disconnected(s, sn, t.sr[sn])
    requires (!a.OpenStream? && s.links[s.conn[sn]].bytes == Full(a)) || a.Silent? || Stopped(l, m, sn)
    ensures Answered(t, sn, a, l, m) && t.conn[sn] in t.links && t.links[t.conn[sn]].asked == s.links[s.conn[sn]].asked
  {
    hide Full, Stopped;
  }

  lemma AnsweredSince(s: State, sn: nat, a: Action, l: seq<Answer>, m: seq<Answer>, n: seq<Answer>)
    requires l <= m && Answered(s, sn, a, m, n)
    ensures Answered(s, sn, a, l, n)
  {
    hide Full, Stopped, Over, Opened;
    if Stopped(m, n, sn) {
      StoppedSince(l, m, n, sn);
    }
  }

  lemma OpenedIs(s: State, sn: nat)
    requires Opened(s, sn)
    ensures |s.role| == SOCKETS && sn < SOCKETS && s.role[sn].Streaming?
  {
  }

  lemma OwnerNow(s: State, i: nat)
    requires Sound(s) && i < SOCKETS && s.role[i].Streaming?
    ensures s.streamSn == i
  {
  }

  lemma KeptRoles(s: State, t: State, i: nat)
    requires Kept(s, t, i)
    ensures t.role == s.role && t.streamSn == s.streamSn && LinksGrow(s.links, t.links)
  {
  }

  /** With the preamble whole the stream is open. */
  lemma PreambleOut(l: Link)
    requires l == Asking(OpenStream).(bytes := PREAMBLE, purpose := Stream(false, [], []))
    ensures l.(purpose := Stream(true, [], [])) == StreamLink([], [])
  {
    StrayOpens();
    hide StreamBytes;
  }

  lemma KeptConn(s: State, t: State, i: nat, l: Link)
    requires Kept(s, t, i) && Serving(t, i, l)
    ensures |s.conn| == |t.conn| == SOCKETS && |t.role| == SOCKETS && i < SOCKETS
    ensures t.conn[i] == s.conn[i] && t.conn[i] in t.links && t.links[t.conn[i]] == l
    ensures t.role == s.role && t.streamSn == s.streamSn && LinksGrow(s.links, t.links)
  {
    hide Loose, LinksGrow;
  }

  lemma RoutedShape(s: State, sn: nat)
    requires Ended(s, sn) || (Sound(s) && sn < SOCKETS)
    ensures Shape(s) && sn < SOCKETS
  {
  }

  lemma AnsweredStream(s: State, sn: nat, a: Action, l: seq<Answer>, m: seq<Answer>)
    requires a.OpenStream? && Opened(s, sn)
    ensures Answered(s, sn, a, l, m) && s.conn[sn] in s.links && s.links[s.conn[sn]].asked == Some(a)
  {
    hide Full, Stopped, StreamBytes;
  }

  /** Since `l` the state of socket `sn` was looked at. */
  ghost predicate LookedAt(l: seq<Answer>, m: seq<Answer>, sn: nat) {
    exists k | |l| <= k < |m| :: m[k].Status? && m[k].sn == sn
  }

  lemma LookedSince(l: seq<Answer>, m: seq<Answer>, n: seq<Answer>)
    requires l <= m <= n
    ensures forall sn | LookedAt(l, m, sn) || LookedAt(m, n, sn) :: LookedAt(l, n, sn)
  {
    forall sn | LookedAt(l, m, sn)
      ensures LookedAt(l, n, sn)
    {
      var k :| |l| <= k < |m| && m[k].Status? && m[k].sn == sn;
      assert n[k] == m[k];
    }
  }

  // -------------------------------- The server --------------------------------

  class Server {
    const role: array<Role>
    var streamSn: int
    var streaming: bool
    var loadBytes: nat
    var image: seq<byte>
    // the chip and the clock
    var sr: seq<Sr>
    var clock: nat
    ghost var conn: seq<nat>
    ghost var links: map<nat, Link>
    ghost var captures: set<Frame>
    ghost var log: seq<Answer>     // what the chip, the clock and the camera have answered

    ghost function Now(): State
      reads this, role
    {
      State(sr, conn, role[..], streamSn, links, captures)
    }

    constructor (image: seq<byte>)
      ensures Sound(Now()) && streamSn == -1 && fresh(role)
    {
      role := new Role[SOCKETS](i => Http);
      streamSn, streaming, loadBytes := -1, false, 0;
      this.image := image;
      sr := [Closed, Closed, Closed, Closed];
      conn := [0, 1, 2, 3];
      var never := NEW_LINK.(finished := true);
      links := map[0 := never, 1 := never, 2 := never, 3 := never];
      clock, captures, log := 0, {}, [];
    }

    // ---- The chip, with anything it may do ----

    method ChipRun(ghost busy: Option<nat>)
      requires Loose(Now(), busy) && (busy.Some? ==> busy.value in links)
      modifies `sr, `conn, `links
      ensures Loose(Now(), busy) && Moved(old(Now()), Now(), busy)
      ensures busy.Some? ==> busy.value in links && links[busy.value] == old(links[busy.value])
    {
      hide Loose, Moved;
      ShapeOf(Now(), busy);
      MovedNot(Now(), busy);
      var moves: nat := *;
      while moves > 0
        invariant Loose(Now(), busy) && Moved(old(Now()), Now(), busy)
        invariant busy.Some? ==> busy.value in links && links[busy.value] == old(links[busy.value])
      {
        ghost var before := Now();
        ShapeOf(before, busy);
        var i: nat, b: Sr := *, *;
        if i < SOCKETS && ChipMoves(sr[i], b) {
          ghost var c := Unused(links.Keys);
          ChipMovedOk(before, i, b, c, busy);
          sr := sr[i := b];
          if b.Established? {
            conn := conn[i := c];
            links := links[c := NEW_LINK];
          }
          MovedTwice(old(Now()), before, Now(), busy);
        }
        moves := moves - 1;
      }
    }

    /** The clock advances between any two readings. */
    method ReadClock() returns (t: nat)
      modifies `clock, `log
      ensures t == clock > old(clock) && log == old(log) + [Clock(t)]
    {
      var d: int := *;
      clock := clock + (if d > 0 then d else 1);
      t := clock;
      log := log + [Clock(t)];
    }

    method ReadStatus(sn: nat) returns (s: Sr)
      requires sn < |sr|
      modifies `log
      ensures s == sr[sn] && log == old(log) + [Status(sn, s)]
    {
      s := sr[sn];
      log := log + [Status(sn, s)];
    }

    // ---- Sending ----

    method FreeSize(sn: nat) returns (free: uint16)
      modifies `log
      ensures log == old(log) + [Space(sn, free)]
    {
      free := SomeSpace();
      log := log + [Space(sn, free)];
    }

    method SomeSpace() returns (free: uint16) {
      free := *;
    }

    /**
     * tcp_send_all: everything, in order, or a strict prefix and a negative result. It ends,
     * because every pass sends something or finds the clock nearer the deadline. It gives up
     * exactly at the first answer to give up for: the socket not established, an error of the
     * chip, or a reading of the clock two seconds or more after progress that found no space.
     */
    method SendAll(sn: nat, data: seq<byte>) returns (ret: int, ghost sent: nat, ghost why: Stop)
      requires sn < SOCKETS && |conn| == SOCKETS == |sr| && Loose(Now(), Some(conn[sn]))
      requires !sr[sn].Listen? && !sr[sn].Init?
      modifies `sr, `conn, `links, `clock, `log
      ensures sent <= |data| && Handed(old(Now()), Now(), sn, data[..sent])
      ensures if sent == |data| then ret == |data| else ret < 0
      ensures why.Done? <==> sent == |data|
      ensures old(log) <= log && SendAnswers(log[|old(log)|..], sn, ret, why)
      ensures !why.Stalled? ==> clock - Progress(log[|old(log)|..]) < SEND_TIMEOUT_US
    {
      hide Loose, Moved, Handed, Shape, Going, Progress, PassAnswers, SendAnswers;
      HandedNothing(Now(), sn);
      sent, why := 0, Done;
      var handed := 0;
      ghost var from := |log|;
      var started := ReadClock();
      GoingStarts(started);
      assert log[from..] == [Clock(started)];
      var deadline := started + SEND_TIMEOUT_US;
      assert data[..0] == [];
      while handed < |data|
        invariant handed == sent <= |data| && Handed(old(Now()), Now(), sn, data[..sent])
        invariant from == |old(log)| && old(log) <= log && Going(log[from..])
        invariant deadline == Progress(log[from..]) + SEND_TIMEOUT_US && clock < deadline
        decreases |data| - handed, if deadline > clock then deadline - clock else 0
      {
        ghost var l, before := log[from..], log;
        var result := SendPass(sn, data[handed..], old(Now()), data[..handed]);
        assert log[from..] == l + log[|before|..];
        GoingPass(l, log[|before|..], sn, data[handed..], result);
        l, before := log[from..], log;
        match result
        case Lost =>
          return -1, sent, Gone;
        case NoSpace =>
          var t := ReadClock();
          assert log[from..] == l + [Clock(t)];
          ClockGoes(l, t, sn);
          if deadline <= t {
            return -2, sent, Stalled;
          }
        case Refused(error) =>
          return error, sent, Failed;
        case Took(taken) =>
          Onward(data, handed, taken);
          handed := handed + taken;
          sent := handed;
          var t := ReadClock();
          assert log[from..] == l + [Clock(t)];
          ClockGoes(l, t, sn);
          deadline := t + SEND_TIMEOUT_US;
      }
      ret := handed;
      AnswersDone(log[from..], sn, ret);
    }

    /** One pass of the loop: look at the socket and the free space, then offer a piece. */
    method SendPass(sn: nat, rest: seq<byte>, ghost was: State, ghost out: seq<byte>) returns (result: Pass)
      requires Handed(was, Now(), sn, out) && rest != []
      modifies `sr, `conn, `links, `log
      ensures Handed(was, Now(), sn, if result.Took? then out + rest[..Least(result.taken, |rest|)] else out)
      ensures result.Took? ==> 1 <= result.taken <= |rest|
      ensures old(log) <= log && PassAnswers(log[|old(log)|..], sn, rest, result)
    {
      hide Loose, Moved, Handed;
      ghost var before, l := Now(), log;
      HandedSocket(was, before, sn, out);
      ChipRun(Some(conn[sn]));
      HandedMoved(was, before, Now(), sn, out);
      ghost var moved := Now();
      HandedSocket(was, moved, sn, out);
      var status := ReadStatus(sn);
      if !status.Established? {
        return Lost;
      }
      var free := FreeSize(sn);
      if free == 0 {
        return NoSpace;
      }
      var taken := SendChunk(sn, rest, free);
      assert log[|l|..] == [Status(sn, status), Space(sn, free), Sent(sn, rest[..Piece(|rest|, free)], taken)];
      if taken < 0 {
        return Refused(taken);
      }
      HandedMore(was, moved, sn, out, rest[..taken]);
      return Took(taken);
    }

    /** As much of the rest as fits the free space and one segment. */
    method SendChunk(sn: nat, rest: seq<byte>, free: uint16) returns (taken: int)
      requires Shape(Now()) && sn < SOCKETS && rest != [] && free > 0
      modifies `links, `log
      ensures taken < 0 || 1 <= taken <= |rest|
      ensures Now() == if taken < 0 then old(Now()) else Wrote(old(Now()), old(conn[sn]), rest[..taken])
      ensures log == old(log) + [Sent(sn, rest[..Piece(|rest|, free)], taken)]
    {
      var chunk := if |rest| > free then free else |rest|;
      if chunk > TCP_CHUNK_MAX {
        chunk := TCP_CHUNK_MAX;
      }
      taken := ChipSend(sn, rest[..chunk], free);
      assert taken >= 0 ==> rest[..chunk][..taken] == rest[..taken];
    }

    /** send() with space free: an error, or at least one byte and at most what was offered. */
    method ChipSend(sn: nat, data: seq<byte>, free: uint16) returns (taken: int)
      requires sn < |conn| && conn[sn] in links && 1 <= |data| <= free && |data| <= TCP_CHUNK_MAX
      modifies `links, `log
      ensures log == old(log) + [Sent(sn, data, taken)]
      ensures taken < 0 || 1 <= taken <= |data|
      ensures links == if taken < 0 then old(links) else old(links)[conn[sn] := old(links[conn[sn]]).Queue(data[..taken])]
    {
      taken := *;
      if taken == 0 || taken > |data| {
        taken := |data|;
      }
      log := log + [Sent(sn, data, taken)];
      if taken > 0 {
        links := links[conn[sn] := links[conn[sn]].Queue(data[..taken])];
      }
    }

    /** Send on a connection whose request is being served. */
    method Send(sn: nat, data: seq<byte>, ghost l: Link) returns (ok: bool, ghost sent: nat)
      requires Serving(Now(), sn, l)
      modifies `sr, `conn, `links, `clock, `log
      ensures old(log) <= log && (!ok ==> Stopped(old(log), log, sn))
      ensures Kept(old(Now()), Now(), sn) && captures == old(captures)
      ensures sent <= |data| && (ok <==> sent == |data|)
      ensures Serving(Now(), sn, l.Queue(data[..sent]))
    {
      hide Loose, Moved, Handed, LinksGrow, LinkOk, SendAnswers, CutBy;
      ghost var before, l0 := Now(), log;
      var ret, n, why := SendAll(sn, data);
      if !why.Done? {
        AnswersCut(log[|l0|..], sn, ret, why);
        StoppedNow(l0, log, sn);
      }
      sent := n;
      SentOk(before, Now(), sn, data[..sent]);
      ok := ret >= 0;
    }

    /** The connection on socket `sn` is for an answer, or for the stream. */
    method NotePurpose(sn: nat, ghost p: Purpose, ghost l: Link)
      requires Serving(Now(), sn, l)
      modifies `links
      ensures Kept(old(Now()), Now(), sn) && Serving(Now(), sn, l.(purpose := p))
    {
      NotedServing(Now(), sn, l, l.(purpose := p));
      hide Serving, Kept, Noted;
      links := links[conn[sn] := links[conn[sn]].(purpose := p)];
    }

    /** The next request on socket `sn`, if there is one to be read. */
    method Receive(sn: nat) returns (request: Option<Request>)
      requires Serving(Now(), sn, NEW_LINK)
      modifies `links, `log
      ensures log == old(log) + [Heard(sn, request)]
      ensures request.Some? ==> Serving(Now(), sn, Asking(request.value.action)) && Kept(old(Now()), Now(), sn)
      ensures request.None? ==> Now() == old(Now())
    {
      request := SomeRequest();
      log := log + [Heard(sn, request)];
      if request.Some? {
        var a := request.value.action;
        NotedServing(Now(), sn, NEW_LINK, Asking(a));
        hide Serving, Kept, Noted;
        links := links[conn[sn] := links[conn[sn]].(asked := Some(a))];
      }
    }

    method SomeRequest() returns (request: Option<Request>) {
      request := *;
    }

    /** net_load_account: one block of filler has gone out. */
    method Account(sn: nat, ghost l: Link)
      requires Serving(Now(), sn, l)
      modifies `links, `loadBytes
      ensures Kept(old(Now()), Now(), sn) && Serving(Now(), sn, l.(loaded := l.loaded + LOAD_CHUNK_SIZE))
      ensures loadBytes == old(loadBytes) + LOAD_CHUNK_SIZE
    {
      NotedServing(Now(), sn, l, l.(loaded := l.loaded + LOAD_CHUNK_SIZE));
      hide Serving, Kept, Noted;
      loadBytes := loadBytes + LOAD_CHUNK_SIZE;
      links := links[conn[sn] := l.(loaded := l.loaded + LOAD_CHUNK_SIZE)];
    }

    // ---- Responses ----

    /** send_response: header, then body; cut short anywhere, the answer is a prefix. */
    method SendResponse(sn: nat, head: seq<byte>, body: seq<byte>, ghost a: Action) returns (ok: bool, ghost l: Link)
      requires Serving(Now(), sn, Asking(a)) && !a.OpenStream? && Full(a) == head + body
      requires a.Load? ==> QueryScan.KbOf(a.query) == 0
      modifies `sr, `conn, `links, `clock, `log
      ensures old(log) <= log && (!ok ==> Stopped(old(log), log, sn))
      ensures Kept(old(Now()), Now(), sn) && captures == old(captures)
      ensures Ended(Now(), sn) && Serving(Now(), sn, l) && l.loaded == 0 && l.asked == Some(a)
      ensures ok ==> l.bytes == Full(a)
    {
      hide Serving, Kept, Ended, Full, Stopped;
      ghost var before := Now();
      NotePurpose(sn, Answer, Asking(a));
      ghost var noted, sent := Now(), 0;
      l := Asking(a).(purpose := Answer);
      ok, sent := Send(sn, head, l);
      l := l.Queue(head[..sent]);
      KeptTwice(before, noted, Now(), sn);
      assert [] + head[..sent] == head[..sent] <= head + body;
      AnswerCut(Now(), sn, a, head[..sent], 0);
      if ok && body != [] {
        ghost var mid, heard := Now(), log;
        assert l.bytes == head;
        ok, sent := Send(sn, body, l);
        if !ok {
          StoppedSince(old(log), heard, log, sn);
        }
        l := l.Queue(body[..sent]);
        KeptTwice(before, mid, Now(), sn);
        AnswerCut(Now(), sn, a, head + body[..sent], 0);
      }
    }

    /** serve_load: the header and `kb` blocks of filler, each accounted once it is out. */
    method ServeLoad(sn: nat, q: string) returns (ok: bool, ghost l: Link)
      requires Serving(Now(), sn, Asking(Load(q)))
      modifies `sr, `conn, `links, `clock, `loadBytes, `log
      ensures old(log) <= log && (!ok ==> Stopped(old(log), log, sn))
      ensures Kept(old(Now()), Now(), sn) && captures == old(captures)
      ensures Ended(Now(), sn) && Serving(Now(), sn, l) && l.asked == Some(Load(q))
      ensures ok ==> l.bytes == Full(Load(q))
      ensures loadBytes == old(loadBytes) + l.loaded
    {
      hide Stopped;
      hide Serving, Kept, Ended, PrintHead, PrintLoadHead, LoadReply, Full, Carried, LoadSent, QueryScan.KbOf;
      ghost var before := Now();
      var kb := QueryScan.ParseKb(q);
      LoadReplyIs(q);
      if kb == 0 {
        var none := Ascii("load=0");
        NoLoadIs(q);
        ok, l := SendResponse(sn, PrintHead(Ascii("200 OK"), Ascii("text/plain"), |none|), none, Load(q));
        return;
      }
      LoadHeadsAgree(kb);
      var head := PrintLoadHead(kb);
      NotePurpose(sn, Answer, Asking(Load(q)));
      ghost var noted, sent := Now(), 0;
      l := Asking(Load(q)).(purpose := Answer);
      ok, sent := Send(sn, head, l);
      KeptTwice(before, noted, Now(), sn);
      l := Link(head[..sent], l.asked, Answer, 0, false);
      assert [] + head[..sent] == l.bytes;
      assert ok ==> l.bytes == head;
      if !ok {
        AnswerCut(Now(), sn, Load(q), l.bytes, 0);
        return;
      }
      LoadSentIs(kb, 0, 0);
      var i := 0;
      while i < kb
        invariant i <= kb && ok && captures == before.captures
        invariant Kept(before, Now(), sn) && old(log) <= log
        invariant l == LoadLink(q, i, 0) && Serving(Now(), sn, l)
        invariant loadBytes == old(loadBytes) + l.loaded
      {
        ghost var mid, heard := Now(), log;
        ok, sent := Send(sn, LoadChunk(), l);
        KeptTwice(before, mid, Now(), sn);
        LoadSentIs(kb, i, sent);
        l := l.Queue(LoadChunk()[..sent]);
        if !ok {
          StoppedSince(old(log), heard, log, sn);
          LoadCut(Now(), sn, q, i, sent);
          return;
        }
        ghost var out := Now();
        Account(sn, l);
        l := LoadLink(q, i + 1, 0);
        KeptTwice(before, out, Now(), sn);
        i := i + 1;
      }
      LoadCut(Now(), sn, q, kb, 0);
    }
    // ---- The stream ----

    /** disconnect(): the connection is over; the socket is closed or on its way. */
    method Disconnect(sn: nat)
      requires Shape(Now()) && sn < SOCKETS
      modifies `sr, `links
      ensures sn < |sr| && (sr[sn].Closing? || sr[sn].Closed?)
      ensures Now() == Disconnected(old(Now()), sn, sr[sn]) && (role[sn].Http? ==> Over(Now(), sn))
      ensures (old(Sound(Now())) || old(Ended(Now(), sn))) && role[sn].Http? ==>
        Sound(Now()) && LinksGrow(old(links), links)
    {
      ghost var before := Now();
      var lingers: bool := *;
      var b := if lingers && !sr[sn].Closed? then Closing else Closed;
      if role[sn].Http? {
        if Sound(before) {
          DisconnectedOther(before, sn, b, None);
        } else if Ended(before, sn) {
          DisconnectedBusy(before, sn, b);
        }
      }
      hide Sound, Ended, LinksGrow;
      sr := sr[sn := b];
      links := links[conn[sn] := links[conn[sn]].(finished := true)];
    }

    method ReleaseStreamSocket(sn: nat)
      requires Shape(Now()) && sn < SOCKETS
      modifies role, `streamSn
      ensures Now() == Unstreamed(old(Now()), sn)
    {
      role[sn] := Http;
      if streamSn == sn {
        streamSn := -1;
      }
    }

    /** The stream's owner is disconnected, on a part boundary, and gets nothing more. */
    method TakeOver(sn: nat)
      requires Serving(Now(), sn, Asking(OpenStream)) && role[sn].Http? && streamSn >= 0
      modifies role, `streamSn, `sr, `links
      ensures Serving(Now(), sn, Asking(OpenStream)) && role[sn].Http? && streamSn == -1
      ensures LinksGrow(old(links), links) && conn == old(conn)
      ensures var c := conn[old(streamSn)];
        var was := old(links[conn[streamSn]]);
        && was.purpose.Stream? && was.bytes == StreamBytes(false, was.purpose.frames, [])
        && c in links && links[c] == was.(finished := true)
    {
      ghost var before := Now();
      var previous := streamSn;
      TakenOverOk(before, sn, previous, Closing, OpenStream);
      TakenOverOk(before, sn, previous, Closed, OpenStream);
      PartBoundary(before.links[before.conn[previous]], captures);
      hide Loose, LinkOk, LinksGrow;
      ReleaseStreamSocket(previous);
      Disconnect(previous);
    }

    /** The socket owns the stream from now on. */
    method Own(sn: nat)
      requires Serving(Now(), sn, StreamLink([], [])) && streamSn == -1
      modifies role, `streamSn
      ensures Sound(Now()) && Opened(Now(), sn)
    {
      StreamedOk(Now(), sn);
      ghost var before := Now();
      hide Sound, Loose, StreamLink;
      role[sn] := Streaming;
      streamSn := sn;
      assert Now().role == before.role[sn := Streaming];
    }

    /** The preamble, and with it the stream; or the connection is over. */
    method OpenOn(sn: nat) returns (ok: bool)
      requires Serving(Now(), sn, Asking(OpenStream)) && role[sn].Http? && streamSn == -1
      modifies role, `streamSn, `sr, `conn, `links, `clock, `log
      ensures LinksGrow(old(links), links) && captures == old(captures)
      ensures old(log) <= log && (!ok ==> Stopped(old(log), log, sn))
      ensures sn < |conn| && conn[sn] == old(conn[sn]) && conn[sn] in links && sn < role.Length
      ensures links[conn[sn]].asked == Some(OpenStream) && links[conn[sn]].loaded == 0
      ensures if ok then Sound(Now()) && Opened(Now(), sn)
        else streamSn == -1 && Ended(Now(), sn) && role[sn].Http?
    {
      hide Serving, Kept, Ended, LinksGrow, Stopped, Sound, StreamLink;
      ghost var before := Now();
      ghost var l := Asking(OpenStream);
      NotePurpose(sn, Stream(false, [], []), l);
      ghost var noted, sent := Now(), 0;
      l := l.(purpose := Stream(false, [], []));
      ok, sent := Send(sn, PREAMBLE, l);
      l := l.Queue(PREAMBLE[..sent]);
      ghost var tried := Now();
      KeptTwice(before, noted, tried, sn);
      assert l.bytes == PREAMBLE[..sent];
      if ok {
        NotePurpose(sn, Stream(true, [], []), l);
        KeptTwice(before, tried, Now(), sn);
        PreambleOut(l);
      } else {
        Unopened(tried, sn, l);
      }
      l := if ok then StreamLink([], []) else l;
      KeptConn(before, Now(), sn, l);
      if ok {
        Own(sn);
      }
    }

    /**
     * begin_stream: the camera goes to the newest request. The old stream ends on a part
     * boundary, because frames are pushed whole, and gets nothing more; if the preamble
     * does not go out, nobody owns the camera.
     */
    method BeginStream(sn: nat) returns (ok: bool)
      requires Serving(Now(), sn, Asking(OpenStream)) && role[sn].Http?
      modifies role, `streamSn, `sr, `conn, `links, `clock, `log
      ensures old(log) <= log && (!ok ==> Stopped(old(log), log, sn))
      ensures LinksGrow(old(links), links) && captures == old(captures)
      ensures sn < |conn| && conn[sn] == old(conn[sn]) && conn[sn] in links && sn < role.Length
      ensures links[conn[sn]].asked == Some(OpenStream) && links[conn[sn]].loaded == 0
      ensures if ok then Sound(Now()) && Opened(Now(), sn)
        else streamSn == -1 && Ended(Now(), sn) && role[sn].Http?
      ensures old(streamSn) >= 0 ==>
        var c := old(conn[streamSn]);
        var was := old(links[conn[streamSn]]);
        && was.purpose.Stream? && was.bytes == StreamBytes(false, was.purpose.frames, [])
        && c in links && links[c] == was.(finished := true)
    {
      ghost var before := Now();
      if streamSn >= 0 && streamSn != sn {
        TakeOver(sn);
      } else {
        GrowNot(links);
      }
      ghost var free := Now();
      hide Loose, LinkOk, Sound, StreamLink, StreamBytes, Stopped;
      ok := OpenOn(sn);
      GrowTwice(before.links, free.links, links);
    }

    method GetFrame() returns (failed: bool, length: nat)
      modifies `image, `log
      ensures log == old(log) + [Shot(failed, length)]
      ensures !failed ==> length <= |image|
    {
      failed, image, length := *, *, *;
      if length > |image| {
        failed := true;
      }
      log := log + [Shot(failed, length)];
    }

    /** A capture, and whether there is a JPEG in the buffer after it. */
    method CaptureFrame() returns (usable: bool, size: nat)
      modifies `image, `log
      ensures |log| == |old(log)| + 1 && old(log) <= log && log[|old(log)|].Shot?
      ensures size == log[|old(log)|].length && (usable <==> Usable(log[|old(log)|], image))
    {
      var failed;
      failed, size := GetFrame();
      usable := !failed && size >= 2 && image[0] == 0xFF && image[1] == 0xD8;
    }

    /** The next piece of the part `p`, of which `k` bytes are out. */
    method SendPiece(sn: nat, data: seq<byte>, ghost fs: seq<Frame>, ghost p: seq<byte>, ghost k: nat)
      returns (ok: bool, ghost sent: nat)
      requires k + |data| <= |p| && data == p[k..k + |data|] && Serving(Now(), sn, StreamLink(fs, p[..k]))
      modifies `sr, `conn, `links, `clock, `log
      ensures old(log) <= log && (!ok ==> Stopped(old(log), log, sn))
      ensures Kept(old(Now()), Now(), sn) && captures == old(captures)
      ensures sent <= |data| && (ok <==> sent == |data|)
      ensures Serving(Now(), sn, StreamLink(fs, p[..k + sent]))
    {
      hide Serving, Kept, StreamBytes, Stopped;
      ghost var before := Now();
      ghost var l := StreamLink(fs, p[..k]);
      ok, sent := Send(sn, data, l);
      ghost var out := Now();
      TailGrows(false, fs, p[..k], data[..sent]);
      assert p[..k] + data[..sent] == p[..k + sent];
      NotePurpose(sn, Stream(true, fs, p[..k + sent]), l.Queue(data[..sent]));
      KeptTwice(before, out, Now(), sn);
    }

    /** Header, JPEG and closing CRLF: one whole part more, or a part cut short. */
    method SendPart(sn: nat, jpeg: seq<byte>, ghost fs: seq<Frame>) returns (ok: bool, ghost tail: seq<byte>)
      requires Serving(Now(), sn, StreamLink(fs, []))
      modifies `sr, `conn, `links, `clock, `log
      ensures old(log) <= log && (!ok ==> Stopped(old(log), log, sn))
      ensures Kept(old(Now()), Now(), sn) && captures == old(captures)
      ensures if ok then tail == [] && Serving(Now(), sn, StreamLink(fs + [jpeg], []))
        else tail < Part(jpeg) && Serving(Now(), sn, StreamLink(fs, tail))
    {
      hide Kept, Serving, StreamLink, Part, PartHead, Stopped;
      PartIs(jpeg);
      ghost var before, p, k, n := Now(), Part(jpeg), 0, 0;
      var head := PartHead(|jpeg|);
      ok, k := SendPiece(sn, head, fs, p, 0);
      if ok {
        ghost var mid, heard := Now(), log;
        ok, n := SendPiece(sn, jpeg, fs, p, k);
        if !ok {
          StoppedSince(old(log), heard, log, sn);
        }
        KeptTwice(before, mid, Now(), sn);
        k := k + n;
      }
      if ok {
        ghost var mid, heard := Now(), log;
        ok, n := SendPiece(sn, CRLF, fs, p, k);
        if !ok {
          StoppedSince(old(log), heard, log, sn);
        }
        KeptTwice(before, mid, Now(), sn);
        k := k + n;
      }
      tail := p[..k];
      if ok {
        ghost var mid := Now();
        StreamLinkGrows(fs, jpeg);
        NotePurpose(sn, Stream(true, fs + [jpeg], []), StreamLink(fs, p));
        KeptTwice(before, mid, Now(), sn);
        tail := [];
      }
    }

    /** One captured JPEG onto the open stream: whole, or the connection is over. */
    method PushJpeg(sn: nat, jpeg: seq<byte>, ghost fs: seq<Frame>)
      returns (ok: bool, ghost pushed: seq<Frame>, ghost tail: seq<byte>)
      requires Serving(Now(), sn, StreamLink(fs, [])) && Now().role[sn].Streaming?
      requires IsJpeg(jpeg) && FramesIn(fs, captures)
      modifies `captures, `sr, `conn, `links, `clock, `log
      ensures old(log) <= log && (!ok ==> Stopped(old(log), log, sn))
      ensures Kept(old(Now()), Now(), sn) && captures == old(captures) + {jpeg}
      ensures Serving(Now(), sn, StreamLink(fs + pushed, tail))
      ensures if ok then Sound(Now()) && tail == [] && pushed == [jpeg] else Ended(Now(), sn) && pushed == []
    {
      ghost var before := Now();
      CapturedServing(before, sn, jpeg, StreamLink(fs, []));
      FramesMore(fs, captures, jpeg);
      assert jpeg in captures + {jpeg};
      hide FramesIn;
      hide Sound, Serving, StreamLink, Ended, Part, Stopped, Loose, Shape, Writing, Kept, IsJpeg;
      pushed := [];
      assert fs + pushed == fs;
      captures := captures + {jpeg};
      ghost var mid := Now();
      ok, tail := SendPart(sn, jpeg, fs);
      KeptTwice(before, mid, Now(), sn);
      KeptRoles(before, Now(), sn);
      if !ok {
        CutIsEnded(Now(), sn, fs, jpeg, tail);
        return;
      }
      pushed := [jpeg];
      WholeAgain(Now(), sn, fs + pushed);
    }

    /**
     * push_stream_frame: at most one more whole part, made of one capture; or the part is
     * cut short and the connection is over. Only a JPEG is ever put on the wire.
     */
    method PushFrame(sn: nat) returns (ok: bool, ghost pushed: seq<Frame>, ghost tail: seq<byte>)
      requires Sound(Now()) && sn < SOCKETS && sr[sn].Established? && role[sn].Streaming?
      modifies `image, `captures, `sr, `conn, `links, `clock, `log
      ensures old(log) <= log && (!ok ==> Stopped(old(log), log, sn))
      ensures old(streaming) ==>
        && |log| > |old(log)| && log[|old(log)|].Shot?
        && if Usable(log[|old(log)|], image) then ok ==> pushed == [image[..log[|old(log)|].length]] else ok && pushed == []
      ensures Kept(old(Now()), Now(), sn)
      ensures var was := old(links[conn[sn]]);
        was.purpose.Stream? && Serving(Now(), sn, StreamLink(was.purpose.frames + pushed, tail))
      ensures pushed == [] || (ok && exists f <- captures :: pushed == [f])
      ensures if ok then Sound(Now()) && tail == [] else Ended(Now(), sn) && pushed == []
      ensures !old(streaming) ==> ok && pushed == [] && captures == old(captures)
      ensures ok ==> forall f <- captures :: f in old(captures) || pushed == [f]
    {
      MayPush(Now(), sn);
      hide Stopped, StreamBytes;
      hide Sound, Kept, Serving, StreamLink, Ended, Shape, Loose, Writing, LinkOk;
      ghost var fs := links[conn[sn]].purpose.frames;
      ok, pushed, tail := true, [], [];
      assert fs + [] == fs;
      if !streaming {
        return;
      }
      var usable, size := CaptureFrame();
      if !usable {
        return;
      }
      ghost var heard := log;
      ok, pushed, tail := PushJpeg(sn, image[..size], fs);
      if !ok {
        StoppedSince(old(log), heard, log, sn);
      }
    }

    /** The stream, if it is on this socket, is released and the connection disconnected. */
    method Drop(sn: nat)
      requires sn < SOCKETS && (Ended(Now(), sn) || (Sound(Now()) && !sr[sn].Established?))
      modifies role, `streamSn, `sr, `links
      ensures Sound(Now()) && LinksGrow(old(links), links) && streamSn != sn && Over(Now(), sn)
      ensures streamSn == -1 || streamSn == old(streamSn)
    {
      ghost var before := Now();
      if Sound(before) && !sr[sn].Established? {
        UnstreamedOk(before, sn, None);
      } else {
        UnstreamedEnded(before, sn);
      }
      hide Sound, Ended, LinksGrow;
      ReleaseStreamSocket(sn);
      Disconnect(sn);
    }

    // ---- Routing and the socket machine ----

    /** http_route: false when the connection is to be disconnected at once. */
    method HttpRoute(sn: nat, request: Request) returns (ok: bool)
      requires Serving(Now(), sn, Asking(request.action)) && role[sn].Http?
      modifies role, this
      ensures old(log) <= log && (!ok ==> request.action.Silent? || Stopped(old(log), log, sn))
      ensures streaming == if request.streaming.Some? then request.streaming.value else old(streaming)
      ensures LinksGrow(old(links), links) && captures == old(captures)
      ensures sn < |conn| && conn[sn] == old(conn[sn]) && conn[sn] in links && role.Length > sn
      ensures if ok && request.action.OpenStream? then Sound(Now()) && Opened(Now(), sn)
        else Ended(Now(), sn) && role[sn].Http?
      ensures ok && !request.action.OpenStream? ==> links[conn[sn]].bytes == Full(request.action)
      ensures loadBytes - old(loadBytes) == links[conn[sn]].loaded
      ensures links[conn[sn]].asked == Some(request.action)
      ensures if request.action.OpenStream? then streamSn == (if ok then sn else -1) else streamSn == old(streamSn)
    {
      hide Loose, LinksGrow, LinkOk, Stopped, Full, PrintHead, PrintLogoHead, Ended, StreamLink, StreamBytes;
      if request.streaming.Some? {
        streaming := request.streaming.value;
      }
      FullIs(request.action);
      match request.action
      case OpenStream =>
        ok := BeginStream(sn);
      case Respond(status, ctype, body) =>
        ghost var l;
        ok, l := SendResponse(sn, PrintHead(status, ctype, |body|), body, request.action);
      case Logo(body) =>
        ghost var l;
        ok, l := SendResponse(sn, PrintLogoHead(|body|), body, request.action);
      case Load(q) =>
        ghost var l;
        ok, l := ServeLoad(sn, q);
      case Silent =>
        NotePurpose(sn, Answer, Asking(Silent));
        AnswerCut(Now(), sn, Silent, [], 0);
        ok := false;
    }

    /** A request answered; every connection but a new stream's is disconnected. */
    method AnswerRequest(sn: nat, request: Request)
      requires Serving(Now(), sn, Asking(request.action)) && role[sn].Http?
      modifies role, this
      ensures Sound(Now()) && LinksGrow(old(links), links) && old(log) <= log
      ensures sn < |conn| && conn[sn] in links && links[conn[sn]].asked == Some(request.action)
      ensures streaming == if request.streaming.Some? then request.streaming.value else old(streaming)
      ensures Answered(Now(), sn, request.action, old(log), log)
      ensures streamSn == old(streamSn) || streamSn == -1 || Opened(Now(), sn)
    {
      hide Sound, LinksGrow, Ended, Serving, Stopped, Full, Answered, Over, Opened;
      ghost var before := Now();
      var ok := HttpRoute(sn, request);
      ghost var routed := Now();
      if ok && request.action.OpenStream? {
        OpenedIs(routed, sn);
      }
      if !ok || role[sn].Http? {
        RoutedShape(routed, sn);
        Disconnect(sn);
        GrowTwice(before.links, routed.links, links);
        AnsweredOver(routed, Now(), sn, request.action, old(log), log);
      } else {
        AnsweredStream(Now(), sn, request.action, old(log), log);
      }
    }

    /** A request read, if there is one, and answered. */
    method ServeRequest(sn: nat)
      requires Sound(Now()) && sn < SOCKETS && sr[sn].Established? && role[sn].Http?
      modifies role, this
      ensures Sound(Now()) && LinksGrow(old(links), links)
      ensures streamSn == old(streamSn) || streamSn == -1 || Opened(Now(), sn)
      ensures old(log) <= log && |log| > |old(log)| && log[|old(log)|].Heard? && log[|old(log)|].sn == sn
      ensures var request := log[|old(log)|].request;
        if request.None? then Now() == old(Now()) && streaming == old(streaming)
        else
          && sn < |conn| && conn[sn] in links && links[conn[sn]].asked == Some(request.value.action)
          && streaming == (if request.value.streaming.Some? then request.value.streaming.value else old(streaming))
          && Answered(Now(), sn, request.value.action, old(log), log)
    {
      ghost var before, l := Now(), log;
      MayWrite(before, sn);
      GrowNot(links);
      assert Serving(before, sn, NEW_LINK);
      hide Sound, LinksGrow, Serving, Answered, Opened;
      var request := Receive(sn);
      assert log[|l|] == Heard(sn, request);
      if request.None? {
        return;
      }
      ghost var asked, heard := Now(), log;
      AnswerRequest(sn, request.value);
      assert log[|l|] == heard[|l|];
      GrowTwice(before.links, asked.links, links);
      AnsweredSince(Now(), sn, request.value.action, l, heard, log);
    }

    /** push_stream_frame, for what it means to the socket. */
    method FrameOn(sn: nat) returns (ok: bool)
      requires Sound(Now()) && sn < SOCKETS && sr[sn].Established? && role[sn].Streaming?
      modifies `image, `captures, `sr, `conn, `links, `clock, `log
      ensures LinksGrow(old(links), links) && (if ok then Sound(Now()) else Ended(Now(), sn))
      ensures old(log) <= log && (!ok ==> Stopped(old(log), log, sn))
      ensures old(streaming) ==> |log| > |old(log)| && log[|old(log)|].Shot?
    {
      hide Sound, LinksGrow, Ended, Serving, Stopped, StreamLink, Shape, Usable;
      ghost var before := Now();
      ghost var pushed, tail;
      ok, pushed, tail := PushFrame(sn);
      KeptRoles(before, Now(), sn);
    }

    /** One more frame on the stream, which is over if the frame does not go out whole. */
    method ServeStream(sn: nat)
      requires Sound(Now()) && sn < SOCKETS && sr[sn].Established? && role[sn].Streaming?
      modifies role, this
      ensures Sound(Now()) && LinksGrow(old(links), links)
      ensures old(log) <= log && streaming == old(streaming)
      ensures old(streaming) ==> |log| > |old(log)| && log[|old(log)|].Shot?
      ensures if streamSn == sn then role[..] == old(role[..])
        else streamSn == -1 && Over(Now(), sn) && Stopped(old(log), log, sn)
    {
      OwnerNow(Now(), sn);
      hide Sound, LinksGrow, Ended, Over, Stopped;
      ghost var was := links;
      var ok := FrameOn(sn);
      if !ok {
        ghost var sent := links;
        Drop(sn);
        GrowTwice(was, sent, links);
      }
    }

    /** One socket in the state it was found in: serve, recycle, reopen, listen, or leave it. */
    method Turn(sn: nat, found: Sr)
      requires Sound(Now()) && sn < SOCKETS && sr[sn] == found
      modifies this, role
      ensures Sound(Now()) && LinksGrow(old(links), links) && old(log) <= log
      ensures streamSn == old(streamSn) || streamSn == -1 || (found.Established? && Opened(Now(), sn))
      ensures match found
        case Established =>
          if old(role[..])[sn].Http? then
            && |log| > |old(log)| && log[|old(log)|].Heard? && log[|old(log)|].sn == sn
            && if log[|old(log)|].request.None? then Now() == old(Now())
               else Answered(Now(), sn, log[|old(log)|].request.value.action, old(log), log)
          else
            && (old(streaming) ==> |log| > |old(log)| && log[|old(log)|].Shot?)
            && (streamSn == sn || (Over(Now(), sn) && Stopped(old(log), log, sn)))
        case CloseWait => Over(Now(), sn) && log == old(log)
        case Closed =>
          && |log| == |old(log)| + 1 && log[|old(log)|].Socket? && log[|old(log)|].sn == sn
          && Now() == (if log[|old(log)|].ok then Unstreamed(old(Now()), sn).(sr := old(sr)[sn := Init])
                       else Unstreamed(old(Now()), sn))
        case Init =>
          && |log| == |old(log)| + 1 && log[|old(log)|].Listening? && log[|old(log)|].sn == sn
          && Now() == (if log[|old(log)|].ok then old(Now()).(sr := old(sr)[sn := Listen]) else old(Now()))
        case _ => Now() == old(Now()) && log == old(log)
    {
      ghost var before := Now();
      GrowNot(links);
      ShapeOf(before, None);
      UnstreamedSound(before, sn);
      hide Sound, LinksGrow, Over, Answered, Stopped;
      match found
      case Established =>
        if role[sn].Streaming? {
          ServeStream(sn);
        } else {
          ServeRequest(sn);
        }
      case CloseWait =>
        Drop(sn);
      case Closed =>
        ReleaseStreamSocket(sn);
        var ok := OpenSocket(sn);
        if ok {
          OpenedOk(Now(), sn, Init);
          sr := sr[sn := Init];
        }
      case Init =>
        var ok := ListenOn(sn);
        if ok {
          OpenedOk(before, sn, Listen);
          sr := sr[sn := Listen];
        }
      case _ =>
    }

    /** Whether the chip opens the socket. */
    method OpenSocket(sn: nat) returns (ok: bool)
      modifies `log
      ensures log == old(log) + [Socket(sn, ok)]
    {
      ok := *;
      log := log + [Socket(sn, ok)];
    }

    /** Whether the chip sets it listening. */
    method ListenOn(sn: nat) returns (ok: bool)
      modifies `log
      ensures log == old(log) + [Listening(sn, ok)]
    {
      ok := *;
      log := log + [Listening(sn, ok)];
    }

    /** socket_run, after whatever the chip has done in the meantime. */
    method SocketRun(sn: nat)
      requires Sound(Now()) && sn < SOCKETS
      modifies this, role
      ensures Sound(Now()) && LinksGrow(old(links), links)
      ensures streamSn == old(streamSn) || streamSn == -1 || Opened(Now(), sn)
      ensures old(log) <= log && LookedAt(old(log), log, sn)
    {
      ChipRun(None);
      ghost var was, before, l := old(Now()), Now(), log;
      MovedGrows(was, before);
      ShapeOf(before, None);
      hide Sound, LinksGrow, Opened, Over, Answered, Stopped;
      var found := ReadStatus(sn);
      Turn(sn, found);
      assert log[|l|] == Status(sn, found);
      GrowTwice(was.links, before.links, links);
    }

    /** One pass over all the sockets. */
    method Service()
      requires Sound(Now())
      modifies this, role
      ensures Sound(Now()) && LinksGrow(old(links), links)
      ensures old(log) <= log && forall sn: nat | sn < SOCKETS :: LookedAt(old(log), log, sn)
    {
      GrowNot(links);
      hide Sound, LinksGrow, LookedAt;
      for sn := 0 to SOCKETS
        invariant Sound(Now()) && LinksGrow(old(links), links)
        invariant old(log) <= log && forall i: nat | i < sn :: LookedAt(old(log), log, i)
      {
        ghost var before, heard := Now(), log;
        SocketRun(sn);
        GrowTwice(old(links), before.links, links);
        LookedSince(old(log), heard, log);
      }
    }

    /** Any number of passes of the main loop, against any chip, any clients and any camera. */
    method Run(passes: nat)
      requires Sound(Now())
      modifies this, role
      ensures Sound(Now()) && LinksGrow(old(links), links)
    {
      GrowNot(links);
      hide Sound, LinksGrow;
      for i := 0 to passes
        invariant Sound(Now()) && LinksGrow(old(links), links)
      {
        ghost var before := Now();
        Service();
        GrowTwice(old(links), before.links, links);
      }
    }
  }

  lemma SocketStays(s: State, t: State, i: nat, busy: Option<nat>)
    requires Moved(s, t, busy) && i < SOCKETS && !s.sr[i].Listen? && !s.sr[i].Init?
    ensures t.conn[i] == s.conn[i] && !t.sr[i].Listen? && !t.sr[i].Init? && |t.sr| == |t.conn| == SOCKETS
    ensures t.conn[i] in t.links && t.role == s.role
  {
  }

  // ------------------------------ What follows in every state ------------------------------

  /** The stream role and the stream's owner are one and the same, and the connection that has
      it is the one that asked for it: never a later one on the same socket. */
  lemma StreamBelongsToAsker(s: State, i: nat)
    requires Sound(s) && i < SOCKETS && s.role[i].Streaming?
    ensures s.streamSn == i && forall j | 0 <= j < SOCKETS && j != i :: s.role[j].Http?
    ensures var l := s.links[s.conn[i]];
      l.asked == Some(OpenStream) && exists fs :: l.bytes == StreamBytes(false, fs, [])
  {
    var l := s.links[s.conn[i]];
    assert SocketOk(s.sr[i], s.role[i], l, false);
    assert LinkOk(l, s.captures);
    assert l.bytes == StreamBytes(false, l.purpose.frames, []);
  }

  /** Whoever asked for the stream either got no whole preamble, or reads whole JPEGs, each of
      a single capture. */
  lemma EveryStreamReads(s: State, c: nat)
    requires Sound(s) && c in s.links && s.links[c].asked == Some(OpenStream)
    ensures var fs := ReadStream(s.links[c].bytes);
      && (forall f <- fs :: f in s.captures && IsJpeg(f))
      && (PREAMBLE <= s.links[c].bytes ==>
        exists tail :: s.links[c].bytes == StreamBytes(false, fs, tail) && IsTail(tail, s.captures))
  {
    var l := s.links[c];
    assert LinkOk(l, s.captures);
    if l.purpose.begun {
      ReadStreamInverts(false, l.purpose.frames, l.purpose.tail, s.captures);
    } else {
      PreambleCut(l.bytes);
    }
  }

  predicate Printable(a: Action) {
    a.Respond? ==> 13 !in a.status && 13 !in a.ctype
  }

  /** What a request is to be answered with, as the client understands it. */
  function Expected(a: Action): Response
    requires a.Respond? || a.Logo? || a.Load?
  {
    match a
    case Respond(status, ctype, body) => Response(status, ctype, body, [])
    case Logo(body) => Response(Ascii("200 OK"), Ascii("image/png"), body, [])
    case Load(q) => LoadResponse(QueryScan.KbOf(q))
  }

  lemma PrintedReads(status: seq<byte>, ctype: seq<byte>, cache: seq<byte>, head: seq<byte>, body: seq<byte>)
    requires 13 !in status && 13 !in ctype && 13 !in cache && head == HeaderText(status, ctype, |body|, cache)
    ensures ReadResponse(head + body) == Some(Response(status, ctype, body, []))
    ensures forall d | d < head + body :: ReadResponse(d) == None
  {
    HeaderReads(status, ctype, cache, body);
    hide HeaderText, ReadResponse;
    forall d | d < head + body
      ensures ReadResponse(d) == None
    {
      HeaderCut(status, ctype, cache, body, d);
    }
  }

  lemma AnswerReads(a: Action)
    requires (a.Respond? || a.Logo? || a.Load?) && Printable(a)
    ensures ReadResponse(Full(a)) == Some(Expected(a)) && forall d | d < Full(a) :: ReadResponse(d) == None
  {
    LoadTexts();
    LogoTexts();
    hide Ascii, PrintHead, PrintLogoHead, HeaderText, LoadReply, LoadResponse, ReadResponse, ReplyBytes, QueryScan.KbOf;
    match a
    case Respond(status, ctype, body) =>
      HeadsAgree(status, ctype, |body|);
      PrintedReads(status, ctype, Ascii("no-store"), PrintHead(status, ctype, |body|), body);
    case Logo(body) =>
      LogoHeadsAgree(|body|);
      PrintedReads(Ascii("200 OK"), Ascii("image/png"), Ascii("max-age=86400"), PrintLogoHead(|body|), body);
    case Load(q) =>
      LoadReads(QueryScan.KbOf(q));
  }

  /** Whatever of an answer has arrived, a client reads it as the response to its own request once
      all of it is there, and as incomplete before. */
  lemma EveryClientReads(s: State, c: nat, d: seq<byte>)
    requires Sound(s) && c in s.links && s.links[c].asked.Some? && s.links[c].purpose.Answer?
    requires !s.links[c].asked.value.Silent? && Printable(s.links[c].asked.value) && d <= s.links[c].bytes
    ensures var a := s.links[c].asked.value;
      && !a.OpenStream?
      && if d == Full(a) then ReadResponse(d) == Some(Expected(a)) else ReadResponse(d) == None
  {
    var a := s.links[c].asked.value;
    assert LinkOk(s.links[c], s.captures);
    assert d <= Full(a);
    hide Full, Expected, ReadResponse;
    AnswerReads(a);
  }

  /** Bytes end inside a response, a preamble or a part. */
  ghost predicate CutShort(l: Link) {
    match l.purpose
    case Fresh => false
    case Stream(begun, fs, tail) => !begun || tail != []
    case Answer => l.asked.Some? && l.bytes != Full(l.asked.value)
  }

  /** Truncation is final: what is cut short is never written again, whatever runs next. */
  lemma TruncationIsFinal(s: State, t: State, c: nat)
    requires Sound(s) && LinksGrow(s.links, t.links) && c in s.links && CutShort(s.links[c])
    ensures c in t.links && t.links[c] == s.links[c]
  {
    assert LinkOk(s.links[c], s.captures);
  }
}
