/** What one client has received so far, and the placeholder coordinator that watches the
    response writer. Bytes keep their origin, so that "no upstream byte was sent" is a
    statement about the transcript and not about a flag. */
module Downstream {
  import opened GatewayFrames

  datatype Origin = FromUpstream | FromGateway
  datatype Byte = Byte(origin: Origin, c: char)
  type Text = seq<Byte>

  /** One write to the socket: relayed through the relay's writer, or a frame the gateway
      wrote past it. */
  datatype Chunk = Chunk(relayed: bool, text: Text)

  datatype WriteOutcome = Delivered | Broken(taken: nat)
  datatype FrameOutcome = FrameSent | FrameQueued | FrameRefused | FrameBroken

  /** The environment of one response. `wrapped` says that the relay's writer is the one the
      coordinator observes; the functions answer for the n-th write or frame. */
  datatype Link = Link(
    wrapped: bool,
    compactKeepalive: bool,
    write: nat -> WriteOutcome,
    frame: nat -> FrameOutcome,
    placeholder: Placeholder,         // the coordinator's test for its own payloads
    sawTerminal: nat -> bool)         // a terminal frame is among the first n writes

  datatype Client = Client(
    sent: seq<Chunk>,
    touched: bool,        // the response writer reports a size
    active: bool,         // the coordinator is active
    committed: bool,      // the coordinator saw something that is not a gateway frame
    disconnected: bool,
    writes: nat,
    frames: nat)

  function Tag(o: Origin, s: string): (t: Text)
    ensures |t| == |s|
  {
    seq(|s|, i requires 0 <= i < |s| => Byte(o, s[i]))
  }

  function Plain(t: Text): string {
    seq(|t|, i requires 0 <= i < |t| => t[i].c)
  }

  function UpstreamOf(t: Text): Text {
    if t == [] then []
    else (if t[0].origin.FromUpstream? then [t[0]] else []) + UpstreamOf(t[1..])
  }

  function Received(sent: seq<Chunk>): Text {
    if sent == [] then [] else Received(sent[..|sent| - 1]) + sent[|sent| - 1].text
  }

  /** The text the coordinator has seen, when it observes the relay's writer. */
  function Relayed(sent: seq<Chunk>): Text {
    if sent == [] then []
    else
      var last := sent[|sent| - 1];
      Relayed(sent[..|sent| - 1]) + if last.relayed then last.text else []
  }

  function UpstreamSent(c: Client): Text {
    UpstreamOf(Received(c.sent))
  }

  /** Every relayed write was one the coordinator reads as gateway-owned. */
  predicate OnlyGatewayFrames(link: Link, sent: seq<Chunk>) {
    sent == []
    || (var last := sent[|sent| - 1];
        && OnlyGatewayFrames(link, sent[..|sent| - 1])
        && (last.relayed ==> ReadsAsGateway(link.placeholder, Plain(last.text))))
  }

  /** The coordinator's promise: as long as it is not committed, nothing but gateway frames
      has been relayed. */
  predicate Faithful(link: Link, c: Client) {
    && (link.wrapped && !c.committed ==> OnlyGatewayFrames(link, c.sent))
    && (c.sent != [] ==> c.touched)
  }

  /** How a client may change: the transcript grows and no flag is withdrawn. */
  predicate Later(c: Client, r: Client) {
    && c.sent <= r.sent
    && (c.touched ==> r.touched)
    && (c.active ==> r.active)
    && (c.committed ==> r.committed)
    && (c.disconnected ==> r == c)
    && (!r.touched ==> r.sent == c.sent)
  }

  /** What every write keeps. */
  ghost predicate Advances(link: Link, c: Client, r: Client) {
    && Later(c, r)
    && (Faithful(link, c) ==> Faithful(link, r))
    && (!link.wrapped ==> r.committed == c.committed)
  }

  predicate SizeReported(link: Link, c: Client) {
    if link.compactKeepalive then c.sent != [] else c.touched
  }

  /** Whether transparent failover is ruled out. */
  predicate OutputVisible(link: Link, c: Client, localStarted: bool) {
    if c.active then c.committed else localStarted || SizeReported(link, c)
  }

  /** What rules failover out: a commit while the coordinator is active; otherwise output of the relay's own, or
      that the response has been started, where comments that keep a compact request alive do not count. */
  lemma VisibleExactly(link: Link, c: Client, localStarted: bool)
    ensures c.active ==> (OutputVisible(link, c, localStarted) <==> c.committed)
    ensures !c.active && localStarted ==> OutputVisible(link, c, localStarted)
    ensures !c.active && !localStarted && link.compactKeepalive ==>
              (OutputVisible(link, c, localStarted) <==> c.sent != [])
    ensures !c.active && !localStarted && !link.compactKeepalive ==>
              (OutputVisible(link, c, localStarted) <==> c.touched)
  {
  }

  function Append(sent: seq<Chunk>, relayed: bool, t: Text): (r: seq<Chunk>)
    ensures sent <= r
    ensures t == [] ==> r == sent
    ensures Received(r) == Received(sent) + t
    ensures UpstreamOf(Received(r)) == UpstreamOf(Received(sent)) + UpstreamOf(t)
    ensures Relayed(r) == if relayed then Relayed(sent) + t else Relayed(sent)
    ensures r != [] <==> sent != [] || t != []
  {
    UpstreamOfConcat(Received(sent), t);
    if t == [] then sent
    else
      var r := sent + [Chunk(relayed, t)];
      assert r[..|r| - 1] == sent;
      r
  }

  lemma AppendFrames(link: Link, sent: seq<Chunk>, relayed: bool, t: Text)
    ensures OnlyGatewayFrames(link, Append(sent, relayed, t))
            == (OnlyGatewayFrames(link, sent) && (relayed && t != [] ==> ReadsAsGateway(link.placeholder, Plain(t))))
  {
  }

  /** A write through the relay's writer; a broken one may still deliver a prefix. The coordinator
      commits when the write, or an event it completes, does not read as gateway frames, and becomes
      active when it has seen a complete placeholder event. */
  function Put(link: Link, c: Client, t: Text): (r: Client)
    ensures Advances(link, c, r)
    ensures !r.disconnected ==> UpstreamSent(r) == UpstreamSent(c) + UpstreamOf(t)
    ensures !link.wrapped ==> r.active == c.active
    ensures !r.disconnected ==> r.touched
  {
    hide UpstreamOf, Received, Relayed, OnlyGatewayFrames, ReadsAsGateway, Refuses, Activates, Plain;
    if c.disconnected then c
    else
      var outcome := link.write(c.writes);
      var got := if outcome.Broken? && outcome.taken < |t| then t[..outcome.taken] else t;
      AppendFrames(link, c.sent, true, got);
      var sent := Append(c.sent, true, got);
      var seen := Plain(Relayed(sent));
      var observed := link.wrapped && got != [];
      Client(
        sent,
        true,
        c.active || (observed && Activates(link.placeholder, seen)),
        c.committed
        || (observed && (!ReadsAsGateway(link.placeholder, Plain(got)) || Refuses(link.placeholder, seen))),
        outcome.Broken?,
        c.writes + 1,
        c.frames)
  }

  /** A delivered write adds its bytes. An observed one commits the response exactly when it, or an event
      it completes, does not read as gateway frames, and activates the coordinator exactly when a
      placeholder event is complete; a broken write adds at most a prefix. */
  lemma PutObserved(link: Link, c: Client, t: Text)
    ensures var r := Put(link, c, t);
            && Relayed(c.sent) <= Relayed(r.sent) <= Relayed(c.sent) + t
            && (!r.disconnected ==> Relayed(r.sent) == Relayed(c.sent) + t)
            && (link.wrapped && !r.disconnected && t != [] ==>
                  && (r.committed <==> || c.committed || !ReadsAsGateway(link.placeholder, Plain(t))
                                       || Refuses(link.placeholder, Plain(Relayed(r.sent))))
                  && (r.active <==> c.active || Activates(link.placeholder, Plain(Relayed(r.sent)))))
            && (r.active && !c.active ==> link.wrapped && Activates(link.placeholder, Plain(Relayed(r.sent))))
  {
    hide UpstreamOf, Received, Relayed, OnlyGatewayFrames, ReadsAsGateway, Refuses, Activates, Plain, Advances;
  }

  /** A frame written past the relay's writer. A refused frame counts as a broken connection
      only while nothing has been committed. */
  function PutFrame(link: Link, c: Client, frame: string, token: bool): (r: Client)
    ensures Advances(link, c, r)
    ensures UpstreamSent(r) == UpstreamSent(c)
    ensures r.committed == c.committed
    ensures !token ==> r.active == c.active
  {
    if c.disconnected then c
    else
      var outcome := link.frame(c.frames);
      if outcome.FrameSent? then
        UpstreamOfTag(FromGateway, frame);
        AppendFrames(link, c.sent, false, Tag(FromGateway, frame));
        c.(sent := Append(c.sent, false, Tag(FromGateway, frame)),
           touched := true, active := c.active || token, frames := c.frames + 1)
      else if outcome.FrameQueued? || c.committed then
        c.(frames := c.frames + 1)
      else
        c.(touched := c.touched || outcome.FrameBroken?, disconnected := true, frames := c.frames + 1)
  }

  /** What becomes of a frame: sent, it is received and shows, and a token makes the coordinator active; queued,
      or refused after a commit, it changes nothing; otherwise the connection is lost. */
  lemma FrameExactly(link: Link, c: Client, frame: string, token: bool)
    requires !c.disconnected
    ensures var r, outcome := PutFrame(link, c, frame, token), link.frame(c.frames);
            var lost := (outcome.FrameRefused? || outcome.FrameBroken?) && !c.committed;
            && (r.disconnected <==> lost)
            && (outcome.FrameSent? ==> && Received(r.sent) == Received(c.sent) + Tag(FromGateway, frame)
                                       && r.touched && (r.active <==> c.active || token))
            && (!outcome.FrameSent? ==> && r.sent == c.sent && r.active == c.active
                                        && (r.touched <==> c.touched || (lost && outcome.FrameBroken?)))
  {
    hide UpstreamOf, Received, Relayed, OnlyGatewayFrames, Advances;
  }

  /** A JSON answer of the gateway itself, written through the observed writer. */
  function Answer(link: Link, c: Client, body: string): (r: Client)
    ensures Later(c, r) && r.active == c.active
    ensures Faithful(link, c) ==> Faithful(link, r)
    ensures UpstreamSent(r) == UpstreamSent(c)
  {
    if c.disconnected then c
    else
      UpstreamOfTag(FromGateway, body);
      c.(sent := Append(c.sent, false, Tag(FromGateway, body)), touched := true, committed := true)
  }

  lemma {:induction false} UpstreamOfConcat(a: Text, b: Text)
    ensures UpstreamOf(a + b) == UpstreamOf(a) + UpstreamOf(b)
  {
    if a == [] {
      assert a + b == b;
    } else {
      assert (a + b)[0] == a[0] && (a + b)[1..] == a[1..] + b;
      UpstreamOfConcat(a[1..], b);
      Regroup(if a[0].origin.FromUpstream? then [a[0]] else [], UpstreamOf(a[1..]), UpstreamOf(b));
    }
  }

  lemma {:induction false} UpstreamOfTag(o: Origin, s: string)
    ensures UpstreamOf(Tag(o, s)) == if o.FromUpstream? then Tag(o, s) else []
  {
    if s != [] {
      assert Tag(o, s)[1..] == Tag(o, s[1..]);
      UpstreamOfTag(o, s[1..]);
    }
  }

  ghost predicate AllUpstream(t: Text) {
    forall i | 0 <= i < |t| :: t[i].origin.FromUpstream?
  }

  lemma {:induction false} UpstreamOfAll(t: Text)
    requires AllUpstream(t)
    ensures UpstreamOf(t) == t
  {
    if t != [] {
      UpstreamOfAll(t[1..]);
    }
  }

  lemma {:induction false} UpstreamOfNone(t: Text)
    requires forall i | 0 <= i < |t| :: t[i].origin.FromGateway?
    ensures UpstreamOf(t) == []
  {
    if t != [] {
      UpstreamOfNone(t[1..]);
    }
  }

  lemma {:induction false} SentPrefix(a: seq<Chunk>, b: seq<Chunk>)
    requires a <= b
    ensures UpstreamOf(Received(a)) <= UpstreamOf(Received(b))
    decreases |b|
  {
    if |a| < |b| {
      var init := b[..|b| - 1];
      SentPrefix(a, init);
      UpstreamOfConcat(Received(init), b[|b| - 1].text);
    } else {
      assert a == b;
    }
  }

  lemma SentMeans(c: Client)
    ensures UpstreamSent(c) == UpstreamOf(Received(c.sent))
  {
  }

  lemma {:induction false} RelayedReadsAsGateway(link: Link, sent: seq<Chunk>, k: nat)
    requires OnlyGatewayFrames(link, sent) && k < |sent| && sent[k].relayed
    ensures ReadsAsGateway(link.placeholder, Plain(sent[k].text))
    decreases |sent|
  {
    hide ReadsAsGateway;
    if k < |sent| - 1 {
      RelayedReadsAsGateway(link, sent[..|sent| - 1], k);
    }
  }

  /** How often the gateway has written a frame of its own. */
  function Times(frame: string, sent: seq<Chunk>): nat {
    if sent == [] then 0
    else
      var last := sent[|sent| - 1];
      Times(frame, sent[..|sent| - 1]) + if last == Chunk(false, Tag(FromGateway, frame)) then 1 else 0
  }

  lemma AppendTimes(frame: string, sent: seq<Chunk>, relayed: bool, t: Text)
    ensures Times(frame, Append(sent, relayed, t))
            == Times(frame, sent) + if !relayed && t != [] && t == Tag(FromGateway, frame) then 1 else 0
  {
  }

  lemma PutTimes(link: Link, c: Client, t: Text, frame: string)
    ensures Times(frame, Put(link, c, t).sent) == Times(frame, c.sent)
  {
    hide UpstreamOf, Received, Relayed, OnlyGatewayFrames, ReadsAsGateway, Refuses, Activates, Plain, Advances, Times;
    if !c.disconnected {
      var outcome := link.write(c.writes);
      AppendTimes(frame, c.sent, true, if outcome.Broken? && outcome.taken < |t| then t[..outcome.taken] else t);
    }
  }

  lemma PutIsNoFrame(link: Link, c: Client, t: Text)
    ensures Put(link, c, t).frames == c.frames
  {
    hide UpstreamOf, Received, Relayed, OnlyGatewayFrames, ReadsAsGateway, Refuses, Activates, Plain, Advances, Append;
  }

  lemma FrameCounts(link: Link, c: Client, frame: string, token: bool)
    ensures PutFrame(link, c, frame, token).frames == if c.disconnected then c.frames else c.frames + 1
  {
    hide UpstreamOf, Received, Relayed, OnlyGatewayFrames, Advances, Append;
  }

  lemma TagIsText(a: string, b: string)
    requires Tag(FromGateway, a) == Tag(FromGateway, b)
    ensures a == b
  {
    assert |a| == |b|;
    forall i | 0 <= i < |a| ensures a[i] == b[i] {
      assert Tag(FromGateway, a)[i] == Tag(FromGateway, b)[i];
    }
  }

  lemma PutFrameTimes(link: Link, c: Client, written: string, token: bool, frame: string)
    ensures var r := PutFrame(link, c, written, token);
            Times(frame, c.sent) <= Times(frame, r.sent)
            <= Times(frame, c.sent) + if written == frame && !r.disconnected then 1 else 0
  {
    hide UpstreamOf, Received, Relayed, OnlyGatewayFrames, Advances, Times;
    AppendTimes(frame, c.sent, false, Tag(FromGateway, written));
    if Tag(FromGateway, written) == Tag(FromGateway, frame) {
      TagIsText(written, frame);
    }
  }

  // ---- the 4 KiB buffered writer in front of the response --------------------------------

  const CAPACITY := 4096

  type Buffer = t: Text | |t| <= CAPACITY

  datatype Pipe = Pipe(client: Client, buffer: Buffer)

  /** Upstream bytes on their way: those received, then those still buffered. */
  function Wire(p: Pipe): Text {
    UpstreamSent(p.client) + UpstreamOf(p.buffer)
  }

  /** A string write: what does not fit is pushed out in one or two writes. */
  function Write(link: Link, p: Pipe, t: Text): (r: Pipe)
    ensures Advances(link, p.client, r.client)
    ensures !link.wrapped ==> r.client.active == p.client.active
    ensures p.client.disconnected ==> r == p
  {
    hide Put;
    if p.client.disconnected then p
    else if |p.buffer| + |t| <= CAPACITY then p.(buffer := p.buffer + t)
    else if p.buffer == [] then p.(client := Put(link, p.client, t))
    else
      var room := CAPACITY - |p.buffer|;
      var c := Put(link, p.client, p.buffer + t[..room]);
      if c.disconnected then p.(client := c)
      else if |t| - room > CAPACITY then Pipe(Put(link, c, t[room..]), [])
      else Pipe(c, t[room..])
  }

  function Flush(link: Link, p: Pipe): (r: Pipe)
    ensures Advances(link, p.client, r.client)
    ensures !link.wrapped ==> r.client.active == p.client.active
    ensures p.client.disconnected ==> r == p
    ensures !r.client.disconnected ==> r.buffer == [] && r.client.touched
  {
    hide Put;
    if p.client.disconnected then p
    else if p.buffer == [] then p.(client := p.client.(touched := true))
    else
      var c := Put(link, p.client, p.buffer);
      Pipe(c, if c.disconnected then p.buffer else [])
  }

  /** Flushing nothing writes nothing, but starts the response. */
  lemma EmptyFlush(link: Link, c: Client)
    requires !c.disconnected
    ensures Flush(link, Pipe(c, [])) == Pipe(c.(touched := true), [])
  {
  }

  /** Buffering loses, repeats and reorders nothing. */
  lemma WriteConserves(link: Link, p: Pipe, t: Text)
    ensures var r := Write(link, p, t); !r.client.disconnected ==> Wire(r) == Wire(p) + UpstreamOf(t)
  {
    hide Put, UpstreamOf, UpstreamSent, Advances;
    if !p.client.disconnected {
      if |p.buffer| + |t| <= CAPACITY {
        UpstreamOfConcat(p.buffer, t);
        Regroup(UpstreamSent(p.client), UpstreamOf(p.buffer), UpstreamOf(t));
      } else if p.buffer == [] {
        UpstreamOfEmpty();
      } else {
        OverflowConserves(link, p, t, CAPACITY - |p.buffer|);
        UpstreamOfEmpty();
      }
    }
  }

  lemma UpstreamOfEmpty()
    ensures UpstreamOf([]) == []
  {
  }

  lemma OverflowConserves(link: Link, p: Pipe, t: Text, room: nat)
    requires room <= |t|
    ensures var c := Put(link, p.client, p.buffer + t[..room]);
            !c.disconnected ==> UpstreamSent(c) + UpstreamOf(t[room..]) == Wire(p) + UpstreamOf(t)
  {
    hide Put, UpstreamOf, UpstreamSent, Advances;
    var head, tail := t[..room], t[room..];
    UpstreamOfConcat(p.buffer, head);
    UpstreamOfConcat(head, tail);
    assert head + tail == t;
    Regroup(UpstreamSent(p.client), UpstreamOf(p.buffer), UpstreamOf(head));
    Regroup(Wire(p), UpstreamOf(head), UpstreamOf(tail));
  }

  /** All bytes on their way, gateway frames included. */
  function Arriving(p: Pipe): Text {
    Received(p.client.sent) + p.buffer
  }

  lemma PutArrives(link: Link, c: Client, t: Text)
    ensures var r := Put(link, c, t); !r.disconnected ==> Received(r.sent) == Received(c.sent) + t
  {
    hide UpstreamOf, Received, Relayed, OnlyGatewayFrames, ReadsAsGateway, Refuses, Activates, Plain, Advances;
  }

  lemma WriteArrives(link: Link, p: Pipe, t: Text)
    ensures var r := Write(link, p, t); !r.client.disconnected ==> Arriving(r) == Arriving(p) + t
  {
    hide Put, Received, Advances;
    if !p.client.disconnected {
      if |p.buffer| + |t| <= CAPACITY {
        Regroup(Received(p.client.sent), p.buffer, t);
      } else if p.buffer == [] {
        PutArrives(link, p.client, t);
      } else {
        var room := CAPACITY - |p.buffer|;
        var c := Put(link, p.client, p.buffer + t[..room]);
        PutArrives(link, p.client, p.buffer + t[..room]);
        PutArrives(link, c, t[room..]);
        assert t[..room] + t[room..] == t;
        assert Arriving(p) + t == Received(p.client.sent) + (p.buffer + t[..room]) + t[room..];
      }
    }
  }

  lemma FlushArrives(link: Link, p: Pipe)
    ensures var r := Flush(link, p);
            !r.client.disconnected ==> r.buffer == [] && Received(r.client.sent) == Arriving(p)
  {
    hide Put, Received, Advances;
    PutArrives(link, p.client, p.buffer);
  }

  lemma AnswerArrives(link: Link, c: Client, body: string)
    ensures var r := Answer(link, c, body);
            !r.disconnected ==>
              r.committed && r.touched && Received(r.sent) == Received(c.sent) + Tag(FromGateway, body)
  {
    hide UpstreamOf, Received, Relayed, OnlyGatewayFrames;
  }

  lemma Regroup(a: Text, b: Text, c: Text)
    ensures a + (b + c) == (a + b) + c
  {
  }

  lemma FlushConserves(link: Link, p: Pipe)
    ensures var r := Flush(link, p); !r.client.disconnected ==> Wire(r) == Wire(p)
  {
  }

  // ---- what the coordinator has seen ----------------------------------------------------------------------

  lemma PlainConcat(a: Text, b: Text)
    ensures Plain(a + b) == Plain(a) + Plain(b)
  {
  }

  /** A write that stays inside a text without placeholders does not activate the coordinator. */
  lemma PutUnmarked(link: Link, c: Client, t: Text, whole: Text)
    requires !c.active && Relayed(c.sent) + t <= whole && Tame(link.placeholder, Plain(whole))
    ensures !Put(link, c, t).active
  {
    hide Put, Relayed, Tame, Activates, Plain, Refuses, ReadsAsGateway;
    PutObserved(link, c, t);
    var seen := Relayed(Put(link, c, t).sent);
    var rest := whole[|seen|..];
    assert whole == seen + rest;
    PlainConcat(seen, rest);
    TamePrefix(link.placeholder, Plain(seen), Plain(rest));
    TameIsInactive(link.placeholder, Plain(seen));
  }

  /** Everything on its way through the relay's writer. */
  function Stream(p: Pipe): Text {
    Relayed(p.client.sent) + p.buffer
  }

  lemma WriteUnmarked(link: Link, p: Pipe, t: Text, whole: Text)
    requires !p.client.active && !p.client.disconnected && Stream(p) + t <= whole
             && Tame(link.placeholder, Plain(whole))
    ensures var r := Write(link, p, t);
            !r.client.active && (!r.client.disconnected ==> Stream(r) == Stream(p) + t)
  {
    hide Put, Relayed, Tame, Plain, Activates, Refuses, ReadsAsGateway, Advances;
    if |p.buffer| + |t| <= CAPACITY {
      assert Relayed(p.client.sent) + (p.buffer + t) == Stream(p) + t;
    } else if p.buffer == [] {
      assert Stream(p) == Relayed(p.client.sent);
      PutUnmarked(link, p.client, t, whole);
      PutObserved(link, p.client, t);
      assert Stream(p) + t + [] == Stream(p) + t;
    } else {
      var room := CAPACITY - |p.buffer|;
      var head, tail := t[..room], t[room..];
      assert head + tail == t;
      assert Relayed(p.client.sent) + (p.buffer + head) + tail == Stream(p) + t;
      PutUnmarked(link, p.client, p.buffer + head, whole);
      PutObserved(link, p.client, p.buffer + head);
      var c := Put(link, p.client, p.buffer + head);
      if !c.disconnected && |t| - room > CAPACITY {
        PutUnmarked(link, c, tail, whole);
        PutObserved(link, c, tail);
      }
    }
  }

  lemma FlushUnmarked(link: Link, p: Pipe)
    requires !p.client.active && !p.client.disconnected && Tame(link.placeholder, Plain(Stream(p)))
    ensures var r := Flush(link, p);
            !r.client.active && (!r.client.disconnected ==> Stream(r) == Stream(p))
  {
    hide Put, Relayed, Tame, Plain, Activates, Refuses, ReadsAsGateway, Advances;
    PutUnmarked(link, p.client, p.buffer, Stream(p));
    PutObserved(link, p.client, p.buffer);
  }

  lemma PutFrameUnseen(link: Link, c: Client, frame: string, token: bool)
    ensures Relayed(PutFrame(link, c, frame, token).sent) == Relayed(c.sent)
  {
    hide Relayed, Received, UpstreamOf, OnlyGatewayFrames, Advances;
  }
}
