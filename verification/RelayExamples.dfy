/** Clients, connections and lines for runs that show where a promise of the relays stops. */
module RelayExamples {
  import opened StreamEvents
  import opened Downstream
  import opened GatewayFrames
  import opened Strings
  import opened Relays

  /** The upstream bytes a client has are its first chunk at least. */
  lemma FirstChunkShows(c: Client, text: string)
    requires c.sent != [] && LineText(text) <= c.sent[0].text
    ensures UpstreamSent(c) != []
  {
    var first := c.sent[0].text;
    SentPrefix([c.sent[0]], c.sent);
    assert Received([c.sent[0]]) == first by { assert [c.sent[0]][..0] == []; assert [] + first == first; }
    var tail := first[|LineText(text)|..];
    assert first == LineText(text) + tail;
    UpstreamOfConcat(LineText(text), tail);
    UpstreamOfConcat(Tag(FromUpstream, text), Tag(FromUpstream, "\n"));
    UpstreamOfTag(FromUpstream, text);
    UpstreamOfTag(FromUpstream, "\n");
  }

  function Clear(wrapped: bool, ph: Placeholder): Link {
    Link(wrapped, false, n => Delivered, n => FrameSent, ph, n => false)
  }

  function NewClient(active: bool): Client {
    Client([], false, active, false, false, 0, 0)
  }

  function Delta(wire: string, token: bool, safe: string): Payload {
    Payload(OtherEvent("response.output_text.delta"), false, false, true, false, None, None, {}, {},
            false, false, false, true, token, true, false, true, wire, safe, safe)
  }

  lemma ExampleWires(ph: Placeholder)
    requires ph("p") && !ph("x")
    ensures IsWire(DataText("p")) && IsWire(DataText("x")) && |DataText("p")| < 100 && |DataText("x")| < 100
    ensures IsPlaceholder(ph, DataText("p")) && !IsPlaceholder(ph, DataText("x"))
  {
    hide TrimSpace, IsPlaceholder, DataText;
    WireIsOneLine("p");
    WireIsOneLine("x");
    assert Trimmed("p", IsSpace) && Trimmed("x", IsSpace) && OneLine("p") && OneLine("x");
    WirePayload(ph, "p");
    WirePayload(ph, "x");
  }

  lemma DeltaOpens(cfg: Config, wire: string, token: bool, safe: string)
    requires token || !cfg.gatewayOnly
    ensures var p := Delta(wire, token, safe);
            && p.ptype.OtherEvent? && OpensOutput(cfg, p.ptype, p) && !NeedsSanitizing(p.ptype, p) && p.wire == wire
            && p.safeWire == p.safeWireLate == safe && p.tokenDelta == token && !p.done
  {
  }

  /** A first write that is delivered and, where the coordinator sees it, reads as gateway frames. */
  lemma FirstPut(link: Link, active: bool, t: Text)
    requires link.write(0).Delivered? && t != []
    requires link.wrapped ==> ReadsAsGateway(link.placeholder, Plain(t)) && !Refuses(link.placeholder, Plain(t))
    requires !active ==> !Activates(link.placeholder, Plain(t))
    ensures Put(link, NewClient(active), t) == Client([Chunk(true, t)], true, active, false, false, 1, 0)
  {
    hide ReadsAsGateway, Refuses, Activates, Plain, UpstreamOf, Received, OnlyGatewayFrames, Advances;
    assert [Chunk(true, t)][..0] == [] && [] + t == t;
    assert Append([], true, t) == [Chunk(true, t)];
  }

  /** A second write that completes a placeholder event. */
  lemma SecondPut(link: Link, first: Text, t: Text)
    requires link.wrapped && link.write(1).Delivered? && t != [] && ReadsAsGateway(link.placeholder, Plain(t))
    requires !Refuses(link.placeholder, Plain(first + t)) && Activates(link.placeholder, Plain(first + t))
    ensures var c := Client([Chunk(true, first)], true, false, false, false, 1, 0);
            Put(link, c, t) == Client([Chunk(true, first), Chunk(true, t)], true, true, false, false, 2, 0)
  {
    hide ReadsAsGateway, Refuses, Activates, Plain, UpstreamOf, Received, OnlyGatewayFrames, Advances;
    assert [Chunk(true, first)][..0] == [] && [] + first == first;
    assert Relayed([Chunk(true, first)]) == first;
    assert Append([Chunk(true, first)], true, t) == [Chunk(true, first), Chunk(true, t)];
  }

  /** A client that has received nothing. */
  lemma NothingRelayed(link: Link, c: Client)
    requires c.sent == []
    ensures Spotless(link, c) && UpstreamSent(c) == []
  {
    hide Spotless;
    assert Plain(Relayed(c.sent)) == "";
    EarlyCommentIsSpotless(link, c);
  }
}
