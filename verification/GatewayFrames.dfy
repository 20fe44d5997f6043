/** How the placeholder coordinator reads one write: as gateway frames only, or as upstream output
    that commits the response. Only the JSON test for a placeholder payload is left open. */
module GatewayFrames {
  import opened Strings

  /** Whether a payload is valid JSON of type response.transport_progress.delta. */
  type Placeholder = string -> bool

  /** What is known of the block of lines being read; blocks end at an empty line. */
  datatype Block = Fresh | Comment | Frame(hasData: bool)

  function PayloadOf(line: string): string
    requires "data:" <= line
  {
    TrimSpace(line[5..])
  }

  predicate IsData(line: string) {
    "data:" <= line
  }

  predicate FrameLine(ph: Placeholder, t: string) {
    t == "" || "event:" <= t || (IsData(t) && ph(PayloadOf(t)))
  }

  /** A block may end anywhere but in a frame without data. */
  predicate MayEnd(b: Block) {
    b.Frame? ==> b.hasData
  }

  /** White space in front of a block does not count; a comment block is read no further, except that
      no data line may hide in it; any other block consists of event lines and placeholders. */
  predicate Accepts(ph: Placeholder, lines: seq<string>, b: Block) {
    if lines == [] then MayEnd(b)
    else
      var line, rest := lines[0], lines[1..];
      var t := TrimSpace(line);
      if line == "" then MayEnd(b) && Accepts(ph, rest, Fresh)
      else if b.Comment? then !IsData(line) && Accepts(ph, rest, b)
      else if b.Fresh? && t == "" then Accepts(ph, rest, b)
      else if b.Fresh? && t[0] == ':' then Accepts(ph, rest, Comment)
      else FrameLine(ph, t) && Accepts(ph, rest, Frame((b.Frame? && b.hasData) || IsData(t)))
  }

  predicate ReadsAsGateway(ph: Placeholder, text: string) {
    Accepts(ph, Split(text), Fresh)
  }

  /** The line carries the gateway's own placeholder. */
  predicate IsPlaceholder(ph: Placeholder, line: string) {
    IsData(TrimSpace(line)) && ph(PayloadOf(TrimSpace(line)))
  }

  lemma DataStaysData(line: string)
    requires IsData(line)
    ensures IsData(TrimSpace(line)) && TrimSpace(line)[0] == 'd'
  {
    assert line[0] == 'd' && line[4] == ':' && line[..5] == "data:";
    assert TrimLeft(line, IsSpace) == line;
    TrimRightKeeps(line, 5);
  }

  lemma {:induction false} TrimRightKeeps(s: string, n: nat)
    requires 0 < n <= |s| && !IsSpace(s[n - 1])
    ensures s[..n] <= TrimRight(s, IsSpace)
  {
    if |s| > n && IsSpace(s[|s| - 1]) {
      TrimRightKeeps(s[..|s| - 1], n);
      assert s[..|s| - 1][..n] == s[..n];
    }
  }

  /** Every data line in a write that reads as gateway frames is a placeholder. */
  lemma {:induction false} AcceptedDataIsPlaceholder(ph: Placeholder, lines: seq<string>, b: Block, i: nat)
    requires Accepts(ph, lines, b) && i < |lines| && IsData(lines[i])
    ensures IsPlaceholder(ph, lines[i])
    decreases lines
  {
    hide TrimSpace;
    var line := lines[0];
    if i > 0 {
      var next := if line == "" then Fresh
                  else if b.Comment? || (b.Fresh? && TrimSpace(line) == "") then b
                  else if b.Fresh? && TrimSpace(line)[0] == ':' then Comment
                  else Frame((b.Frame? && b.hasData) || IsData(TrimSpace(line)));
      AcceptedDataIsPlaceholder(ph, lines[1..], next, i - 1);
    } else {
      DataStaysData(line);
      assert line != "";
    }
  }

  /** A data line written on its own reads as a gateway frame exactly when it is a placeholder. */
  lemma DataLineReads(ph: Placeholder, w: string)
    requires IsData(w) && OneLine(w)
    ensures ReadsAsGateway(ph, w + "\n") <==> IsPlaceholder(ph, w)
  {
    hide TrimSpace, Split;
    SplitLine(w);
    DataStaysData(w);
    var lines := [w, ""];
    assert lines[1..] == [""] && lines[1..][1..] == [];
    var t := TrimSpace(w);
    assert w != "" && t != "" && "event:"[0] == 'e' && !("event:" <= t);
    assert Accepts(ph, [""], Frame(true)) by { assert [""][1..] == []; }
    assert Accepts(ph, lines, Fresh) <==> FrameLine(ph, t);
  }

  /** A blank line and a bare comment always do. */
  lemma BareLinesRead(ph: Placeholder)
    ensures ReadsAsGateway(ph, "\n") && ReadsAsGateway(ph, ":\n")
  {
    hide TrimSpace, Split;
    SplitLine("");
    SplitLine(":");
    ColonIsPlain();
    assert ["", ""][1..] == [""] && [""][1..] == [] && [":", ""][1..] == [""];
    assert "" + "\n" == "\n" && ":" + "\n" == ":\n";
  }

  lemma ColonIsPlain()
    ensures TrimSpace(":") == ":"
  {
    assert Trimmed(":", IsSpace);
  }

  /** A blank line followed by a keepalive comment: upstream text that reads as a gateway frame, as a write
      and as events. */
  lemma BlankBeforeComment(ph: Placeholder)
    ensures ReadsAsGateway(ph, "\n:\n\n") && !Refuses(ph, "\n:\n\n")
  {
    hide TrimSpace, Split;
    SplitBlankComment();
    ColonIsPlain();
    var lines := ["", ":", "", ""];
    assert lines[1..] == [":", "", ""] && [":", "", ""][1..] == ["", ""] && ["", ""][1..] == [""] && [""][1..] == [];
    assert lines[..3] == ["", ":", ""] && lines[..3][1..] == [":", ""] && [":", ""][1..] == [""];
    assert Accepts(ph, [":"], Fresh) && Accepts(ph, [], Fresh) by { assert [":"][1..] == []; }
    assert [] + [":"] == [":"];
  }

  lemma SplitBlankComment()
    ensures Split("\n:\n\n") == ["", ":", "", ""]
  {
    assert "\n:\n\n"[1..] == ":\n\n" && ":\n\n"[1..] == "\n\n" && "\n\n"[1..] == "\n" && "\n"[1..] == "";
    assert Split("") == [""] && Split("\n") == ["", ""];
    assert Split("\n\n") == ["", "", ""];
    assert Split(":\n\n") == [":"] + ["", "", ""][1..] by { assert [':'] + "" == ":"; }
  }

  /** A data line as the gateway prints it. */
  function DataText(payload: string): (w: string)
    ensures |w| == |payload| + 6 && w[0] == 'd' && IsData(w) && w[5..] == " " + payload
  {
    var w := "data: " + payload;
    assert w[..5] == "data:";
    w
  }

  lemma WireTrims(payload: string)
    requires payload != "" && Trimmed(payload, IsSpace)
    ensures TrimSpace(DataText(payload)) == DataText(payload)
  {
    hide TrimSpace, IsSpace, DataText;
    SpaceTest();
    var w := DataText(payload);
    assert w[|w| - 1] == w[5..][|payload|] == payload[|payload| - 1];
  }

  lemma WireIsOneLine(payload: string)
    requires OneLine(payload)
    ensures OneLine(DataText(payload))
  {
  }

  lemma SpaceTest()
    ensures !IsSpace('d') && IsSpace(' ')
  {
  }

  lemma PaddedTrims(payload: string)
    requires payload != "" && Trimmed(payload, IsSpace)
    ensures TrimSpace(" " + payload) == payload
  {
    hide IsSpace;
    SpaceTest();
    assert (" " + payload)[1..] == payload;
    assert TrimLeft(" " + payload, IsSpace) == TrimLeft(payload, IsSpace);
  }

  /** It carries just its payload. */
  lemma WirePayload(ph: Placeholder, payload: string)
    requires payload != "" && Trimmed(payload, IsSpace)
    ensures IsPlaceholder(ph, DataText(payload)) <==> ph(payload)
  {
    hide TrimSpace, DataText;
    WireTrims(payload);
    PaddedTrims(payload);
  }

  // ---- block by block ------------------------------------------------------------------------------------

  /** The lines before the first empty one. */
  function BlockEnd(lines: seq<string>): (n: nat)
    ensures n <= |lines| && (forall i | 0 <= i < n :: lines[i] != "") && (n < |lines| ==> lines[n] == "")
  {
    if lines == [] || lines[0] == "" then 0 else 1 + BlockEnd(lines[1..])
  }

  function SkipSpace(block: seq<string>): (r: seq<string>)
    ensures r != [] ==> TrimSpace(r[0]) != ""
  {
    hide TrimSpace;
    if block != [] && TrimSpace(block[0]) == "" then SkipSpace(block[1..]) else block
  }

  ghost predicate NoData(lines: seq<string>) {
    forall i | 0 <= i < |lines| :: !IsData(lines[i])
  }

  /** Event lines, placeholders and white space, and at least one placeholder. */
  ghost predicate PlaceholderBlock(ph: Placeholder, block: seq<string>) {
    && (forall i | 0 <= i < |block| ::
          var t := TrimSpace(block[i]);
          t == "" || "event:" <= t || (IsData(t) && ph(PayloadOf(t))))
    && exists i :: 0 <= i < |block| && IsData(TrimSpace(block[i]))
  }

  /** One block on its own: nothing but white space, a comment in which no data line hides, or placeholders. */
  ghost predicate GoodBlock(ph: Placeholder, block: seq<string>) {
    var core := SkipSpace(block);
    || core == []
    || (if TrimSpace(core[0])[0] == ':' then NoData(core[1..]) else PlaceholderBlock(ph, core))
  }

  /** Each block is read on its own. */
  ghost predicate BlocksRead(ph: Placeholder, lines: seq<string>)
    decreases |lines|
  {
    var n := BlockEnd(lines);
    GoodBlock(ph, lines[..n]) && (n < |lines| ==> BlocksRead(ph, lines[n + 1..]))
  }

  lemma {:induction false} CommentReads(ph: Placeholder, block: seq<string>)
    requires forall i | 0 <= i < |block| :: block[i] != ""
    ensures Accepts(ph, block, Comment) <==> NoData(block)
    decreases block
  {
    hide TrimSpace, IsData;
    if block != [] {
      CommentReads(ph, block[1..]);
      assert forall i | 0 < i < |block| :: block[i] == block[1..][i - 1];
    }
  }

  lemma {:induction false} FrameReads(ph: Placeholder, block: seq<string>, hasData: bool)
    requires forall i | 0 <= i < |block| :: block[i] != ""
    ensures Accepts(ph, block, Frame(hasData))
            <==> && (forall i | 0 <= i < |block| :: FrameLine(ph, TrimSpace(block[i])))
                 && (hasData || exists i :: 0 <= i < |block| && IsData(TrimSpace(block[i])))
    decreases block
  {
    hide TrimSpace, IsData, FrameLine;
    if block != [] {
      var rest := block[1..];
      FrameReads(ph, rest, hasData || IsData(TrimSpace(block[0])));
      assert forall i | 0 < i < |block| :: block[i] == rest[i - 1];
      if i :| 0 <= i < |rest| && IsData(TrimSpace(rest[i])) {
        assert IsData(TrimSpace(block[i + 1]));
      }
      if i :| 0 < i < |block| && IsData(TrimSpace(block[i])) {
        assert IsData(TrimSpace(rest[i - 1]));
      }
    }
  }

  lemma {:induction false} BlockReads(ph: Placeholder, block: seq<string>)
    requires forall i | 0 <= i < |block| :: block[i] != ""
    ensures Accepts(ph, block, Fresh) <==> GoodBlock(ph, block)
    decreases block
  {
    hide TrimSpace, IsData, FrameLine;
    if block != [] {
      var t, rest := TrimSpace(block[0]), block[1..];
      if t == "" {
        BlockReads(ph, rest);
      } else if t[0] == ':' {
        CommentReads(ph, rest);
      } else {
        FrameReads(ph, rest, IsData(t));
        FrameOfFirst(ph, block);
      }
    }
  }

  lemma FrameOfFirst(ph: Placeholder, block: seq<string>)
    requires block != []
    ensures PlaceholderBlock(ph, block)
            <==> && FrameLine(ph, TrimSpace(block[0]))
                 && (forall i | 0 <= i < |block[1..]| :: FrameLine(ph, TrimSpace(block[1..][i])))
                 && (|| IsData(TrimSpace(block[0]))
                     || exists i :: 0 <= i < |block[1..]| && IsData(TrimSpace(block[1..][i])))
  {
    hide TrimSpace;
    var rest := block[1..];
    assert forall i | 0 < i < |block| :: block[i] == rest[i - 1];
    if i :| 0 <= i < |rest| && IsData(TrimSpace(rest[i])) {
      assert IsData(TrimSpace(block[i + 1]));
    }
    if i :| 0 < i < |block| && IsData(TrimSpace(block[i])) {
      assert IsData(TrimSpace(rest[i - 1]));
    }
  }

  lemma {:induction false} ReadsAcross(ph: Placeholder, block: seq<string>, rest: seq<string>, b: Block)
    requires forall i | 0 <= i < |block| :: block[i] != ""
    ensures Accepts(ph, block + [""] + rest, b) <==> Accepts(ph, block, b) && Accepts(ph, rest, Fresh)
    decreases block
  {
    hide TrimSpace, IsData, FrameLine;
    var all := block + [""] + rest;
    if block == [] {
      assert all[0] == "" && all[1..] == rest;
    } else {
      var t := TrimSpace(block[0]);
      assert all[0] == block[0] && all[1..] == block[1..] + [""] + rest;
      var next := if b.Comment? || (b.Fresh? && t == "") then b
                  else if b.Fresh? && t[0] == ':' then Comment
                  else Frame((b.Frame? && b.hasData) || IsData(t));
      ReadsAcross(ph, block[1..], rest, next);
    }
  }

  /** Reading line by line comes to the same as reading block by block. */
  lemma {:induction false} BlockwiseExactly(ph: Placeholder, lines: seq<string>)
    ensures Accepts(ph, lines, Fresh) <==> BlocksRead(ph, lines)
    decreases |lines|
  {
    hide Accepts, GoodBlock;
    var n := BlockEnd(lines);
    BlockReads(ph, lines[..n]);
    if n < |lines| {
      assert lines == lines[..n] + [""] + lines[n + 1..];
      ReadsAcross(ph, lines[..n], lines[n + 1..], Fresh);
      BlockwiseExactly(ph, lines[n + 1..]);
    } else {
      assert lines[..n] == lines;
    }
  }

  // ---- events put together from several writes ---------------------------------------------------------

  /** The lines of a text that have ended. */
  function Complete(text: string): seq<string> {
    Split(text)[..|Split(text)| - 1]
  }

  /** The event carries a placeholder. */
  predicate HasToken(ph: Placeholder, event: seq<string>) {
    exists i :: 0 <= i < |event| && IsPlaceholder(ph, event[i])
  }

  /** All events that an empty line ended read as gateway frames. */
  predicate EventsRead(ph: Placeholder, lines: seq<string>, event: seq<string>)
    decreases lines
  {
    lines == []
    || (if lines[0] == "" then Accepts(ph, event, Fresh) && EventsRead(ph, lines[1..], [])
        else EventsRead(ph, lines[1..], event + [lines[0]]))
  }

  /** One of them reads as gateway frames and carries a placeholder. */
  predicate TokenCompleted(ph: Placeholder, lines: seq<string>, event: seq<string>)
    decreases lines
  {
    lines != []
    && (if lines[0] == ""
        then (Accepts(ph, event, Fresh) && HasToken(ph, event)) || TokenCompleted(ph, lines[1..], [])
        else TokenCompleted(ph, lines[1..], event + [lines[0]]))
  }

  /** What the coordinator makes of all text it has seen: upstream output, or its own token event. */
  predicate Refuses(ph: Placeholder, text: string) {
    !EventsRead(ph, Complete(text), [])
  }

  predicate Activates(ph: Placeholder, text: string) {
    TokenCompleted(ph, Complete(text), [])
  }

  lemma {:induction false} EventEnds(ph: Placeholder, lines: seq<string>, event: seq<string>)
    ensures var n := BlockEnd(lines);
            && (EventsRead(ph, lines, event)
                <==> (n < |lines| ==> Accepts(ph, event + lines[..n], Fresh) && EventsRead(ph, lines[n + 1..], [])))
            && (TokenCompleted(ph, lines, event)
                <==> n < |lines| && (|| (Accepts(ph, event + lines[..n], Fresh) && HasToken(ph, event + lines[..n]))
                                     || TokenCompleted(ph, lines[n + 1..], [])))
    decreases lines
  {
    hide Accepts, HasToken;
    if lines != [] {
      if lines[0] == "" {
        assert event + lines[..0] == event;
      } else {
        var rest, n := lines[1..], BlockEnd(lines);
        EventEnds(ph, rest, event + [lines[0]]);
        assert event + [lines[0]] + rest[..n - 1] == event + lines[..n];
        assert n < |lines| ==> rest[n..] == lines[n + 1..];
      }
    }
  }

  /** Event by event: what has been seen reads as upstream output exactly when the first event that has ended does,
      or what follows it; and likewise it holds a token event. */
  lemma EventsExactly(ph: Placeholder, lines: seq<string>)
    ensures var n := BlockEnd(lines);
            && (EventsRead(ph, lines, [])
                <==> (n < |lines| ==> BlocksRead(ph, lines[..n]) && EventsRead(ph, lines[n + 1..], [])))
            && (TokenCompleted(ph, lines, [])
                <==> n < |lines| && (|| (BlocksRead(ph, lines[..n]) && HasToken(ph, lines[..n]))
                                     || TokenCompleted(ph, lines[n + 1..], [])))
  {
    hide Accepts, HasToken, BlocksRead;
    var n := BlockEnd(lines);
    EventEnds(ph, lines, []);
    BlockwiseExactly(ph, lines[..n]);
    assert [] + lines[..n] == lines[..n];
  }

  /** No line that has ended carries a placeholder. */
  ghost predicate Tame(ph: Placeholder, text: string) {
    forall i | 0 <= i < |Complete(text)| :: !IsPlaceholder(ph, Complete(text)[i])
  }

  lemma {:induction false} NoTokenFrom(ph: Placeholder, lines: seq<string>, event: seq<string>)
    requires forall i | 0 <= i < |lines| :: !IsPlaceholder(ph, lines[i])
    requires forall i | 0 <= i < |event| :: !IsPlaceholder(ph, event[i])
    ensures !TokenCompleted(ph, lines, event)
    decreases lines
  {
    hide IsPlaceholder, Accepts;
    if lines != [] {
      NoTokenFrom(ph, lines[1..], if lines[0] == "" then [] else event + [lines[0]]);
    }
  }

  /** Without a placeholder the coordinator stays inactive. */
  lemma TameIsInactive(ph: Placeholder, text: string)
    requires Tame(ph, text)
    ensures !Activates(ph, text)
  {
    NoTokenFrom(ph, Complete(text), []);
  }

  /** Two lists of lines whose inner ends meet in one line. */
  function Glue(x: seq<string>, y: seq<string>): seq<string>
    requires x != [] && y != []
  {
    x[..|x| - 1] + [x[|x| - 1] + y[0]] + y[1..]
  }

  lemma GlueLine(x: seq<string>, y: seq<string>)
    requires x != [] && y != []
    ensures Glue([""] + x, y) == [""] + Glue(x, y)
  {
    assert ([""] + x)[..|x|] == [""] + x[..|x| - 1];
  }

  lemma GlueChar(c: char, x: seq<string>, y: seq<string>)
    requires x != [] && y != []
    ensures Glue([[c] + x[0]] + x[1..], y) == [[c] + Glue(x, y)[0]] + Glue(x, y)[1..]
  {
    var z := [[c] + x[0]] + x[1..];
    if |x| == 1 {
      assert z == [[c] + x[0]] && z[..0] == [] && x[..0] == [];
      assert ([c] + x[0]) + y[0] == [c] + (x[0] + y[0]);
    } else {
      assert z[..|z| - 1] == [[c] + x[0]] + x[1..|x| - 1];
      assert x[..|x| - 1][1..] == x[1..|x| - 1];
    }
  }

  lemma {:induction false} SplitConcat(a: string, b: string)
    ensures Split(a + b) == Glue(Split(a), Split(b))
  {
    if a == "" {
      assert a + b == b && Split(a) == [""] && [""][..0] == [] && "" + Split(b)[0] == Split(b)[0];
    } else {
      hide Glue;
      assert (a + b)[0] == a[0] && (a + b)[1..] == a[1..] + b;
      SplitConcat(a[1..], b);
      if a[0] == '\n' {
        GlueLine(Split(a[1..]), Split(b));
      } else {
        GlueChar(a[0], Split(a[1..]), Split(b));
      }
    }
  }

  /** The lines that ended in a beginning are the first ones that ended in the whole. */
  lemma CompletePrefix(a: string, b: string)
    ensures Complete(a) <= Complete(a + b)
  {
    hide Split;
    SplitConcat(a, b);
  }

  lemma TamePrefix(ph: Placeholder, a: string, b: string)
    requires Tame(ph, a + b)
    ensures Tame(ph, a)
  {
    hide Complete, IsPlaceholder;
    CompletePrefix(a, b);
    assert forall i | 0 <= i < |Complete(a)| :: Complete(a)[i] == Complete(a + b)[i];
  }

  /** A text that ends with a line. */
  predicate Aligned(text: string) {
    Split(text)[|Split(text)| - 1] == ""
  }

  lemma TameLine(ph: Placeholder, text: string, w: string)
    requires Tame(ph, text) && Aligned(text) && OneLine(w) && !IsPlaceholder(ph, w)
    ensures Tame(ph, text + (w + "\n")) && Aligned(text + (w + "\n"))
  {
    hide Split, IsPlaceholder;
    SplitConcat(text, w + "\n");
    SplitLine(w);
    assert "" + w == w;
    assert Complete(text + (w + "\n")) == Complete(text) + [w];
  }

  /** A line on its own completes no event. */
  lemma LoneLine(ph: Placeholder, w: string)
    requires OneLine(w) && w != ""
    ensures !Refuses(ph, w + "\n") && !Activates(ph, w + "\n")
  {
    hide Split, Accepts;
    SplitLine(w);
    assert Complete(w + "\n") == [w] && [w][1..] == [] && [] + [w] == [w];
    assert EventsRead(ph, [], [w]) && !TokenCompleted(ph, [], [w]);
  }

  lemma LoneBlank(ph: Placeholder)
    ensures !Refuses(ph, "\n") && !Activates(ph, "\n")
  {
    hide Split;
    SplitLine("");
    assert "" + "\n" == "\n" && ["", ""][..1] == [""] && [""][1..] == [];
  }

  /** A placeholder and the end of its event activate the coordinator and commit nothing. */
  lemma PlaceholderEvent(ph: Placeholder, w: string)
    requires IsData(w) && OneLine(w) && IsPlaceholder(ph, w)
    ensures Activates(ph, w + "\n" + "\n") && !Refuses(ph, w + "\n" + "\n")
  {
    hide Split, TrimSpace;
    SplitLine(w);
    SplitLine("");
    SplitConcat(w + "\n", "\n");
    assert "" + "\n" == "\n" && "" + "" == "" && [w, ""][..1] == [w] && ["", ""][1..] == [""];
    var lines := Complete(w + "\n" + "\n");
    assert Split(w + "\n" + "\n") == [w, "", ""];
    assert lines == [w, ""] && lines[1..] == [""] && [""][1..] == [] && [] + [w] == [w];
    DataStaysData(w);
    assert [w][1..] == [] && !("event:" <= TrimSpace(w)) by { assert "event:"[0] == 'e'; }
    assert Accepts(ph, [w], Fresh);
    assert HasToken(ph, [w]) by { assert IsPlaceholder(ph, [w][0]); }
    assert EventsRead(ph, [], []) && EventsRead(ph, [""], [w]) && TokenCompleted(ph, [""], [w]);
  }
}
