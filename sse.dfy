/** The server-sent-event token assembler of `handleSendMessage`
    (src/components/nutriscan/AnalysisView.tsx, lines 65-103).

    A read chunk is appended to a text buffer; complete `\n`-terminated lines are
    cut from the front of the buffer one at a time and classified. A `data: `
    line carries a JSON payload whose `choices[0].delta.content` is appended to
    the running answer. `JSON.parse` together with that lookup is an abstract
    `Parser`. */
module Sse {
  import opened Strings

  /** What `JSON.parse(payload).choices?.[0]?.delta?.content` yields: a delta
      (the empty string standing for any falsy or missing content), or an
      exception (a payload that is not JSON, or a JSON value such as `null`
      whose `.choices` lookup throws). */
  datatype Frame = Parsed(delta: string) | Unparsable

  type Parser = string -> Frame

  /** What one extracted line does to the assembler. */
  datatype LineKind =
    | Ignored          // comment, blank line, or a field other than `data: `
    | Done             // the `[DONE]` sentinel
    | Delta(text: string)
    | Unparsed         // payload made `JSON.parse` (or the lookup) throw

  /** The state the line loop works on: the pending text, the assembled answer,
      and every value handed to `setStreamingContent`, oldest first. */
  datatype Assembly = Assembly(buffer: string, content: string, shown: seq<string>)

  const Start := Assembly("", "", [])

  /** `if (line.endsWith('\r')) line = line.slice(0, -1)`: at most one character. */
  function StripCr(line: string): string {
    if EndsWith(line, "\r") then line[..|line| - 1] else line
  }

  /** The decision the loop body takes on one line (the `\n` already removed). */
  function Classify(line: string, parse: Parser): LineKind {
    ClassifyLine(StripCr(line), parse)
  }

  /** The same decision once the trailing `\r` is gone. */
  function ClassifyLine(l: string, parse: Parser): LineKind {
    if StartsWith(l, ":") || Trim(l) == "" then Ignored
    else if !StartsWith(l, "data: ") then Ignored
    else
      var payload := Trim(l[6..]);
      if payload == "[DONE]" then Done
      else match parse(payload)
        case Unparsable => Unparsed
        case Parsed(d) => Delta(d)
  }

  /** A per-line decision; the source's own is `LineKinds(parse)`. The line
      loop is stated for any classifier, so that its properties do not depend
      on the details of the decision. */
  type Classifier = string -> LineKind

  function LineKinds(parse: Parser): Classifier {
    line => Classify(line, parse)
  }

  /** The inner `while ((newlineIndex = buffer.indexOf('\n')) !== -1)` loop of one
      read: the new buffer, the new answer, and the values shown during the read. */
  function Drain(buffer: string, content: string, classify: Classifier): Assembly
    decreases |buffer|
  {
    var i := IndexOf(buffer, '\n');
    if i < 0 then Assembly(buffer, content, [])
    else
      var line := buffer[..i];
      var rest := buffer[i + 1..];
      match classify(line)
      case Ignored => Drain(rest, content, classify)
      case Done => Assembly(rest, content, [])
      case Unparsed => Assembly(StripCr(line) + "\n" + rest, content, [])
      case Delta(d) =>
        if d == "" then Drain(rest, content, classify)
        else
          var r := Drain(rest, content + d, classify);
          Assembly(r.buffer, r.content, [content + d] + r.shown)
  }

  /** One iteration of the outer read loop. */
  function Feed(s: Assembly, chunk: string, classify: Classifier): Assembly {
    var d := Drain(s.buffer + chunk, s.content, classify);
    Assembly(d.buffer, d.content, s.shown + d.shown)
  }

  /** The outer read loop over every chunk the reader delivers before `done`. */
  function FeedAll(s: Assembly, chunks: seq<string>, classify: Classifier): Assembly
    decreases |chunks|
  {
    if chunks == [] then s else FeedAll(Feed(s, chunks[0], classify), chunks[1..], classify)
  }

  /** What handling the first line of `buffer0` does, by the line's class: an
      inert or delta line is consumed and its delta appended, `[DONE]` is
      consumed and stops the read, an unparsable payload is put back without
      its `\r` and stops the read. */
  predicate Took(buffer0: string, content0: string, parse: Parser,
                 buffer: string, content: string, shown: seq<string>, stop: bool)
    requires '\n' in buffer0
  {
    var i := IndexOf(buffer0, '\n');
    var line, rest := buffer0[..i], buffer0[i + 1..];
    var kind := Classify(line, parse);
    var d := DeltaOf(kind);
    ((kind.Ignored? || kind.Delta?) ==>
       !stop && buffer == rest && content == content0 + d && shown == (if d == "" then [] else [content0 + d]))
    && (kind.Done? ==> stop && buffer == rest && content == content0 && shown == [])
    && (kind.Unparsed? ==> stop && buffer == StripCr(line) + "\n" + rest && content == content0 && shown == [])
  }

  /** One pass of the inner loop's body (lines 81-100) on a buffer holding a
      complete line: the line is cut off the front and handled as its
      `Classify` decision says. Returns the new buffer (with the line pushed
      back when its payload does not parse), the answer, the value shown if
      any, and whether the loop stops here. */
  method TakeLine(buffer0: string, content0: string, parse: Parser)
    returns (buffer: string, content: string, shown: seq<string>, stop: bool)
    requires '\n' in buffer0
    ensures Took(buffer0, content0, parse, buffer, content, shown, stop)
  {
    var newlineIndex := IndexOf(buffer0, '\n');
    var line := buffer0[..newlineIndex];
    ghost var kind := Classify(line, parse);
    buffer, content, shown, stop := buffer0[newlineIndex + 1..], content0, [], false;
    assert content0 + "" == content0;
    if EndsWith(line, "\r") {
      line := line[..|line| - 1];
    }
    assert kind == ClassifyLine(line, parse);
    if StartsWith(line, ":") || Trim(line) == "" {
      return;
    }
    if !StartsWith(line, "data: ") {
      return;
    }
    var jsonStr := Trim(line[6..]);
    if jsonStr == "[DONE]" {
      stop := true;
      return;
    }
    match parse(jsonStr) {
      case Parsed(delta) =>
        if delta != "" {
          content := content + delta;
          shown := [content];
        }
      case Unparsable =>
        buffer := line + "\n" + buffer;
        stop := true;
    }
  }

  /** A buffer holding a `\n` is its first line, the `\n`, and the rest. */
  lemma CutAtNewline(buffer: string)
    requires '\n' in buffer
    ensures var i := IndexOf(buffer, '\n');
      0 <= i < |buffer| && '\n' !in buffer[..i] && buffer == buffer[..i] + "\n" + buffer[i + 1..]
  {
    var i := IndexOf(buffer, '\n');
    SplitAroundNewline(buffer, i);
  }

  /** A text is what comes before a `\n` at `i`, the `\n`, and what follows. */
  lemma SplitAroundNewline(s: string, i: nat)
    requires i < |s| && s[i] == '\n'
    ensures s == s[..i] + "\n" + s[i + 1..]
  {
    assert s == s[..i] + [s[i]] + s[i + 1..];
  }

  /** One handled line is one step of `Drain`: a stopping line ends it with
      the line's own result, any other line leaves the rest of it to run. */
  lemma DrainByTake(buffer0: string, content0: string, parse: Parser,
                    buffer: string, content: string, shown: seq<string>, stop: bool)
    requires '\n' in buffer0
    requires Took(buffer0, content0, parse, buffer, content, shown, stop)
    ensures var r, r' := Drain(buffer0, content0, LineKinds(parse)), Drain(buffer, content, LineKinds(parse));
      (stop ==> r == Assembly(buffer, content, shown))
      && (!stop ==> r.buffer == r'.buffer && r.content == r'.content && r.shown == shown + r'.shown)
  {
    var classify := LineKinds(parse);
    var i := IndexOf(buffer0, '\n');
    var line, rest := buffer0[..i], buffer0[i + 1..];
    var kind := Classify(line, parse);
    assert classify(line) == kind;
    CutAtNewline(buffer0);
    if kind.Ignored? || kind.Delta? {
      DrainStep(line, rest, content0, classify);
    }
  }

  /** The inner loop of one read (lines 80-101): cuts and handles the complete
      lines of `buffer0` until none is left, `[DONE]` is seen or a payload fails
      to parse, returning the new buffer, the new answer and the values shown
      during the read, exactly as `Drain` gives them. */
  method DrainLines(buffer0: string, content0: string, parse: Parser)
    returns (buffer: string, content: string, shown: seq<string>)
    ensures Assembly(buffer, content, shown) == Drain(buffer0, content0, LineKinds(parse))
  {
    ghost var classify := LineKinds(parse);
    ghost var target := Drain(buffer0, content0, classify);
    buffer, content, shown := buffer0, content0, [];
    while '\n' in buffer
      invariant Drain(buffer, content, classify).buffer == target.buffer
      invariant Drain(buffer, content, classify).content == target.content
      invariant target.shown == shown + Drain(buffer, content, classify).shown
      decreases |buffer|
    {
      ghost var buffer1, content1, oldShown := buffer, content, shown;
      var step, stop;
      buffer, content, step, stop := TakeLine(buffer, content, parse);
      DrainByTake(buffer1, content1, parse, buffer, content, step, stop);
      shown := shown + step;
      if stop {
        break;
      }
      AppendAssoc(oldShown, step, Drain(buffer, content, classify).shown);
    }
  }

  /** The two nested loops of lines 70-102, run over the chunks of one response
      body: the answer, the unconsumed buffer, and the `setStreamingContent`
      values, exactly as the read-by-read specification `FeedAll` gives them. */
  method ReadStream(chunks: seq<string>, parse: Parser)
    returns (content: string, buffer: string, shown: seq<string>)
    ensures Assembly(buffer, content, shown) == FeedAll(Start, chunks, LineKinds(parse))
  {
    ghost var classify := LineKinds(parse);
    content, buffer, shown := "", "", [];
    var k := 0;
    while k < |chunks|
      invariant 0 <= k <= |chunks|
      invariant FeedAll(Assembly(buffer, content, shown), chunks[k..], classify) == FeedAll(Start, chunks, classify)
    {
      ghost var before := Assembly(buffer, content, shown);
      var readShown;
      buffer, content, readShown := DrainLines(buffer + chunks[k], content, parse);
      shown := shown + readShown;
      assert Assembly(buffer, content, shown) == Feed(before, chunks[k], classify);
      assert chunks[k..][1..] == chunks[k + 1..];
      k := k + 1;
    }
  }

  // ---------------------------------------------------------------------------
  // Complete lines of a text, independent of how it was cut into chunks.

  /** The `\n`-terminated lines of `s`, in order, without their `\n`. */
  function Lines(s: string): seq<string>
    decreases |s|
  {
    var i := IndexOf(s, '\n');
    if i < 0 then [] else [s[..i]] + Lines(s[i + 1..])
  }

  /** The text after the last `\n` of `s`. */
  function Rest(s: string): (r: string)
    ensures '\n' !in r
    decreases |s|
  {
    var i := IndexOf(s, '\n');
    if i < 0 then s else Rest(s[i + 1..])
  }

  /** Every line is either inert or a delta: no `[DONE]`, no parse failure. */
  predicate WellFormed(lines: seq<string>, classify: Classifier)
    decreases |lines|
  {
    lines == [] || ((classify(lines[0]).Ignored? || classify(lines[0]).Delta?) && WellFormed(lines[1..], classify))
  }

  /** The text a line contributes to the answer. */
  function DeltaOf(k: LineKind): string {
    if k.Delta? then k.text else ""
  }

  /** The in-order concatenation of the deltas the lines carry. */
  function Deltas(lines: seq<string>, classify: Classifier): string
    decreases |lines|
  {
    if lines == [] then "" else DeltaOf(classify(lines[0])) + Deltas(lines[1..], classify)
  }

  /** The values shown while the lines are replayed onto `content`: one per
      non-empty delta, each the answer so far. */
  function Snapshots(content: string, lines: seq<string>, classify: Classifier): seq<string>
    decreases |lines|
  {
    if lines == [] then []
    else
      var d := DeltaOf(classify(lines[0]));
      if d == "" then Snapshots(content, lines[1..], classify)
      else [content + d] + Snapshots(content + d, lines[1..], classify)
  }

  lemma IndexOfAfterLine(line: string, rest: string)
    requires '\n' !in line
    ensures IndexOf(line + "\n" + rest, '\n') == |line|
    ensures (line + "\n" + rest)[..|line|] == line && (line + "\n" + rest)[|line| + 1..] == rest
  {
    var s := line + "\n" + rest;
    assert s[|line|] == '\n';
    assert s[..|line|] == line;
  }

  /** Splitting a text anywhere: the lines of `a + b` are those of `a` followed
      by those of `a`'s unterminated tail continued by `b`. */
  lemma {:induction false} LinesAppend(a: string, b: string)
    ensures Lines(a + b) == Lines(a) + Lines(Rest(a) + b)
    ensures Rest(a + b) == Rest(Rest(a) + b)
    decreases |a|
  {
    var i := IndexOf(a, '\n');
    if i < 0 {
      assert Lines(a) == [] && Rest(a) == a;
      assert Lines(a) + Lines(Rest(a) + b) == Lines(a + b);
    } else {
      var line, tail := a[..i], a[i + 1..];
      assert a == line + "\n" + tail;
      assert a + b == line + "\n" + (tail + b);
      IndexOfAfterLine(line, tail);
      IndexOfAfterLine(line, tail + b);
      assert Lines(a) == [line] + Lines(tail) && Rest(a) == Rest(tail);
      assert Lines(a + b) == [line] + Lines(tail + b) && Rest(a + b) == Rest(tail + b);
      LinesAppend(tail, b);
      AppendAssoc([line], Lines(tail), Lines(Rest(tail) + b));
    }
  }

  lemma {:induction false} WellFormedAppend(l1: seq<string>, l2: seq<string>, classify: Classifier)
    ensures WellFormed(l1 + l2, classify) <==> WellFormed(l1, classify) && WellFormed(l2, classify)
    decreases |l1|
  {
    if l1 == [] {
      assert l1 + l2 == l2;
    } else {
      assert (l1 + l2)[0] == l1[0];
      assert (l1 + l2)[1..] == l1[1..] + l2;
      WellFormedAppend(l1[1..], l2, classify);
    }
  }

  lemma {:induction false} DeltasAppend(l1: seq<string>, l2: seq<string>, classify: Classifier)
    ensures Deltas(l1 + l2, classify) == Deltas(l1, classify) + Deltas(l2, classify)
    decreases |l1|
  {
    if l1 == [] {
      assert l1 + l2 == l2;
    } else {
      assert (l1 + l2)[0] == l1[0];
      assert (l1 + l2)[1..] == l1[1..] + l2;
      DeltasAppend(l1[1..], l2, classify);
    }
  }

  lemma {:induction false} SnapshotsAppend(content: string, l1: seq<string>, l2: seq<string>, classify: Classifier)
    ensures Snapshots(content, l1 + l2, classify)
         == Snapshots(content, l1, classify) + Snapshots(content + Deltas(l1, classify), l2, classify)
    decreases |l1|
  {
    if l1 == [] {
      assert l1 + l2 == l2;
      assert content + Deltas(l1, classify) == content;
    } else {
      var t := l1[1..];
      assert (l1 + l2)[0] == l1[0];
      assert (l1 + l2)[1..] == t + l2;
      var d := DeltaOf(classify(l1[0]));
      assert Deltas(l1, classify) == d + Deltas(t, classify);
      SnapshotsAppend(content + d, t, l2, classify);
      assert content + d + Deltas(t, classify) == content + Deltas(l1, classify);
      if d == "" {
        assert content + d == content;
        assert Snapshots(content, l1 + l2, classify) == Snapshots(content, t + l2, classify);
        assert Snapshots(content, l1, classify) == Snapshots(content, t, classify);
      } else {
        assert Snapshots(content, l1 + l2, classify) == [content + d] + Snapshots(content + d, t + l2, classify);
        assert Snapshots(content, l1, classify) == [content + d] + Snapshots(content + d, t, classify);
      }
    }
  }

  /** One inert or delta line at the head of the buffer: it is consumed, its
      delta is appended, and one value is shown when the delta is non-empty. */
  lemma DrainStep(line: string, rest: string, content: string, classify: Classifier)
    requires '\n' !in line
    requires classify(line).Ignored? || classify(line).Delta?
    ensures var d := DeltaOf(classify(line));
      var r := Drain(rest, content + d, classify);
      Drain(line + "\n" + rest, content, classify)
      == Assembly(r.buffer, r.content, (if d == "" then [] else [content + d]) + r.shown)
  {
    IndexOfAfterLine(line, rest);
    if DeltaOf(classify(line)) == "" {
      assert content + "" == content;
    }
  }

  lemma LinesStep(line: string, rest: string)
    requires '\n' !in line
    ensures Lines(line + "\n" + rest) == [line] + Lines(rest)
    ensures Rest(line + "\n" + rest) == Rest(rest)
  {
    IndexOfAfterLine(line, rest);
  }

  lemma ReplayStep(content: string, line: string, lines: seq<string>, classify: Classifier)
    ensures var d := DeltaOf(classify(line));
      Deltas([line] + lines, classify) == d + Deltas(lines, classify)
      && Snapshots(content, [line] + lines, classify)
         == (if d == "" then [] else [content + d]) + Snapshots(content + d, lines, classify)
  {
    var ls := [line] + lines;
    assert ls[0] == line && ls[1..] == lines;
    if DeltaOf(classify(line)) == "" {
      assert content + "" == content;
    }
  }

  /** On a buffer whose complete lines are all well formed, one read drains every
      complete line: the tail stays, the answer grows by their deltas, and one
      value is shown per non-empty delta. */
  lemma {:induction false} DrainWellFormed(buffer: string, content: string, classify: Classifier)
    requires WellFormed(Lines(buffer), classify)
    ensures Drain(buffer, content, classify)
         == Assembly(Rest(buffer), content + Deltas(Lines(buffer), classify), Snapshots(content, Lines(buffer), classify))
    decreases |buffer|
  {
    var i := IndexOf(buffer, '\n');
    if i >= 0 {
      var line, rest := buffer[..i], buffer[i + 1..];
      assert buffer == line + "\n" + rest;
      LinesStep(line, rest);
      var ls := Lines(rest);
      assert Lines(buffer) == [line] + ls;
      assert ([line] + ls)[0] == line && ([line] + ls)[1..] == ls;
      assert WellFormed(ls, classify);
      assert classify(line).Ignored? || classify(line).Delta?;
      var d := DeltaOf(classify(line));
      var pre: seq<string> := if d == "" then [] else [content + d];
      DrainStep(line, rest, content, classify);
      var r := Drain(rest, content + d, classify);
      assert Drain(buffer, content, classify) == Assembly(r.buffer, r.content, pre + r.shown);
      DrainWellFormed(rest, content + d, classify);
      assert r == Assembly(Rest(rest), content + d + Deltas(ls, classify), Snapshots(content + d, ls, classify));
      ReplayStep(content, line, ls, classify);
      assert Deltas(Lines(buffer), classify) == d + Deltas(ls, classify);
      assert Snapshots(content, Lines(buffer), classify) == pre + Snapshots(content + d, ls, classify);
      AppendAssoc(content, d, Deltas(ls, classify));
    }
  }

  lemma {:induction false} FeedAllWellFormed(s: Assembly, chunks: seq<string>, classify: Classifier)
    requires '\n' !in s.buffer
    requires WellFormed(Lines(s.buffer + Concat(chunks)), classify)
    ensures var all := s.buffer + Concat(chunks);
      FeedAll(s, chunks, classify)
      == Assembly(Rest(all), s.content + Deltas(Lines(all), classify),
                  s.shown + Snapshots(s.content, Lines(all), classify))
    decreases |chunks|
  {
    if chunks == [] {
      assert s.buffer + Concat(chunks) == s.buffer;
      assert IndexOf(s.buffer, '\n') < 0;
    } else {
      var a := s.buffer + chunks[0];
      var b := Concat(chunks[1..]);
      AppendAssoc(s.buffer, chunks[0], b);
      assert s.buffer + Concat(chunks) == a + b;
      LinesAppend(a, b);
      var la, lb := Lines(a), Lines(Rest(a) + b);
      WellFormedAppend(la, lb, classify);
      DrainWellFormed(a, s.content, classify);
      var s' := Feed(s, chunks[0], classify);
      assert s' == Assembly(Rest(a), s.content + Deltas(la, classify),
                            s.shown + Snapshots(s.content, la, classify));
      assert s'.buffer + b == Rest(a) + b;
      FeedAllWellFormed(s', chunks[1..], classify);
      assert FeedAll(s, chunks, classify) == FeedAll(s', chunks[1..], classify);
      DeltasAppend(la, lb, classify);
      SnapshotsAppend(s.content, la, lb, classify);
      AppendAssoc(s.content, Deltas(la, classify), Deltas(lb, classify));
      AppendAssoc(s.shown, Snapshots(s.content, la, classify), Snapshots(s.content + Deltas(la, classify), lb, classify));
    }
  }

  /** The whole-stream meaning of a well-formed body (no `[DONE]`, every `data: `
      payload parses): the answer is the concatenation of the deltas of all
      complete lines, the values shown are its successive extensions, and only
      the text after the last `\n` is left over. */
  lemma ReadWholeStream(chunks: seq<string>, classify: Classifier)
    requires WellFormed(Lines(Concat(chunks)), classify)
    ensures FeedAll(Start, chunks, classify)
         == Assembly(Rest(Concat(chunks)), Deltas(Lines(Concat(chunks)), classify),
                     Snapshots("", Lines(Concat(chunks)), classify))
  {
    var all := Concat(chunks);
    EmptyPrefix(all);
    FeedAllWellFormed(Start, chunks, classify);
    EmptyPrefix(Deltas(Lines(all), classify));
    EmptyPrefix(Snapshots("", Lines(all), classify));
  }

  lemma EmptyPrefix<T>(s: seq<T>)
    ensures [] + s == s
  {
  }

  /** Chunk boundaries do not matter for a well-formed body: any two ways of
      cutting the same text give the same answer, the same shown values and the
      same left-over text, which are also those of reading it in one piece. */
  lemma ChunkingIrrelevant(chunks1: seq<string>, chunks2: seq<string>, classify: Classifier)
    requires Concat(chunks1) == Concat(chunks2)
    requires WellFormed(Lines(Concat(chunks1)), classify)
    ensures FeedAll(Start, chunks1, classify) == FeedAll(Start, chunks2, classify)
    ensures FeedAll(Start, chunks1, classify) == FeedAll(Start, [Concat(chunks1)], classify)
  {
    ReadWholeStream(chunks1, classify);
    ReadWholeStream(chunks2, classify);
    var text := Concat(chunks1);
    var whole := [text];
    assert whole[1..] == [];
    assert Concat(whole) == text + "";
    assert text + "" == text;
    ReadWholeStream(whole, classify);
  }

  // ---------------------------------------------------------------------------
  // The answer only grows.

  /** `shown` is a chain of strict extensions starting after `from`, and `last`
      is its end (or `from` itself when nothing was shown). */
  predicate Grows(from: string, shown: seq<string>, last: string)
    decreases |shown|
  {
    if shown == [] then last == from
    else |from| < |shown[0]| && shown[0][..|from|] == from && Grows(shown[0], shown[1..], last)
  }

  lemma {:induction false} GrowsAppend(a: string, s1: seq<string>, b: string, s2: seq<string>, c: string)
    requires Grows(a, s1, b) && Grows(b, s2, c)
    ensures Grows(a, s1 + s2, c)
    decreases |s1|
  {
    if s1 == [] {
      assert s1 + s2 == s2;
    } else {
      assert (s1 + s2)[0] == s1[0] && (s1 + s2)[1..] == s1[1..] + s2;
      GrowsAppend(s1[0], s1[1..], b, s2, c);
    }
  }

  lemma {:induction false} GrowsIsPrefix(a: string, shown: seq<string>, b: string)
    requires Grows(a, shown, b)
    ensures |a| <= |b| && b[..|a|] == a
    decreases |shown|
  {
    if shown != [] {
      GrowsIsPrefix(shown[0], shown[1..], b);
    }
  }

  /** Within one read every shown value extends the previous one (the first
      extends the answer before the read) by one non-empty delta, and the last
      is the answer after the read. */
  lemma {:induction false} DrainGrows(buffer: string, content: string, classify: Classifier)
    ensures Grows(content, Drain(buffer, content, classify).shown, Drain(buffer, content, classify).content)
    decreases |buffer|
  {
    var i := IndexOf(buffer, '\n');
    if i >= 0 {
      var rest := buffer[i + 1..];
      match classify(buffer[..i])
      case Ignored => DrainGrows(rest, content, classify);
      case Done =>
      case Unparsed =>
      case Delta(d) =>
        if d == "" {
          DrainGrows(rest, content, classify);
        } else {
          DrainGrows(rest, content + d, classify);
          assert (content + d)[..|content|] == content;
        }
    }
  }

  /** `assistantContent` is append-only over the whole stream: earlier shown
      values are kept, each new one extends its predecessor, and the final
      answer extends the answer before the stream. */
  lemma {:induction false} AnswerOnlyGrows(s: Assembly, chunks: seq<string>, classify: Classifier)
    ensures var r := FeedAll(s, chunks, classify);
      |s.shown| <= |r.shown| && r.shown[..|s.shown|] == s.shown
      && Grows(s.content, r.shown[|s.shown|..], r.content)
      && |s.content| <= |r.content| && r.content[..|s.content|] == s.content
    decreases |chunks|
  {
    var r := FeedAll(s, chunks, classify);
    if chunks == [] {
      assert r.shown[|s.shown|..] == [];
    } else {
      var s' := Feed(s, chunks[0], classify);
      var d := Drain(s.buffer + chunks[0], s.content, classify);
      DrainGrows(s.buffer + chunks[0], s.content, classify);
      AnswerOnlyGrows(s', chunks[1..], classify);
      assert r == FeedAll(s', chunks[1..], classify);
      assert s'.shown == s.shown + d.shown;
      assert r.shown[..|s.shown|] == s.shown;
      assert r.shown[|s.shown|..] == d.shown + r.shown[|s'.shown|..];
      GrowsAppend(s.content, d.shown, d.content, r.shown[|s'.shown|..], r.content);
    }
    GrowsIsPrefix(s.content, r.shown[|s.shown|..], r.content);
  }

  // ---------------------------------------------------------------------------
  // Single-line behaviour.

  /** Comment lines, blank lines and lines of any other field are consumed and
      change neither the answer nor what is shown. */
  lemma InertLines(line: string, rest: string, content: string, parse: Parser)
    requires '\n' !in line
    requires StartsWith(StripCr(line), ":") || IsBlank(StripCr(line)) || !StartsWith(StripCr(line), "data: ")
    ensures Classify(line, parse) == Ignored
    ensures Drain(line + "\n" + rest, content, LineKinds(parse)) == Drain(rest, content, LineKinds(parse))
  {
    IndexOfAfterLine(line, rest);
  }

  /** Only one trailing carriage return is removed. */
  lemma StripsOneCarriageReturn(line: string)
    ensures StripCr(line + "\r") == line
    ensures StripCr(line + "\r\r") == line + "\r"
  {
    assert (line + "\r\r")[..|line + "\r\r"| - 1] == line + "\r";
  }

  /** `[DONE]` consumes its own line and ends the line loop of the current read:
      later lines of the buffer wait, untouched, for another read. */
  lemma DoneEndsRead(line: string, rest: string, content: string, classify: Classifier)
    requires '\n' !in line
    requires classify(line) == Done
    ensures Drain(line + "\n" + rest, content, classify) == Assembly(rest, content, [])
  {
    IndexOfAfterLine(line, rest);
  }

  /** A failed parse puts the line (minus its `\r`) back in front of the rest of
      the buffer, leaves the answer alone and shows nothing. */
  lemma UnparsedLinePushedBack(line: string, rest: string, content: string, classify: Classifier)
    requires '\n' !in line
    requires classify(line) == Unparsed
    ensures Drain(line + "\n" + rest, content, classify) == Assembly(StripCr(line) + "\n" + rest, content, [])
  {
    IndexOfAfterLine(line, rest);
  }

  /** Dropping one trailing `\r` keeps every test the loop body makes. */
  lemma StripCrKeepsPrefix(l: string, p: string)
    requires '\r' !in p
    ensures StartsWith(StripCr(l), p) <==> StartsWith(l, p)
  {
    if EndsWith(l, "\r") {
      var m := l[..|l| - 1];
      assert l[|l| - 1] == '\r';
      if StartsWith(l, p) {
        assert '\r' in l && l[..|l|] == l;
        assert |p| < |l|;
        assert m[..|p|] == l[..|p|];
      }
      if StartsWith(m, p) {
        assert m[..|p|] == l[..|p|];
      }
    }
  }

  lemma StripCrKeepsTrim(l: string)
    ensures Trim(StripCr(l)) == Trim(l)
  {
    if EndsWith(l, "\r") {
      var m := l[..|l| - 1];
      assert l == m + ['\r'];
      TrimIgnoresTrailingSpace(m, '\r');
    }
  }

  lemma StripCrKeepsPayload(l: string)
    requires StartsWith(l, "data: ")
    ensures |StripCr(l)| >= 6
    ensures Trim(StripCr(l)[6..]) == Trim(l[6..])
  {
    if EndsWith(l, "\r") {
      assert l[5] == ' ' && l[|l| - 1] == '\r';
      assert |l| > 6;
      var m := l[..|l| - 1];
      assert l[6..] == m[6..] + ['\r'];
      TrimIgnoresTrailingSpace(m[6..], '\r');
    }
  }

  /** Removing the carriage return again never changes how a line is classified. */
  lemma ClassifyStripCr(line: string, parse: Parser)
    ensures Classify(StripCr(line), parse) == Classify(line, parse)
  {
    var l := StripCr(line);
    StripCrKeepsPrefix(l, ":");
    StripCrKeepsPrefix(l, "data: ");
    StripCrKeepsTrim(l);
    if StartsWith(l, "data: ") {
      StripCrKeepsPayload(l);
    }
  }

  /** A line that never parses is extracted again, and fails again, at the head
      of every later read; from then on nothing is ever added to the answer and
      nothing more is shown. */
  lemma {:induction false} UnparsedLineBlocksStream(line: string, rest: string, s: Assembly, chunks: seq<string>, parse: Parser)
    requires '\n' !in line
    requires Classify(line, parse) == Unparsed
    requires s.buffer == line + "\n" + rest
    ensures FeedAll(s, chunks, LineKinds(parse)).content == s.content
    ensures FeedAll(s, chunks, LineKinds(parse)).shown == s.shown
    decreases |chunks|
  {
    if chunks != [] {
      var classify := LineKinds(parse);
      assert s.buffer + chunks[0] == line + "\n" + (rest + chunks[0]);
      UnparsedLinePushedBack(line, rest + chunks[0], s.content, classify);
      ClassifyStripCr(line, parse);
      var s' := Feed(s, chunks[0], classify);
      assert s'.shown == s.shown + [];
      assert '\n' !in StripCr(line);
      UnparsedLineBlocksStream(StripCr(line), rest + chunks[0], s', chunks[1..], parse);
    }
  }

  /** Text after the last `\n` is never processed: a final fragment without a
      newline, read into a buffer without one, changes neither the answer nor
      what was shown. */
  lemma TrailingFragmentIgnored(s: Assembly, fragment: string, classify: Classifier)
    requires '\n' !in s.buffer && '\n' !in fragment
    ensures Feed(s, fragment, classify) == Assembly(s.buffer + fragment, s.content, s.shown)
  {
    assert '\n' !in s.buffer + fragment;
  }

  /** The same for the answer of a whole well-formed stream: appending a
      newline-free fragment as a last chunk does not change it. */
  lemma TrailingChunkIgnored(chunks: seq<string>, fragment: string, classify: Classifier)
    requires '\n' !in fragment
    requires WellFormed(Lines(Concat(chunks)), classify)
    ensures FeedAll(Start, chunks + [fragment], classify).content == FeedAll(Start, chunks, classify).content
    ensures FeedAll(Start, chunks + [fragment], classify).shown == FeedAll(Start, chunks, classify).shown
  {
    ConcatAppend(chunks, fragment);
    LinesAppend(Concat(chunks), fragment);
    var tail := Rest(Concat(chunks)) + fragment;
    assert '\n' !in tail;
    assert Lines(tail) == [];
    assert Lines(Concat(chunks + [fragment])) == Lines(Concat(chunks));
    ReadWholeStream(chunks, classify);
    ReadWholeStream(chunks + [fragment], classify);
  }
}
