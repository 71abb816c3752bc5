/**
 * Line splitting as the browser does it on each decoded chunk: `split("\n")`,
 * and the `data: ` filter that picks the event payloads out of the lines.
 */
module Lines {
  import opened Seqs
  import opened EventStream

  /** `text.split("\n")`: the pieces between line feeds, at least one. */
  function Split(text: string): (r: seq<string>)
    ensures |r| >= 1
    decreases |text|
  {
    if text == [] then [""]
    else if text[0] == '\n' then [""] + Split(text[1..])
    else
      var rest := Split(text[1..]);
      [[text[0]] + rest[0]] + rest[1..]
  }

  /** No piece of a split holds a line feed. */
  lemma {:induction false} SplitHasNoLineFeed(text: string)
    ensures forall line :: line in Split(text) ==> '\n' !in line
    decreases |text|
  {
    if text != [] {
      SplitHasNoLineFeed(text[1..]);
      var rest := Split(text[1..]);
      if text[0] != '\n' {
        assert rest[0] in rest;
        assert forall line :: line in rest[1..] ==> line in rest;
      }
    }
  }

  /** `lines.join("\n")`. */
  function Join(lines: seq<string>): (r: string)
    requires |lines| >= 1
    ensures |r| >= |lines| - 1
    decreases |lines|
  {
    if |lines| == 1 then lines[0] else lines[0] + "\n" + Join(lines[1..])
  }

  /** Splitting loses nothing: joining the pieces gives the text back. */
  lemma {:induction false} JoinSplit(text: string)
    ensures Join(Split(text)) == text
    decreases |text|
  {
    if text != [] {
      JoinSplit(text[1..]);
      var rest := Split(text[1..]);
      if text[0] == '\n' {
        assert Split(text)[1..] == rest;
      } else if |rest| == 1 {
        assert text == [text[0]] + text[1..];
      } else {
        assert Split(text)[1..] == rest[1..];
        assert text == [text[0]] + text[1..];
      }
    }
  }

  /** A text without a line feed is a single line. */
  lemma {:induction false} SplitLine(line: string)
    requires '\n' !in line
    ensures Split(line) == [line]
    decreases |line|
  {
    if line != [] {
      assert line[0] in line;
      assert forall c :: c in line[1..] ==> c in line;
      SplitLine(line[1..]);
      assert [line[0]] + line[1..] == line;
    }
  }

  /** A line and a line feed in front of `rest` come off as one piece. */
  lemma {:induction false} SplitFirst(line: string, rest: string)
    requires '\n' !in line
    ensures Split(line + "\n" + rest) == [line] + Split(rest)
    decreases |line|
  {
    if line == [] {
      assert line + "\n" + rest == ['\n'] + rest;
      assert (['\n'] + rest)[1..] == rest;
    } else {
      var text := line + "\n" + rest;
      assert line[0] in line;
      assert forall c :: c in line[1..] ==> c in line;
      assert text[0] == line[0];
      assert text[1..] == line[1..] + "\n" + rest;
      SplitFirst(line[1..], rest);
      assert [line[0]] + line[1..] == line;
    }
  }

  /** Joining lines without line feeds and splitting again gives the same lines. */
  lemma {:induction false} SplitJoin(lines: seq<string>)
    requires |lines| >= 1
    requires forall line :: line in lines ==> '\n' !in line
    ensures Split(Join(lines)) == lines
    decreases |lines|
  {
    assert lines[0] in lines;
    if |lines| == 1 {
      SplitLine(lines[0]);
    } else {
      assert forall line :: line in lines[1..] ==> line in lines;
      SplitJoin(lines[1..]);
      SplitFirst(lines[0], Join(lines[1..]));
      assert [lines[0]] + lines[1..] == lines;
    }
  }

  /** `line.startsWith("data: ")`. */
  predicate IsDataLine(line: string)
  {
    |DataPrefix| <= |line| && line[..|DataPrefix|] == DataPrefix
  }

  /**
   * The text after `data: ` of every line that starts with it, in order
   * (`line.slice(6)`); every other line is skipped.
   */
  function DataPayloads(lines: seq<string>): (r: seq<string>)
    ensures |r| <= |lines|
    ensures forall x :: x in r ==> DataPrefix + x in lines
    ensures forall line :: line in lines && IsDataLine(line) ==> line[|DataPrefix|..] in r
    decreases |lines|
  {
    if lines == [] then []
    else
      var init, last := lines[..|lines| - 1], lines[|lines| - 1];
      var r := DataPayloads(init) + (if IsDataLine(last) then [last[|DataPrefix|..]] else []);
      assert forall line :: line in lines ==> line in init || line == last;
      assert forall line :: line in init ==> line in lines;
      assert IsDataLine(last) ==> DataPrefix + last[|DataPrefix|..] == last;
      r
  }

  lemma DataPayloadsAppend(a: seq<string>, b: seq<string>)
    ensures DataPayloads(a + b) == DataPayloads(a) + DataPayloads(b)
    decreases |b|
  {
    if b == [] {
      assert a + b == a;
    } else {
      var init, last := b[..|b| - 1], b[|b| - 1];
      assert (a + b)[..|a + b| - 1] == a + init;
      DataPayloadsAppend(a, init);
    }
  }

  /** A line that does not start with `data: ` contributes nothing, wherever it stands. */
  lemma SkipsOtherLines(a: seq<string>, line: string, b: seq<string>)
    requires !IsDataLine(line)
    ensures DataPayloads(a + [line] + b) == DataPayloads(a + b)
  {
    DataPayloadsAppend(a + [line], b);
    DataPayloadsAppend(a, [line]);
    DataPayloadsAppend(a, b);
    assert [line][..0] == [];
  }

  /** The lines of one chunk, filtered and stripped: what the inner loop of the consumer parses. */
  function ChunkPayloads(chunk: string): seq<string>
  {
    DataPayloads(Split(chunk))
  }

  /** Every chunk split on its own, then the payloads of all chunks in order. */
  function StreamPayloads(chunks: seq<string>): (r: seq<string>)
    decreases |chunks|
  {
    if chunks == [] then []
    else StreamPayloads(chunks[..|chunks| - 1]) + ChunkPayloads(chunks[|chunks| - 1])
  }

  /** One event frame splits into its `data: ` line and the empty line that ends the event. */
  lemma FrameLines(json: string, rest: string)
    requires '\n' !in json
    ensures Split(DataPrefix + json + "\n\n" + rest) == [DataPrefix + json, ""] + Split(rest)
    ensures DataPayloads([DataPrefix + json, ""]) == [json]
  {
    var line := DataPrefix + json;
    assert '\n' !in line by {
      assert forall i :: 0 <= i < |line| ==> line[i] == (if i < |DataPrefix| then DataPrefix[i] else json[i - |DataPrefix|]);
    }
    assert DataPrefix + json + "\n\n" + rest == line + "\n" + ("" + "\n" + rest);
    SplitFirst(line, "" + "\n" + rest);
    SplitFirst("", rest);
    assert [line, ""][..1] == [line];
    assert [line, ""][..1][..0] == [];
    assert line[|DataPrefix|..] == json;
  }

  /** A single read is that read's payloads. */
  lemma OneRead(chunk: string)
    ensures StreamPayloads([chunk]) == ChunkPayloads(chunk)
  {
    assert [chunk][..0] == [];
  }

  /** A `data: ` prefix in front of a text without line feeds adds none. */
  lemma PrefixedLine(json: string)
    requires '\n' !in json
    ensures '\n' !in DataPrefix + json
    ensures IsDataLine(DataPrefix + json) && (DataPrefix + json)[|DataPrefix|..] == json
  {
    var line := DataPrefix + json;
    assert forall i :: 0 <= i < |line| ==> line[i] == (if i < |DataPrefix| then DataPrefix[i] else json[i - |DataPrefix|]);
    assert line[..|DataPrefix|] == DataPrefix;
  }

  /** `line.startsWith("data: ")` and `line.slice(6)` take a line apart exactly as `data: ` and the rest put it together. */
  lemma DataLineParts(line: string, json: string)
    ensures IsDataLine(line) && line[|DataPrefix|..] == json <==> line == DataPrefix + json
  {
    if line == DataPrefix + json {
      assert line[..|DataPrefix|] == DataPrefix;
      assert line[|DataPrefix|..] == json;
    }
    if IsDataLine(line) && line[|DataPrefix|..] == json {
      assert line == line[..|DataPrefix|] + line[|DataPrefix|..];
    }
  }

  /** An event read whole yields its payload. */
  lemma WholeEventRead(json: string)
    requires '\n' !in json
    ensures StreamPayloads([DataPrefix + json + "\n\n"]) == [json]
  {
    var chunk := DataPrefix + json + "\n\n";
    OneRead(chunk);
    FrameLines(json, "");
    assert chunk + "" == chunk;
    SplitLine("");
    DataPayloadsAppend([DataPrefix + json, ""], [""]);
    assert [""][..0] == [];
  }

  /** The first part of a cut event, its `data: ` line without the line feed, is read as a data line of its own. */
  lemma CutHead(head: string)
    requires '\n' !in head
    ensures ChunkPayloads(DataPrefix + head) == [head]
  {
    PrefixedLine(head);
    SplitLine(DataPrefix + head);
    assert [DataPrefix + head][..0] == [];
  }

  /** The second part, the rest of the line and the two line feeds, holds no data line. */
  lemma CutTail(tail: string)
    requires '\n' !in tail && !IsDataLine(tail)
    ensures ChunkPayloads(tail + "\n\n") == []
  {
    SplitFirst(tail, "\n");
    SplitFirst("", "");
    SplitLine("");
    assert tail + "\n" + "\n" == tail + "\n\n";
    assert "" + "\n" + "" == "\n";
    var lines := [tail, "", ""];
    assert Split(tail + "\n\n") == lines;
    assert lines[..2][..1][..0] == [];
    assert lines[..2][..1] == [tail];
    assert lines[..2] == [tail, ""];
    assert !IsDataLine("");
    assert DataPayloads(lines[..2][..1]) == DataPayloads(lines[..2][..1][..0]);
    assert DataPayloads(lines) == DataPayloads(lines[..2]) == DataPayloads(lines[..2][..1]);
  }

  /** Two reads carry the same bytes as one read of both. */
  lemma SameBytes(x: string, y: string)
    ensures Concat([x, y]) == Concat([x + y]) == x + y
  {
    assert [x, y][..1] == [x];
    assert [x][..0] == [] && [x + y][..0] == [];
  }

  /** The event cut after `head` yields `head` from the first read and nothing from the second. */
  lemma CutEventRead(head: string, tail: string)
    requires '\n' !in head && '\n' !in tail && !IsDataLine(tail)
    ensures StreamPayloads([DataPrefix + head, tail + "\n\n"]) == [head]
  {
    var cut := [DataPrefix + head, tail + "\n\n"];
    assert cut[..1] == [DataPrefix + head];
    OneRead(DataPrefix + head);
    CutHead(head);
    CutTail(tail);
  }

  /**
   * As written, a `data: ` line cut in two by a read boundary is lost: the
   * first read yields the truncated JSON `head`, the second read's piece does
   * not start with `data: `. Read whole, the same bytes carry `head + tail`.
   * For instance `head` = `{` and `tail` = `}`.
   */
  lemma StraddledLineIsLost(head: string, tail: string)
    requires '\n' !in head && '\n' !in tail && tail != "" && !IsDataLine(tail)
    ensures Concat([DataPrefix + head, tail + "\n\n"]) == Concat([DataPrefix + (head + tail) + "\n\n"])
    ensures StreamPayloads([DataPrefix + (head + tail) + "\n\n"]) == [head + tail]
    ensures StreamPayloads([DataPrefix + head, tail + "\n\n"]) == [head] != [head + tail]
  {
    assert StreamPayloads([DataPrefix + (head + tail) + "\n\n"]) == [head + tail] by {
      assert '\n' !in head + tail by {
        assert forall c :: c in head + tail ==> c in head || c in tail;
      }
      WholeEventRead(head + tail);
    }
    assert StreamPayloads([DataPrefix + head, tail + "\n\n"]) == [head] by {
      CutEventRead(head, tail);
    }
    assert Concat([DataPrefix + head, tail + "\n\n"]) == Concat([DataPrefix + (head + tail) + "\n\n"]) by {
      SameBytes(DataPrefix + head, tail + "\n\n");
      assert DataPrefix + head + (tail + "\n\n") == DataPrefix + (head + tail) + "\n\n";
    }
    assert |head + tail| > |head|;
  }

  /** The lines a text ends with a line feed after, leaving out the unfinished last piece. */
  function Complete(text: string): (r: seq<string>)
  {
    var lines := Split(text);
    lines[..|lines| - 1]
  }

  /** The unfinished last piece of a text: what follows its last line feed. */
  function Pending(text: string): (r: string)
  {
    var lines := Split(text);
    lines[|lines| - 1]
  }

  /** Text appended to a joined text lands in its last line. */
  lemma {:induction false} JoinAppend(lines: seq<string>, b: string)
    requires |lines| >= 1
    ensures Join(lines) + b == Join(lines[..|lines| - 1] + [lines[|lines| - 1] + b])
    decreases |lines|
  {
    var n := |lines|;
    var longer := lines[..n - 1] + [lines[n - 1] + b];
    if n == 1 {
      assert longer == [lines[0] + b];
    } else {
      var tail := lines[1..];
      JoinAppend(tail, b);
      assert longer[0] == lines[0];
      assert longer[1..] == tail[..|tail| - 1] + [tail[|tail| - 1] + b];
      assert Join(lines) + b == lines[0] + "\n" + (Join(tail) + b);
    }
  }

  /** Lines without line feeds, joined in front of a text, split off again unchanged. */
  lemma {:induction false} SplitLeading(lines: seq<string>, text: string)
    requires forall i :: 0 <= i < |lines| ==> '\n' !in lines[i]
    ensures Split(Join(lines + [text])) == lines + Split(text)
    decreases |lines|
  {
    if lines == [] {
      assert lines + [text] == [text];
    } else {
      var all, tail := lines + [text], lines[1..];
      var rest := Join(tail + [text]);
      assert Split(Join(all)) == [lines[0]] + Split(rest) by {
        assert all[0] == lines[0] && all[1..] == tail + [text];
        assert '\n' !in lines[0];
        SplitFirst(lines[0], rest);
      }
      assert Split(rest) == tail + Split(text) by {
        assert forall i :: 0 <= i < |tail| ==> tail[i] == lines[i + 1];
        SplitLeading(tail, text);
      }
      assert lines == [lines[0]] + tail;
    }
  }

  /** Splitting a concatenation: the complete lines of the first part, then the split of its pending piece with the rest. */
  lemma SplitAppend(a: string, b: string)
    ensures Split(a + b) == Complete(a) + Split(Pending(a) + b)
  {
    var lines := Split(a);
    var done, pending := Complete(a), Pending(a);
    assert lines == done + [pending];
    JoinSplit(a);
    JoinAppend(lines, b);
    SplitHasNoLineFeed(a);
    forall i | 0 <= i < |done|
      ensures '\n' !in done[i]
    {
      assert done[i] in lines;
    }
    SplitLeading(done, pending + b);
  }

  /**
   * Corrected reader: the pending piece of each read is kept and put in front
   * of the next one, so only finished lines are parsed. The payloads found so
   * far and the piece kept back.
   */
  function Buffered(chunks: seq<string>): (r: (seq<string>, string))
    decreases |chunks|
  {
    if chunks == [] then ([], "")
    else
      var (payloads, pending) := Buffered(chunks[..|chunks| - 1]);
      var lines := Split(pending + chunks[|chunks| - 1]);
      (payloads + DataPayloads(lines[..|lines| - 1]), lines[|lines| - 1])
  }

  /**
   * The corrected reader finds the payloads of the finished lines of the whole
   * stream, however it was cut into reads.
   */
  lemma {:induction false} BufferedIsWholeStream(chunks: seq<string>)
    ensures Buffered(chunks) == (DataPayloads(Complete(Concat(chunks))), Pending(Concat(chunks)))
    decreases |chunks|
  {
    if chunks == [] {
      SplitLine("");
    } else {
      var init, last := chunks[..|chunks| - 1], chunks[|chunks| - 1];
      BufferedIsWholeStream(init);
      var text := Concat(init);
      SplitAppend(text, last);
      var lines := Split(Pending(text) + last);
      assert Concat(chunks) == text + last;
      assert Complete(text + last) == Complete(text) + lines[..|lines| - 1];
      DataPayloadsAppend(Complete(text), lines[..|lines| - 1]);
    }
  }

  /** A read that ends with a line feed leaves nothing pending: all its lines are complete. */
  lemma EndsWithLineFeed(text: string)
    requires text != [] && text[|text| - 1] == '\n'
    ensures Pending(text) == "" && ChunkPayloads(text) == DataPayloads(Complete(text))
  {
    var a := text[..|text| - 1];
    assert text == a + "\n";
    SplitAppend(a, "\n");
    SplitHasNoLineFeed(a);
    assert Pending(a) in Split(a);
    assert Pending(a) + "\n" == Pending(a) + "\n" + "";
    SplitFirst(Pending(a), "");
    SplitLine("");
    var lines := Split(text);
    assert lines == Complete(a) + [Pending(a), ""];
    assert lines == Complete(text) + [""];
    DataPayloadsAppend(Complete(text), [""]);
    assert [""][..0] == [];
  }

  /**
   * Reads that each end with a line feed lose nothing to the per-read split: it
   * finds what the carrying reader finds, which keeps nothing back, and so the
   * payloads of the whole stream's lines.
   */
  lemma {:induction false} AlignedReadsAgree(chunks: seq<string>)
    requires forall i :: 0 <= i < |chunks| ==> chunks[i] != [] && chunks[i][|chunks[i]| - 1] == '\n'
    ensures Buffered(chunks) == (StreamPayloads(chunks), "")
    ensures StreamPayloads(chunks) == DataPayloads(Complete(Concat(chunks)))
    decreases |chunks|
  {
    if chunks != [] {
      var init, last := chunks[..|chunks| - 1], chunks[|chunks| - 1];
      assert Buffered(init) == (StreamPayloads(init), "") by {
        assert forall i :: 0 <= i < |init| ==> init[i] == chunks[i];
        AlignedReadsAgree(init);
      }
      assert Pending(last) == "" && ChunkPayloads(last) == DataPayloads(Complete(last)) by {
        EndsWithLineFeed(last);
      }
      assert "" + last == last;
    }
    BufferedIsWholeStream(chunks);
  }

  /** One event as the relay frames it, read whole, yields its JSON, and the read ends with a line feed. */
  lemma FramedEventRead(p: Payload, encode: Payload -> string)
    requires '\n' !in encode(p)
    ensures ChunkPayloads(Frame(p, encode)) == [encode(p)]
    ensures Frame(p, encode)[|Frame(p, encode)| - 1] == '\n'
  {
    WholeEventRead(encode(p));
    OneRead(Frame(p, encode));
  }
}
