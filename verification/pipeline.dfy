/**
 * The relay and the consumer together: what the browser shows for the event
 * stream the send handler writes, when the JSON codec round-trips and the
 * stream arrives in chunks that end on event boundaries.
 */
module Pipeline {
  import opened Seqs
  import opened Schema
  import opened EventStream
  import opened Lines
  import opened ChatRoutes
  import opened ChatClient

  /** What the consumer reads from each payload the relay writes. */
  function Reads(p: Payload): Decoded
  {
    match p
    case Content(s) => Parsed(s, false, false)
    case Done => Parsed("", true, false)
    case Error(e) => Parsed("", false, e != "")
  }

  function ReadsAll(events: seq<Payload>): (r: seq<Decoded>)
    ensures |r| == |events|
  {
    seq(|events|, i requires 0 <= i < |events| => Reads(events[i]))
  }

  /** The JSON text of each payload, in order. */
  function Encoded(events: seq<Payload>, encode: Payload -> string): (r: seq<string>)
    ensures |r| == |events|
  {
    seq(|events|, i requires 0 <= i < |events| => encode(events[i]))
  }

  lemma EncodedAppend(a: seq<Payload>, b: seq<Payload>, encode: Payload -> string)
    ensures Encoded(a + b, encode) == Encoded(a, encode) + Encoded(b, encode)
  {
  }

  /** `JSON.stringify` writes no raw line feed, and `JSON.parse` reads back what the consumer needs. */
  ghost predicate Codec(encode: Payload -> string, parse: string -> Decoded)
  {
    forall p :: '\n' !in encode(p) && parse(encode(p)) == Reads(p)
  }

  /** The response body cut into reads, one group of whole events per read. */
  function Chunks(groups: seq<seq<Payload>>, encode: Payload -> string): (r: seq<string>)
    ensures |r| == |groups|
  {
    seq(|groups|, i requires 0 <= i < |groups| => Wire(groups[i], encode))
  }

  /** Each framed event becomes its `data: ` line and an empty line, so the consumer finds exactly the JSON texts. */
  lemma {:induction false} WirePayloads(events: seq<Payload>, encode: Payload -> string)
    requires forall p :: '\n' !in encode(p)
    ensures ChunkPayloads(Wire(events, encode)) == Encoded(events, encode)
    decreases |events|
  {
    if events == [] {
      SplitLine("");
    } else {
      var json := encode(events[0]);
      var rest := Wire(events[1..], encode);
      calc {
        ChunkPayloads(Wire(events, encode));
        DataPayloads(Split(DataPrefix + json + "\n\n" + rest));
        { FrameLines(json, rest); }
        DataPayloads([DataPrefix + json, ""] + Split(rest));
        { DataPayloadsAppend([DataPrefix + json, ""], Split(rest)); FrameLines(json, rest); }
        [json] + ChunkPayloads(rest);
        { WirePayloads(events[1..], encode); }
        [json] + Encoded(events[1..], encode);
        { EncodedAppend([events[0]], events[1..], encode); assert [events[0]] + events[1..] == events; }
        Encoded(events, encode);
      }
    }
  }

  /** Reads that end on event boundaries lose nothing: the consumer sees every JSON text, in order. */
  lemma {:induction false} ChunkedPayloads(groups: seq<seq<Payload>>, encode: Payload -> string)
    requires forall p :: '\n' !in encode(p)
    ensures StreamPayloads(Chunks(groups, encode)) == Encoded(Flatten(groups), encode)
    decreases |groups|
  {
    if groups != [] {
      var init, last := groups[..|groups| - 1], groups[|groups| - 1];
      assert Chunks(groups, encode)[..|groups| - 1] == Chunks(init, encode);
      ChunkedPayloads(init, encode);
      WirePayloads(last, encode);
      EncodedAppend(Flatten(init), last, encode);
    }
  }

  /** With a faithful codec the consumer decodes exactly what the relay wrote. */
  lemma DecodesRelayed(groups: seq<seq<Payload>>, encode: Payload -> string, parse: string -> Decoded)
    requires Codec(encode, parse)
    ensures Decode(StreamPayloads(Chunks(groups, encode)), parse) == ReadsAll(Flatten(groups))
  {
    ChunkedPayloads(groups, encode);
  }

  /**
   * Consuming the relayed payloads shows the text of the content events, and
   * ends the stream exactly when a `done` event is among them.
   */
  lemma {:induction false} ConsumeRelayed(start: Progress, events: seq<Payload>, id: int)
    ensures Consume(start, ReadsAll(events), id).content == start.content + ContentText(events)
    ensures Consume(start, ReadsAll(events), id).streaming <==> start.streaming && Done !in events
    decreases |events|
  {
    if events != [] {
      var init, last := events[..|events| - 1], events[|events| - 1];
      assert ReadsAll(events)[..|events| - 1] == ReadsAll(init);
      ConsumeRelayed(start, init, id);
      assert Done in events <==> Done in init || last == Done by {
        assert events == init + [last];
      }
    }
  }

  /**
   * A completed send: the browser ends up showing exactly the stored reply
   * (the concatenated deltas), stops streaming and refetches both queries.
   */
  lemma CompletedSendIsShown(deltas: seq<string>, groups: seq<seq<Payload>>, encode: Payload -> string, parse: string -> Decoded, id: int, invalidated: seq<QueryKey>)
    requires Codec(encode, parse)
    requires Flatten(groups) == ContentEvents(deltas) + [Done]
    ensures var final := Consume(Progress("", true, invalidated), Decode(StreamPayloads(Chunks(groups, encode)), parse), id);
      && final.content == Concat(deltas)
      && !final.streaming
      && ConversationQuery(id) in final.invalidated && ConversationListQuery in final.invalidated
  {
    var events := ContentEvents(deltas) + [Done];
    var start := Progress("", true, invalidated);
    DecodesRelayed(groups, encode, parse);
    ConsumeRelayed(start, events, id);
    ContentTextAppend(ContentEvents(deltas), [Done]);
    assert ContentText([Done]) == ContentText([]) + "" by {
      assert [Done][..0] == [];
    }
    RelayedTextIsStored(deltas);
    var ds := ReadsAll(events);
    assert ds[|ds| - 1] == Parsed("", true, false);
    SettlesOnDone(start, ds, id);
  }

  /**
   * As written: after the in-band error event of a send that failed mid-stream
   * the consumer never leaves the streaming state (nothing reads `error`), so
   * the input box stays disabled and the guard refuses every later send.
   */
  lemma ErrorEventLeavesStreaming(deltas: seq<string>, groups: seq<seq<Payload>>, encode: Payload -> string, parse: string -> Decoded, id: int, invalidated: seq<QueryKey>)
    requires Codec(encode, parse)
    requires exists d :: d in deltas && d != ""
    requires Flatten(groups) == ContentEvents(deltas) + [Error(SendFailed)]
    ensures AfterThrow(ContentEvents(deltas)) == Reply(200, EventBody(Flatten(groups)))
    ensures var final := Consume(Progress("", true, invalidated), Decode(StreamPayloads(Chunks(groups, encode)), parse), id);
      final.streaming && final.invalidated == invalidated
  {
    var d :| d in deltas && d != "";
    HasContentEvent(deltas, d);
    var events := ContentEvents(deltas) + [Error(SendFailed)];
    var start := Progress("", true, invalidated);
    DecodesRelayed(groups, encode, parse);
    ConsumeRelayed(start, events, id);
    assert Done !in events by {
      assert forall e :: e in ContentEvents(deltas) ==> e.Content?;
    }
    var ds := ReadsAll(events);
    assert !HasDone(ds) by {
      forall i | 0 <= i < |ds| ensures !(ds[i].Parsed? && ds[i].done) {
        assert events[i] in events;
      }
    }
    SettlesOnDone(start, ds, id);
  }

  /** A non-empty delta always produces a content event. */
  lemma {:induction false} HasContentEvent(deltas: seq<string>, d: string)
    requires d in deltas && d != ""
    ensures |ContentEvents(deltas)| > 0
    decreases |deltas|
  {
    var init, last := deltas[..|deltas| - 1], deltas[|deltas| - 1];
    if last == "" {
      assert d in init by {
        assert deltas == init + [last];
      }
      HasContentEvent(init, d);
    }
  }

  /** The consumer step with an `error` payload settling the stream like `done` does. */
  function SettlingStep(p: Progress, d: Decoded, id: int): Progress
  {
    var q := Step(p, d, id);
    if d.Parsed? && d.error then q.(streaming := false) else q
  }

  function SettlingConsume(start: Progress, ds: seq<Decoded>, id: int): Progress
    decreases |ds|
  {
    if ds == [] then start else SettlingStep(SettlingConsume(start, ds[..|ds| - 1], id), ds[|ds| - 1], id)
  }

  /** The settling consumer shows the same text as the one written, whatever arrives. */
  lemma {:induction false} SettlingShowsSameText(start: Progress, ds: seq<Decoded>, id: int)
    ensures SettlingConsume(start, ds, id).content == Consume(start, ds, id).content
    ensures SettlingConsume(start, ds, id).invalidated == Consume(start, ds, id).invalidated
    decreases |ds|
  {
    if ds != [] {
      SettlingShowsSameText(start, ds[..|ds| - 1], id);
    }
  }

  /** Once the settling consumer has read the last payload of an error or `done` event, it is not streaming. */
  lemma SettlingEndsOnLast(start: Progress, ds: seq<Decoded>, id: int)
    requires ds != [] && ds[|ds| - 1].Parsed? && (ds[|ds| - 1].done || ds[|ds| - 1].error)
    ensures !SettlingConsume(start, ds, id).streaming
  {
  }

  /**
   * Corrected: every event stream the send handler writes, completed or broken
   * off, leaves the settling consumer out of the streaming state, showing the
   * text that was relayed.
   */
  lemma SendAlwaysSettles(deltas: seq<string>, groups: seq<seq<Payload>>, encode: Payload -> string, parse: string -> Decoded, id: int, invalidated: seq<QueryKey>)
    requires Codec(encode, parse)
    requires || Flatten(groups) == ContentEvents(deltas) + [Done]
             || Flatten(groups) == ContentEvents(deltas) + [Error(SendFailed)]
    ensures var final := SettlingConsume(Progress("", true, invalidated), Decode(StreamPayloads(Chunks(groups, encode)), parse), id);
      !final.streaming && final.content == Concat(deltas)
  {
    var events := Flatten(groups);
    var start := Progress("", true, invalidated);
    DecodesRelayed(groups, encode, parse);
    var ds := ReadsAll(events);
    assert ds[|ds| - 1] == Reads(events[|events| - 1]);
    SettlingEndsOnLast(start, ds, id);
    SettlingShowsSameText(start, ds, id);
    ConsumeRelayed(start, events, id);
    ContentTextAppend(ContentEvents(deltas), [events[|events| - 1]]);
    assert ContentText([events[|events| - 1]]) == ContentText([]) + "" by {
      assert [events[|events| - 1]][..0] == [];
    }
    assert events == ContentEvents(deltas) + [events[|events| - 1]];
    RelayedTextIsStored(deltas);
  }
}
