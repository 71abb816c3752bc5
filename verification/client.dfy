/**
 * The chat page's `sendMessage`: the re-entrancy guard, the optimistic append
 * of the user's message to the cached conversation, and the read loop that
 * splits every chunk into lines, parses the `data: ` payloads and folds them
 * into the text on screen and the `isStreaming` flag.
 *
 * `JSON.parse` is a parameter `parse`; the consumer only ever reads the
 * `content`, `done` and `error` fields of what it returns, so a parsed payload
 * is modelled by those three (with `content` "" when absent or empty).
 */
module ChatClient {
  import opened Wrappers
  import opened Seqs
  import opened Schema
  import opened EventStream
  import opened Lines

  /** `JSON.parse(line.slice(6))` as the consumer sees it, or the parse error it swallows. */
  datatype Decoded = Parsed(content: string, done: bool, error: bool) | ParseFail

  /** The two React Query keys the consumer invalidates. */
  datatype QueryKey = ConversationListQuery | ConversationQuery(id: int)

  /** The consumer's state: the streamed text on screen, `isStreaming`, and the invalidated queries so far. */
  datatype Progress = Progress(content: string, streaming: bool, invalidated: seq<QueryKey>)

  /** The body of the `fetch`, as decoded text chunks, and whether a further `reader.read()` throws. */
  datatype ResponseBody = ResponseBody(chunks: seq<string>, readThrows: bool)

  /** What `fetch` gives: it throws, or a response with its `ok` flag and its body (absent for `null`). */
  datatype FetchOutcome = FetchThrows | Response(ok: bool, body: Option<ResponseBody>)

  /** The POST the consumer issues: `/api/conversations/<id>/messages` with `{content}`. */
  datatype SendRequest = SendRequest(conversationId: int, content: string)

  /** Every payload through `parse`, in order. */
  function Decode(payloads: seq<string>, parse: string -> Decoded): (r: seq<Decoded>)
    ensures |r| == |payloads|
    ensures forall i :: 0 <= i < |r| ==> r[i] == parse(payloads[i])
  {
    seq(|payloads|, i requires 0 <= i < |payloads| => parse(payloads[i]))
  }

  /**
   * One iteration of the inner loop body on a decoded payload: the text on
   * screen only grows at its end, invalidations are only added, streaming
   * never restarts, and a `done` payload ends it.
   */
  function Step(p: Progress, d: Decoded, id: int): (q: Progress)
    ensures p.content <= q.content && p.invalidated <= q.invalidated
    ensures q.streaming ==> p.streaming
    ensures d.Parsed? && d.done ==> !q.streaming
  {
    match d
    case ParseFail => p
    case Parsed(content, done, _) =>
      var shown := if content != "" then p.content + content else p.content;
      if done then Progress(shown, false, p.invalidated + [ConversationQuery(id), ConversationListQuery])
      else Progress(shown, p.streaming, p.invalidated)
  }

  /**
   * The consumer's state after the payloads `ds`, one after another: the text
   * on screen extends the start text, no invalidation is undone, and streaming
   * never restarts.
   */
  function Consume(start: Progress, ds: seq<Decoded>, id: int): (r: Progress)
    ensures start.content <= r.content && start.invalidated <= r.invalidated
    ensures r.streaming ==> start.streaming
    decreases |ds|
  {
    if ds == [] then start else Step(Consume(start, ds[..|ds| - 1], id), ds[|ds| - 1], id)
  }

  /** The `content` of every parsed payload, in order. */
  function Contents(ds: seq<Decoded>): (r: seq<string>)
    decreases |ds|
  {
    if ds == [] then []
    else
      var last := ds[|ds| - 1];
      Contents(ds[..|ds| - 1]) + (if last.Parsed? then [last.content] else [])
  }

  /** Some payload of `ds` carries a truthy `done`. */
  predicate HasDone(ds: seq<Decoded>)
  {
    exists i :: 0 <= i < |ds| && ds[i].Parsed? && ds[i].done
  }

  lemma {:induction false} ConsumeAppend(start: Progress, a: seq<Decoded>, b: seq<Decoded>, id: int)
    ensures Consume(start, a + b, id) == Consume(Consume(start, a, id), b, id)
    decreases |b|
  {
    if b == [] {
      assert a + b == a;
    } else {
      assert (a + b)[..|a + b| - 1] == a + b[..|b| - 1];
      ConsumeAppend(start, a, b[..|b| - 1], id);
    }
  }

  /**
   * The text on screen is the start text followed by every parsed `content`, in
   * order; empty contents add nothing.
   */
  lemma {:induction false} ShowsEveryContent(start: Progress, ds: seq<Decoded>, id: int)
    ensures Consume(start, ds, id).content == start.content + Concat(Contents(ds))
    decreases |ds|
  {
    if ds != [] {
      var init, last := ds[..|ds| - 1], ds[|ds| - 1];
      ShowsEveryContent(start, init, id);
      var tail := if last.Parsed? then [last.content] else [];
      ConcatAppend(Contents(init), tail);
      if last.Parsed? {
        assert Concat(tail) == Concat([]) + last.content;
      }
    }
  }

  /**
   * `isStreaming` drops exactly when a `done` payload arrives, and each such
   * payload invalidates the conversation and the list; without one nothing is
   * invalidated.
   */
  lemma {:induction false} SettlesOnDone(start: Progress, ds: seq<Decoded>, id: int)
    ensures Consume(start, ds, id).streaming <==> start.streaming && !HasDone(ds)
    ensures !HasDone(ds) ==> Consume(start, ds, id).invalidated == start.invalidated
    ensures HasDone(ds) ==> ConversationQuery(id) in Consume(start, ds, id).invalidated
    ensures HasDone(ds) ==> ConversationListQuery in Consume(start, ds, id).invalidated
    ensures start.invalidated <= Consume(start, ds, id).invalidated
    decreases |ds|
  {
    if ds != [] {
      var init, last := ds[..|ds| - 1], ds[|ds| - 1];
      SettlesOnDone(start, init, id);
      assert HasDone(ds) <==> HasDone(init) || (last.Parsed? && last.done) by {
        if HasDone(init) {
          var i :| 0 <= i < |init| && init[i].Parsed? && init[i].done;
          assert ds[i] == init[i];
        }
        if HasDone(ds) && !(last.Parsed? && last.done) {
          var i :| 0 <= i < |ds| && ds[i].Parsed? && ds[i].done;
          assert init[i] == ds[i];
        }
      }
    }
  }

  /** A payload that fails to parse changes nothing and the loop goes on with the next one. */
  lemma SkipsParseFailures(start: Progress, a: seq<Decoded>, b: seq<Decoded>, id: int)
    ensures Consume(start, a + [ParseFail] + b, id) == Consume(start, a + b, id)
  {
    ConsumeAppend(start, a + [ParseFail], b, id);
    ConsumeAppend(start, a, [ParseFail], id);
    ConsumeAppend(start, a, b, id);
    assert [ParseFail][..0] == [];
  }

  /** `queryClient.setQueryData` with the optimistic updater: append to a cached list, leave a missing one missing. */
  function Optimistic(cache: map<int, seq<Message>>, id: int, m: Message): (r: map<int, seq<Message>>)
    ensures r.Keys == cache.Keys
    ensures id in cache ==> r[id] == cache[id] + [m]
    ensures forall k :: k in cache && k != id ==> r[k] == cache[k]
  {
    if id in cache then cache[id := cache[id] + [m]] else cache
  }

  class ChatPage {
    /** `activeConversationId`; JavaScript `null` is None. */
    var activeConversationId: Option<int>
    var isStreaming: bool
    var streamingContent: string
    /** The cached messages of `["/api/conversations", id]`, for the ids that have data. */
    var cache: map<int, seq<Message>>
    /** The query invalidations issued, in order. */
    var invalidated: seq<QueryKey>

    constructor ()
      ensures activeConversationId == None && !isStreaming && streamingContent == ""
      ensures cache == map[] && invalidated == []
    {
      activeConversationId, isStreaming, streamingContent := None, false, "";
      cache, invalidated := map[], [];
    }

    /** `!activeConversationId || isStreaming`: the guard that makes a send a no-op (id 0 is falsy too). */
    predicate Blocked()
      reads this
    {
      activeConversationId.None? || activeConversationId.value == 0 || isStreaming
    }

    /** The consumer's state as a value. */
    function Shown(): Progress
      reads this
    {
      Progress(streamingContent, isStreaming, invalidated)
    }

    /**
     * `sendMessage(content)` with the clock reading `now` (the optimistic id and
     * timestamp), the outcome of the `fetch`, and `JSON.parse`.
     */
    method SendMessage(content: string, now: int, fetch: FetchOutcome, parse: string -> Decoded)
      returns (request: Option<SendRequest>)
      modifies this
      ensures old(Blocked()) ==> request == None && unchanged(this)
      ensures !old(Blocked()) ==>
        var id := old(activeConversationId).value;
        && request == Some(SendRequest(id, content))
        && activeConversationId == old(activeConversationId)
        && cache == Optimistic(old(cache), id, Message(now, id, User, content, now))
      ensures !old(Blocked()) && !(fetch.Response? && fetch.ok && fetch.body.Some?) ==>
        Shown() == Progress("", false, old(invalidated))
      ensures !old(Blocked()) && fetch.Response? && fetch.ok && fetch.body.Some? ==>
        var id := old(activeConversationId).value;
        var body := fetch.body.value;
        var final := Consume(Progress("", true, old(invalidated)), Decode(StreamPayloads(body.chunks), parse), id);
        Shown() == if body.readThrows then final.(streaming := false) else final
    {
      if activeConversationId.None? || activeConversationId.value == 0 || isStreaming {
        return None;
      }
      var id := activeConversationId.value;
      isStreaming, streamingContent := true, "";
      cache := Optimistic(cache, id, Message(now, id, User, content, now));
      request := Some(SendRequest(id, content));
      if fetch.FetchThrows? || !fetch.ok || fetch.body.None? {
        isStreaming := false;
        return;
      }
      var body := fetch.body.value;
      ghost var start := Shown();
      var fullContent := "";
      for c := 0 to |body.chunks|
        invariant activeConversationId == old(activeConversationId)
        invariant cache == Optimistic(old(cache), id, Message(now, id, User, content, now))
        invariant streamingContent == fullContent
        invariant Shown() == Consume(start, Decode(StreamPayloads(body.chunks[..c]), parse), id)
      {
        fullContent := ReadChunk(id, body.chunks[c], parse, fullContent, start, StreamPayloads(body.chunks[..c]));
        assert body.chunks[..c + 1][..c] == body.chunks[..c];
      }
      assert body.chunks[..|body.chunks|] == body.chunks;
      if body.readThrows {
        isStreaming := false;
      }
    }

    /** The inner `for` over the lines of one decoded chunk; `fullContent` is the text accumulated so far. */
    method ReadChunk(id: int, chunk: string, parse: string -> Decoded, fullContent: string, ghost start: Progress, ghost before: seq<string>)
      returns (accumulated: string)
      requires streamingContent == fullContent
      requires Shown() == Consume(start, Decode(before, parse), id)
      modifies this
      ensures activeConversationId == old(activeConversationId) && cache == old(cache)
      ensures streamingContent == accumulated
      ensures Shown() == Consume(start, Decode(before + ChunkPayloads(chunk), parse), id)
    {
      accumulated := fullContent;
      var lines := Split(chunk);
      assert before + DataPayloads(lines[..0]) == before;
      for j := 0 to |lines|
        invariant activeConversationId == old(activeConversationId) && cache == old(cache)
        invariant streamingContent == accumulated
        invariant Shown() == Consume(start, Decode(before + DataPayloads(lines[..j]), parse), id)
      {
        NextLine(start, before, lines, j, parse, id);
        accumulated := ReadLine(id, lines[j], parse, accumulated);
      }
      assert lines[..|lines|] == lines;
    }

    /** The body of the inner `for`: one line, handled only when it is a `data: ` line. */
    method ReadLine(id: int, line: string, parse: string -> Decoded, fullContent: string) returns (accumulated: string)
      requires streamingContent == fullContent
      modifies this
      ensures activeConversationId == old(activeConversationId) && cache == old(cache)
      ensures streamingContent == accumulated
      ensures Shown() == if IsDataLine(line) then Step(old(Shown()), parse(line[|DataPrefix|..]), id) else old(Shown())
    {
      accumulated := fullContent;
      if IsDataLine(line) {
        var data := parse(line[|DataPrefix|..]);
        if data.Parsed? {
          if data.content != "" {
            accumulated := accumulated + data.content;
            streamingContent := accumulated;
          }
          if data.done {
            isStreaming := false;
            invalidated := invalidated + [ConversationQuery(id), ConversationListQuery];
          }
        }
      }
    }
  }

  /** One more line of a chunk is one more step of the fold if it is a `data: ` line, and no step otherwise. */
  lemma NextLine(start: Progress, before: seq<string>, lines: seq<string>, j: int, parse: string -> Decoded, id: int)
    requires 0 <= j < |lines|
    ensures var seen := Consume(start, Decode(before + DataPayloads(lines[..j]), parse), id);
      Consume(start, Decode(before + DataPayloads(lines[..j + 1]), parse), id)
      == if IsDataLine(lines[j]) then Step(seen, parse(lines[j][|DataPrefix|..]), id) else seen
  {
    var line := lines[j];
    assert lines[..j + 1] == lines[..j] + [line];
    DataPayloadsAppend(lines[..j], [line]);
    assert [line][..0] == lines[..0];
    var seen := before + DataPayloads(lines[..j]);
    if IsDataLine(line) {
      assert before + DataPayloads(lines[..j + 1]) == seen + [line[|DataPrefix|..]];
      NextPayload(start, seen, line[|DataPrefix|..], parse, id);
    } else {
      assert before + DataPayloads(lines[..j + 1]) == seen;
    }
  }

  /** Decoding one more payload is one more step of the fold. */
  lemma NextPayload(start: Progress, seen: seq<string>, payload: string, parse: string -> Decoded, id: int)
    ensures Consume(start, Decode(seen + [payload], parse), id)
         == Step(Consume(start, Decode(seen, parse), id), parse(payload), id)
  {
    var ds := Decode(seen + [payload], parse);
    assert ds[..|ds| - 1] == Decode(seen, parse);
  }
}
