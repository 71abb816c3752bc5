/**
 * The wire format between the relay and the browser: each payload is written
 * as one server-sent event, a `data:` field line followed by a blank line (the
 * event-stream format of section 9.2, "Server-sent events", of the WHATWG HTML
 * Living Standard). JSON serialisation is a parameter `encode`.
 */
module EventStream {
  import opened Seqs

  /** The three payloads the relay writes: `{content}`, `{done: true}` and `{error}`. */
  datatype Payload = Content(content: string) | Done | Error(error: string)

  const DataPrefix: string := "data: "

  /** One event on the wire: `data: <json>` and the empty line that dispatches it. */
  function Frame(p: Payload, encode: Payload -> string): string
  {
    DataPrefix + encode(p) + "\n\n"
  }

  /** The response body after writing `events` in order. */
  function Wire(events: seq<Payload>, encode: Payload -> string): string
    decreases |events|
  {
    if events == [] then "" else Frame(events[0], encode) + Wire(events[1..], encode)
  }

  /** Writing two runs of events one after the other gives the body of writing them all. */
  lemma {:induction false} WireAppend(a: seq<Payload>, b: seq<Payload>, encode: Payload -> string)
    ensures Wire(a + b, encode) == Wire(a, encode) + Wire(b, encode)
    decreases |a|
  {
    if a == [] {
      assert a + b == b;
    } else {
      WireAppend(a[1..], b, encode);
      assert (a + b)[0] == a[0] && (a + b)[1..] == a[1..] + b;
    }
  }

  /** The text carried by the content events, in the order they were written. */
  function ContentText(events: seq<Payload>): string
    decreases |events|
  {
    if events == [] then ""
    else
      var last := events[|events| - 1];
      ContentText(events[..|events| - 1]) + (if last.Content? then last.content else "")
  }

  lemma {:induction false} ContentTextAppend(a: seq<Payload>, b: seq<Payload>)
    ensures ContentText(a + b) == ContentText(a) + ContentText(b)
    decreases |b|
  {
    if b == [] {
      assert a + b == a;
    } else {
      var last := b[|b| - 1];
      assert (a + b)[..|a + b| - 1] == a + b[..|b| - 1];
      ContentTextAppend(a, b[..|b| - 1]);
    }
  }
}
