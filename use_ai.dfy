/** The AI client hook of workers/src/hooks/useAI.ts: the request it sends,
    the `chat` reply handling and the line-buffered server-sent-events loop
    of `chatStream`. The HTTP exchange is a parameter: the reply's status,
    its `error` field and the decoded body chunks. `JSON.parse` followed by
    reading `.response` is the parameter `parse`: `None` when parsing or the
    field access throws, `Some(response)` otherwise. */
module UseAI {
  import opened Wrappers
  import opened Strings

  const DEFAULT_MAX_TOKENS: int := 1000
  const REQUEST_FAILED: string := "AI request failed"
  const NO_BODY: string := "No response body"
  const DATA_PREFIX: string := "data: "
  const DONE_MARKER: string := "[DONE]"
  const NEWLINE: char := '\n'

  /** The caller's `{ model?, max_tokens? }`. */
  datatype ChatOptions = ChatOptions(model: Option<string>, maxTokens: Option<int>)

  /** The JSON body posted to `/api/ai`, without the messages, which pass
      through unchanged. */
  datatype AIRequest = AIRequest(url: string, authorization: Option<string>, model: Option<string>, maxTokens: int, stream: bool)

  /** `max_tokens || 1000`: absent or zero falls back. */
  function MaxTokensOr(maxTokens: Option<int>): (t: int)
    ensures maxTokens.Some? && maxTokens.value != 0 ==> t == maxTokens.value
    ensures maxTokens.None? || maxTokens.value == 0 ==> t == DEFAULT_MAX_TOKENS
    ensures t != 0
  {
    if maxTokens.Some? && maxTokens.value != 0 then maxTokens.value else DEFAULT_MAX_TOKENS
  }

  /** The request both calls send: a bearer header only for a truthy token. */
  function RequestFor(baseUrl: string, token: Option<string>, options: ChatOptions, stream: bool): (r: AIRequest)
    ensures r.url == baseUrl + "/api/ai" && r.stream == stream && r.model == options.model
    ensures r.authorization.Some? <==> Truthy(token)
    ensures r.authorization.Some? ==> r.authorization.value == "Bearer " + token.value
    ensures r.maxTokens == MaxTokensOr(options.maxTokens)
  {
    AIRequest(baseUrl + "/api/ai", if Truthy(token) then Some("Bearer " + token.value) else None,
              options.model, MaxTokensOr(options.maxTokens), stream)
  }

  /** A non-streamed reply: status and the parsed body's fields, or a body
      that is not JSON, whose parse error carries `parseError` as message. */
  datatype Reply =
    | Reply(ok: bool, error: Option<string>, response: Option<string>)
    | NotJson(parseError: string)

  /** A streamed reply: status, the `error` field of the body read on
      failure, and the decoded chunks of the body when there is one; or a
      failed reply whose body is not JSON. */
  datatype StreamReply =
    | StreamReply(ok: bool, error: Option<string>, body: Option<seq<string>>)
    | FailedNotJson(parseError: string)

  /** The message of the error a failed request throws. */
  function FailureMessage(error: Option<string>): (m: string)
    ensures m != ""
    ensures Truthy(error) ==> m == error.value
    ensures !Truthy(error) ==> m == REQUEST_FAILED
  {
    if Truthy(error) then error.value else REQUEST_FAILED
  }

  /** The payload of an event line: the text after "data: ", if the line
      starts with it. */
  function Payload(line: string): (r: Option<string>)
    ensures r.Some? <==> StartsWith(line, DATA_PREFIX)
    ensures r.Some? ==> line == DATA_PREFIX + r.value
  {
    if StartsWith(line, DATA_PREFIX) then Some(line[|DATA_PREFIX|..]) else None
  }

  /** What one payload passes to `onChunk`: its truthy `response`, if any. */
  function ChunkOf(parsed: Option<Option<string>>): (r: seq<string>)
    ensures |r| <= 1
    ensures r != [] <==> parsed.Some? && Truthy(parsed.value)
    ensures r != [] ==> r[0] == parsed.value.value
  {
    if parsed.Some? && Truthy(parsed.value) then [parsed.value.value] else []
  }

  /** Processing a run of complete lines: the chunks emitted, and whether a
      "[DONE]" payload ended processing. */
  datatype Fed = Fed(out: seq<string>, done: bool)

  function Feed(lines: seq<string>, parse: string -> Option<Option<string>>): Fed
    decreases |lines|
  {
    if lines == [] then Fed([], false)
    else
      var payload := Payload(lines[0]);
      if payload.Some? && payload.value == DONE_MARKER then Fed([], true)
      else
        var rest := Feed(lines[1..], parse);
        var here := if payload.Some? then ChunkOf(parse(payload.value)) else [];
        Fed(here + rest.out, rest.done)
  }

  /** Everything `onChunk` receives for a body: the complete lines of the
      whole text, fed in order. */
  function StreamOutput(chunks: seq<string>, parse: string -> Option<Option<string>>): seq<string> {
    Feed(Lines(Concat(chunks), NEWLINE), parse).out
  }

  /** The chunks joined in order. */
  function Concat(chunks: seq<string>): string
    decreases |chunks|
  {
    if chunks == [] then "" else Concat(chunks[..|chunks| - 1]) + chunks[|chunks| - 1]
  }

  /** Feeding two runs of lines: once "[DONE]" is seen, the second run is
      ignored; otherwise the outputs follow each other. */
  lemma {:induction false} FeedAppend(a: seq<string>, b: seq<string>, parse: string -> Option<Option<string>>)
    ensures Feed(a, parse).done ==> Feed(a + b, parse) == Feed(a, parse)
    ensures !Feed(a, parse).done ==> Feed(a + b, parse) == Fed(Feed(a, parse).out + Feed(b, parse).out, Feed(b, parse).done)
    decreases |a|
  {
    if a == [] {
      assert a + b == b;
    } else {
      assert (a + b)[0] == a[0];
      assert (a + b)[1..] == a[1..] + b;
      FeedAppend(a[1..], b, parse);
    }
  }

  /** Every chunk passed on is a non-empty `response`. */
  lemma {:induction false} FeedEmitsTruthy(lines: seq<string>, parse: string -> Option<Option<string>>)
    ensures forall i :: 0 <= i < |Feed(lines, parse).out| ==> Feed(lines, parse).out[i] != ""
    decreases |lines|
  {
    if lines != [] {
      FeedEmitsTruthy(lines[1..], parse);
    }
  }

  /** Nothing after a "[DONE]" line is passed on, whatever follows it. */
  lemma DoneStops(before: seq<string>, after: seq<string>, parse: string -> Option<Option<string>>)
    requires !Feed(before, parse).done
    ensures Feed(before + [DATA_PREFIX + DONE_MARKER] + after, parse) == Fed(Feed(before, parse).out, true)
  {
    var done := [DATA_PREFIX + DONE_MARKER] + after;
    assert Payload(done[0]) == Some(DONE_MARKER);
    assert Feed(done, parse) == Fed([], true);
    FeedAppend(before, done, parse);
    assert before + [DATA_PREFIX + DONE_MARKER] + after == before + done;
  }

  /** A text without a separator is one piece. */
  lemma {:induction false} SplitWithoutSeparator(u: string, sep: char)
    requires forall j :: 0 <= j < |u| ==> u[j] != sep
    ensures Split(u, sep) == [u]
    decreases |u|
  {
    if u != [] {
      SplitWithoutSeparator(u[1..], sep);
      assert [u[0]] + u[1..] == u;
    }
  }

  /** Text after the last newline is never passed on: appending a piece
      without a newline leaves the output as it was. */
  lemma UnterminatedTailIgnored(chunks: seq<string>, t: string, parse: string -> Option<Option<string>>)
    requires forall j :: 0 <= j < |t| ==> t[j] != NEWLINE
    ensures StreamOutput(chunks + [t], parse) == StreamOutput(chunks, parse)
  {
    var s := Concat(chunks);
    assert (chunks + [t])[..|chunks + [t]| - 1] == chunks;
    assert Concat(chunks + [t]) == s + t;
    LinesAppend(s, t, NEWLINE);
    SplitPiecesHaveNoSeparator(s, NEWLINE);
    var u := Tail(s, NEWLINE) + t;
    assert forall j :: 0 <= j < |u| ==> u[j] != NEWLINE by {
      forall j | 0 <= j < |u|
        ensures u[j] != NEWLINE
      {
        if j < |Tail(s, NEWLINE)| {
          assert u[j] == Split(s, NEWLINE)[|Split(s, NEWLINE)| - 1][j];
        }
      }
    }
    SplitWithoutSeparator(u, NEWLINE);
    assert Lines(u, NEWLINE) == [];
    assert Lines(s + t, NEWLINE) == Lines(s, NEWLINE);
  }

  /** The hook's observable state. */
  class AIClient {
    const baseUrl: string
    const token: Option<string>
    var loading: bool
    var error: Option<string>

    constructor (url: string, authToken: Option<string>)
      ensures baseUrl == url && token == authToken && !loading && error.None?
    {
      baseUrl, token := url, authToken;
      loading, error := false, None;
    }

    /** `chat`: the body is parsed before the status is looked at, so a body
        that is not JSON records the parse error's message whatever the
        status; a failed request records its error and yields nothing; a
        successful one yields the truthy `response`, or nothing. */
    method Chat(options: ChatOptions, reply: Reply) returns (request: AIRequest, r: Option<string>)
      modifies this
      ensures request == RequestFor(baseUrl, token, options, false)
      ensures reply.NotJson? ==> r.None? && error == Some(reply.parseError)
      ensures reply.Reply? && !reply.ok ==> r.None? && error == Some(FailureMessage(reply.error))
      ensures reply.Reply? && reply.ok ==>
                error.None? && (r.Some? <==> Truthy(reply.response)) && (r.Some? ==> r == reply.response)
      ensures !loading
    {
      loading := true;
      error := None;
      request := RequestFor(baseUrl, token, options, false);
      if reply.NotJson? {
        error := Some(reply.parseError);
        r := None;
      } else if !reply.ok {
        error := Some(FailureMessage(reply.error));
        r := None;
      } else {
        r := if Truthy(reply.response) then reply.response else None;
      }
      loading := false;
    }

    /** `chatStream`: a failed request (its message from the error body, or
        the parse error's when that body is not JSON) or a missing body
        records an error and emits nothing; otherwise the chunks are read into a buffer whose
        complete lines are processed as they arrive, so that `onChunk`
        receives exactly the output of the whole text's complete lines. */
    method ChatStream(options: ChatOptions, reply: StreamReply, parse: string -> Option<Option<string>>)
      returns (request: AIRequest, emitted: seq<string>)
      modifies this
      ensures request == RequestFor(baseUrl, token, options, true)
      ensures reply.FailedNotJson? ==> emitted == [] && error == Some(reply.parseError)
      ensures reply.StreamReply? && !reply.ok ==> emitted == [] && error == Some(FailureMessage(reply.error))
      ensures reply.StreamReply? && reply.ok && reply.body.None? ==> emitted == [] && error == Some(NO_BODY)
      ensures reply.StreamReply? && reply.ok && reply.body.Some? ==>
                emitted == StreamOutput(reply.body.value, parse) && error.None?
      ensures !loading
    {
      loading := true;
      error := None;
      request := RequestFor(baseUrl, token, options, true);
      emitted := [];
      if reply.FailedNotJson? {
        error := Some(reply.parseError);
        loading := false;
        return;
      }
      if !reply.ok {
        error := Some(FailureMessage(reply.error));
        loading := false;
        return;
      }
      if reply.body.None? {
        error := Some(NO_BODY);
        loading := false;
        return;
      }
      var chunks := reply.body.value;
      var buffer := "";
      var i := 0;
      while i < |chunks|
        invariant 0 <= i <= |chunks|
        invariant buffer == Tail(Concat(chunks[..i]), NEWLINE)
        invariant Feed(Lines(Concat(chunks[..i]), NEWLINE), parse) == Fed(emitted, false)
        invariant error.None?
        decreases |chunks| - i
      {
        var seen := Concat(chunks[..i]);
        assert chunks[..i + 1][..i] == chunks[..i];
        assert Concat(chunks[..i + 1]) == seen + chunks[i];
        LinesAppend(seen, chunks[i], NEWLINE);
        buffer := buffer + chunks[i];
        var lines := Lines(buffer, NEWLINE);
        FeedAppend(Lines(seen, NEWLINE), lines, parse);
        buffer := Tail(buffer, NEWLINE);
        var out, done := FeedLines(lines, parse);
        emitted := emitted + out;
        if done {
          StreamStopsAt(chunks, i, parse, emitted);
          loading := false;
          return;
        }
        i := i + 1;
      }
      assert chunks[..i] == chunks;
      loading := false;
    }
  }

  /** The `for (const line of lines)` pass over one chunk's complete lines:
      `done` when a "[DONE]" payload returned from the stream. */
  method FeedLines(lines: seq<string>, parse: string -> Option<Option<string>>) returns (out: seq<string>, done: bool)
    ensures Fed(out, done) == Feed(lines, parse)
  {
    out := [];
    var j := 0;
    while j < |lines|
      invariant 0 <= j <= |lines|
      invariant Feed(lines[..j], parse) == Fed(out, false)
      decreases |lines| - j
    {
      FeedAppend(lines[..j], [lines[j]], parse);
      assert lines[..j + 1] == lines[..j] + [lines[j]];
      var payload := Payload(lines[j]);
      if payload.Some? {
        if payload.value == DONE_MARKER {
          assert Feed(lines[..j + 1], parse).done;
          FeedAppend(lines[..j + 1], lines[j + 1..], parse);
          assert lines[..j + 1] + lines[j + 1..] == lines;
          return out, true;
        }
        out := out + ChunkOf(parse(payload.value));
      }
      assert Feed([lines[j]], parse).out == (if payload.Some? then ChunkOf(parse(payload.value)) else []);
      j := j + 1;
    }
    assert lines[..j] == lines;
    done := false;
  }

  /** Once the complete lines of the first `i + 1` chunks hold a "[DONE]",
      the output of the whole body is what they produced. */
  lemma StreamStopsAt(chunks: seq<string>, i: nat, parse: string -> Option<Option<string>>, out: seq<string>)
    requires i < |chunks|
    requires Feed(Lines(Concat(chunks[..i + 1]), NEWLINE), parse) == Fed(out, true)
    ensures StreamOutput(chunks, parse) == out
  {
    var seen := Concat(chunks[..i + 1]);
    var restText := Concat(chunks[i + 1..]);
    ConcatAppend(chunks[..i + 1], chunks[i + 1..]);
    assert chunks[..i + 1] + chunks[i + 1..] == chunks;
    LinesAppend(seen, restText, NEWLINE);
    FeedAppend(Lines(seen, NEWLINE), Lines(Tail(seen, NEWLINE) + restText, NEWLINE), parse);
  }

  lemma {:induction false} ConcatAppend(a: seq<string>, b: seq<string>)
    ensures Concat(a + b) == Concat(a) + Concat(b)
    decreases |b|
  {
    if b == [] {
      assert a + b == a;
    } else {
      var b' := b[..|b| - 1];
      assert (a + b)[..|a + b| - 1] == a + b';
      ConcatAppend(a, b');
    }
  }
}
