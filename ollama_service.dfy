/**
 * The client of the local inference daemon (src/utils/ollamaService.js).
 *
 * The HTTP transport is abstract: a request either fails before any reply
 * (`FetchFailed`, the rejected `fetch`) or gets a status (`Replied`). The body of a
 * reply can be read in two ways, and the model gives both: as one JSON value
 * (`JsonRead`, what `response.json()` yields or the message it throws) and as a
 * sequence of decoded text chunks that may end in a read error (`ChunkStream`,
 * what the body reader and `TextDecoder` yield). Parsing one line of
 * newline-delimited JSON is the partial function `parse`, supplied by the caller;
 * `None` stands for a line `JSON.parse` rejects (or whose value is `null`).
 * Progress callbacks are returned as the ordered list of their invocations.
 */
module OllamaService {
  import opened Wrappers
  import opened Text

  // ---------------------------------------------------------------- configuration

  /** The client's configuration, fixed when the shared instance is built. */
  datatype Config = Config(baseUrl: string, defaultModel: string, enableStreaming: bool)

  const DefaultBaseUrl := "http://localhost:11434"
  const DefaultModelName := "llama2"

  /**
   * The constructor's reading of the environment: an unset or empty variable
   * falls back to the default, and streaming is on only for the exact text `true`.
   */
  function ConfigFromEnv(baseUrl: Option<string>, model: Option<string>, streaming: Option<string>): (c: Config)
    ensures c.baseUrl != "" && c.defaultModel != ""
    ensures baseUrl.Some? && baseUrl.value != "" ==> c.baseUrl == baseUrl.value
    ensures model.Some? && model.value != "" ==> c.defaultModel == model.value
    ensures c.enableStreaming <==> streaming == Some("true")
  {
    Config(
      if baseUrl.Some? && baseUrl.value != "" then baseUrl.value else DefaultBaseUrl,
      if model.Some? && model.value != "" then model.value else DefaultModelName,
      streaming == Some("true"))
  }

  // ---------------------------------------------------------------- transport

  /** What `fetch` gives: a rejection with its message, or a reply with a status. */
  datatype Fetched = FetchFailed(message: string) | Replied(status: nat)

  /** `response.ok`: the status is in the 2xx range. */
  predicate IsOk(f: Fetched) {
    f.Replied? && 200 <= f.status <= 299
  }

  /** What `response.json()` gives: a value, or the message of the error it throws. */
  datatype JsonRead<V> = Parsed(value: V) | Unparsable(message: string)

  /** The decoded chunks of a streamed body, and the error the next read throws, if any. */
  datatype ChunkStream = ChunkStream(chunks: seq<string>, failure: Option<string>)

  /** `error.message || fallback`. */
  function MessageOr(message: string, fallback: string): string {
    if message != "" then message else fallback
  }

  /** The error thrown for a non-2xx reply. */
  function HttpError(status: nat): string {
    "HTTP error! status: " + NatToString(status)
  }

  /** A non-2xx status is reported by its number, which can be read back from the text. */
  lemma HttpErrorNamesStatus(a: nat, b: nat)
    ensures HttpError(a) == HttpError(b) <==> a == b
  {
    if HttpError(a) == HttpError(b) {
      var p := "HTTP error! status: ";
      assert NatToString(a) == HttpError(a)[|p|..];
      assert NatToString(b) == HttpError(b)[|p|..];
      NatToStringInjective(a, b);
    }
  }

  // ---------------------------------------------------------------- health and listing

  datatype Connection = Connected | Disconnected

  /** The result of `checkHealth`; `models` is the listing body when connected. */
  datatype Health<V> = Health(success: bool, status: Connection, models: Option<V>, error: Option<string>)

  const CannotConnect := "Cannot connect to Ollama server. Please ensure Ollama is running on your system."

  /**
   * `checkHealth`: connected exactly when the listing request is answered with a
   * 2xx status and its body is JSON. A rejected request or an unreadable body
   * (both thrown inside the `try`) are reported as disconnected with the fixed
   * explanation; a non-2xx reply is disconnected without an error text.
   */
  function CheckHealth<V>(reply: Fetched, body: JsonRead<V>): (h: Health<V>)
    ensures h.success <==> h.status == Connected
    ensures h.status == Connected <==> IsOk(reply) && body.Parsed?
    ensures h.status == Connected ==> h.models == Some(body.value) && h.error.None?
    ensures h.error.Some? <==> reply.FetchFailed? || (IsOk(reply) && body.Unparsable?)
    ensures h.error.Some? ==> h.error.value == CannotConnect && h.models.None?
    ensures reply.Replied? && !IsOk(reply) ==> h == Health(false, Disconnected, None, None)
  {
    match reply
    case FetchFailed(_) => Health(false, Disconnected, None, Some(CannotConnect))
    case Replied(_) =>
      if !IsOk(reply) then Health(false, Disconnected, None, None)
      else match body
        case Parsed(v) => Health(true, Connected, Some(v), None)
        case Unparsable(_) => Health(false, Disconnected, None, Some(CannotConnect))
  }

  /** One entry of the daemon's listing, with the fields the client drops. */
  datatype RawModel = RawModel(name: string, size: nat, modifiedAt: string, digest: string, details: map<string, string>)

  /** The normalised model description the client hands out. */
  datatype ModelDescriptor = ModelDescriptor(name: string, size: nat, modifiedAt: string, digest: string)

  /** The listing body; `models` is `None` when the field is absent or null. */
  datatype TagsBody = TagsBody(models: Option<seq<RawModel>>)

  /** The result of `getAvailableModels`. */
  datatype ModelList = ModelList(success: bool, models: seq<ModelDescriptor>, error: Option<string>)

  function Describe(m: RawModel): ModelDescriptor {
    ModelDescriptor(m.name, m.size, m.modifiedAt, m.digest)
  }

  /**
   * `getAvailableModels`: on success the listing projected entry by entry, in
   * order, onto `{name, size, modified_at, digest}`, and `[]` when the body has no
   * `models`; on any failure `success` is false, `models` is `[]` and an error
   * text is given.
   */
  function GetAvailableModels(reply: Fetched, body: JsonRead<TagsBody>): (r: ModelList)
    ensures r.success <==> IsOk(reply) && body.Parsed?
    ensures r.success ==> r.error.None?
    ensures r.success && body.value.models.None? ==> r.models == []
    ensures r.success && body.value.models.Some? ==>
              |r.models| == |body.value.models.value|
              && forall i | 0 <= i < |r.models| ::
                   var m := body.value.models.value[i];
                   r.models[i] == ModelDescriptor(m.name, m.size, m.modifiedAt, m.digest)
    ensures !r.success ==> r.models == [] && r.error.Some? && r.error.value != ""
    ensures reply.Replied? && !IsOk(reply) ==> r.error == Some("Failed to fetch models")
  {
    match reply
    case FetchFailed(m) => ModelList(false, [], Some(MessageOr(m, "Failed to get available models")))
    case Replied(_) =>
      if !IsOk(reply) then ModelList(false, [], Some("Failed to fetch models"))
      else match body
        case Unparsable(m) => ModelList(false, [], Some(MessageOr(m, "Failed to get available models")))
        case Parsed(tags) =>
          match tags.models
          case None => ModelList(true, [], None)
          case Some(ms) => ModelList(true, seq(|ms|, i requires 0 <= i < |ms| => Describe(ms[i])), None)
  }

  // ---------------------------------------------------------------- the line reader

  /**
   * The lines the read loop visits: every chunk is split at `'\n'` on its own,
   * with nothing carried over from one chunk to the next.
   */
  function Lines(chunks: seq<string>): seq<string>
    decreases |chunks|
  {
    if |chunks| == 0 then [] else Lines(chunks[..|chunks| - 1]) + Split(chunks[|chunks| - 1], '\n')
  }

  lemma {:induction false} LinesAppend(a: seq<string>, b: seq<string>)
    ensures Lines(a + b) == Lines(a) + Lines(b)
    decreases |b|
  {
    if |b| == 0 {
      assert a + b == a;
    } else {
      var n := |b| - 1;
      LinesAppend(a, b[..n]);
      calc {
        Lines(a + b);
        { assert (a + b)[..|a + b| - 1] == a + b[..n]; assert (a + b)[|a + b| - 1] == b[n]; }
        Lines(a + b[..n]) + Split(b[n], '\n');
        (Lines(a) + Lines(b[..n])) + Split(b[n], '\n');
        Lines(a) + (Lines(b[..n]) + Split(b[n], '\n'));
        Lines(a) + Lines(b);
      }
    }
  }

  /**
   * The lines of `chunks` around line `j` of chunk `i`: those read up to and
   * including it, and those after it.
   */
  lemma LinesAround(chunks: seq<string>, i: nat, j: nat)
    requires i < |chunks| && j < |Split(chunks[i], '\n')|
    ensures var lines := Split(chunks[i], '\n');
            Lines(chunks) == (Lines(chunks[..i]) + lines[..j + 1]) + (lines[j + 1..] + Lines(chunks[i + 1..]))
  {
    var lines := Split(chunks[i], '\n');
    assert chunks == chunks[..i + 1] + chunks[i + 1..];
    LinesAppend(chunks[..i + 1], chunks[i + 1..]);
    LinesNext(chunks, i);
    assert lines == lines[..j + 1] + lines[j + 1..];
    SeqRegroup(Lines(chunks[..i]), lines[..j + 1], lines[j + 1..], Lines(chunks[i + 1..]));
  }

  /** The lines of the first `i + 1` chunks are those of the first `i` and then those of chunk `i`. */
  lemma LinesNext(chunks: seq<string>, i: nat)
    requires i < |chunks|
    ensures Lines(chunks[..i + 1]) == Lines(chunks[..i]) + Split(chunks[i], '\n')
  {
    assert chunks[..i + 1][..i] == chunks[..i];
  }

  // ---------------------------------------------------------------- generation stream

  /**
   * One object of the generation stream as the reader sees it: `response` is the
   * text, `""` when the field is missing or empty (both are falsy); `done` is the
   * truthiness of the `done` field.
   */
  datatype StreamObject = StreamObject(response: string, done: bool, model: Option<string>, createdAt: Option<string>)

  /** One invocation of the progress callback: `(chunk, fullContent, done)`. */
  datatype Progress = Progress(delta: string, accumulated: string, done: bool)

  /** The reader's state: the accumulator, the callbacks made, and the terminal object once seen. */
  datatype Scan = Scan(acc: string, events: seq<Progress>, final: Option<StreamObject>)

  /** The effect of one line (ollamaService.js:123-142); nothing changes once a `done` object was seen. */
  function ScanLine(s: Scan, line: string, parse: string -> Option<StreamObject>): Scan {
    if s.final.Some? || IsBlank(line) then s
    else match parse(line)
      case None => s
      case Some(o) =>
        if o.response == "" then Scan(s.acc, s.events, if o.done then Some(o) else None)
        else
          var acc := s.acc + o.response;
          Scan(acc, s.events + [Progress(o.response, acc, o.done)], if o.done then Some(o) else None)
  }

  /** The state after reading `lines` from state `s`. */
  function ScanFrom(s: Scan, lines: seq<string>, parse: string -> Option<StreamObject>): Scan
    decreases |lines|
  {
    if |lines| == 0 then s else ScanLine(ScanFrom(s, lines[..|lines| - 1], parse), lines[|lines| - 1], parse)
  }

  const Fresh := Scan("", [], None)

  lemma {:induction false} ScanFromAppend(s: Scan, a: seq<string>, b: seq<string>, parse: string -> Option<StreamObject>)
    ensures ScanFrom(s, a + b, parse) == ScanFrom(ScanFrom(s, a, parse), b, parse)
    decreases |b|
  {
    if |b| == 0 {
      assert a + b == a;
    } else {
      var n := |b| - 1;
      assert (a + b)[..|a + b| - 1] == a + b[..n];
      assert (a + b)[|a + b| - 1] == b[n];
      ScanFromAppend(s, a, b[..n], parse);
    }
  }

  /** Once the terminal object has been seen, further lines change nothing. */
  lemma {:induction false} ScanStopped(s: Scan, lines: seq<string>, parse: string -> Option<StreamObject>)
    requires s.final.Some?
    ensures ScanFrom(s, lines, parse) == s
    decreases |lines|
  {
    if |lines| > 0 {
      ScanStopped(s, lines[..|lines| - 1], parse);
    }
  }

  /** Reading one more line is one more `ScanLine`. */
  lemma ScanNext(s: Scan, lines: seq<string>, j: nat, parse: string -> Option<StreamObject>)
    requires j < |lines|
    ensures ScanFrom(s, lines[..j + 1], parse) == ScanLine(ScanFrom(s, lines[..j], parse), lines[j], parse)
  {
    assert lines[..j + 1][..j] == lines[..j];
  }

  /**
   * What `_handleStreamingResponse` resolves to and the callbacks it makes: the
   * first `done` object ends reading with its `model` and `created_at`; a stream
   * that ends without one still succeeds; a read error (reached only when no
   * `done` object came first) fails and drops the accumulated text.
   */
  function StreamOutcome(stream: ChunkStream, parse: string -> Option<StreamObject>): (GenResult, seq<Progress>) {
    var s := ScanFrom(Fresh, Lines(stream.chunks), parse);
    if s.final.Some? then
      (Generated(Generation(s.acc, s.final.value.model, s.final.value.createdAt, true)), s.events)
    else if stream.failure.Some? then
      (GenFailed(MessageOr(stream.failure.value, "Streaming failed")), s.events)
    else
      (Generated(Generation(s.acc, None, None, true)), s.events)
  }

  /** A generation as the client returns it. */
  datatype Generation = Generation(content: string, model: Option<string>, createdAt: Option<string>, done: bool)

  datatype GenResult = Generated(gen: Generation) | GenFailed(error: string)

  /** `_handleStreamingResponse`: the read loop over chunks and, inside it, over lines. */
  method HandleStreamingResponse(stream: ChunkStream, parse: string -> Option<StreamObject>)
    returns (r: GenResult, events: seq<Progress>)
    ensures (r, events) == StreamOutcome(stream, parse)
  {
    var chunks := stream.chunks;
    var fullContent := "";
    events := [];
    var i := 0;
    while i < |chunks|
      invariant 0 <= i <= |chunks|
      invariant ScanFrom(Fresh, Lines(chunks[..i]), parse) == Scan(fullContent, events, None)
    {
      var lines := Split(chunks[i], '\n');
      var before := Lines(chunks[..i]);
      var j := 0;
      assert before + lines[..0] == before;
      while j < |lines|
        invariant 0 <= j <= |lines|
        invariant ScanFrom(Fresh, before + lines[..j], parse) == Scan(fullContent, events, None)
      {
        var line := lines[j];
        ScanFromAppend(Fresh, before, lines[..j + 1], parse);
        ScanFromAppend(Fresh, before, lines[..j], parse);
        ScanNext(ScanFrom(Fresh, before, parse), lines, j, parse);
        if !IsBlank(line) {
          var parsed := parse(line);
          if parsed.Some? {
            var data := parsed.value;
            if data.response != "" {
              fullContent := fullContent + data.response;
              events := events + [Progress(data.response, fullContent, data.done)];
            }
            if data.done {
              var seen := before + lines[..j + 1];
              assert ScanFrom(Fresh, seen, parse) == Scan(fullContent, events, Some(data));
              StreamEndsAtDone(chunks, i, j, parse);
              return Generated(Generation(fullContent, data.model, data.createdAt, true)), events;
            }
          }
        }
        j := j + 1;
      }
      assert lines[..j] == lines;
      LinesNext(chunks, i);
      i := i + 1;
    }
    assert chunks[..i] == chunks;
    if stream.failure.Some? {
      return GenFailed(MessageOr(stream.failure.value, "Streaming failed")), events;
    }
    return Generated(Generation(fullContent, None, None, true)), events;
  }

  lemma SeqRegroup<T>(a: seq<T>, b: seq<T>, c: seq<T>, d: seq<T>)
    ensures a + (b + c) + d == (a + b) + (c + d)
  {
  }

  /** Reading stops at a `done` object seen at line `j` of chunk `i`: later lines and chunks are ignored. */
  lemma StreamEndsAtDone(chunks: seq<string>, i: nat, j: nat, parse: string -> Option<StreamObject>)
    requires i < |chunks| && j < |Split(chunks[i], '\n')|
    requires ScanFrom(Fresh, Lines(chunks[..i]) + Split(chunks[i], '\n')[..j + 1], parse).final.Some?
    ensures ScanFrom(Fresh, Lines(chunks), parse)
            == ScanFrom(Fresh, Lines(chunks[..i]) + Split(chunks[i], '\n')[..j + 1], parse)
  {
    var lines := Split(chunks[i], '\n');
    var seen := Lines(chunks[..i]) + lines[..j + 1];
    var rest := lines[j + 1..] + Lines(chunks[i + 1..]);
    LinesAround(chunks, i, j);
    ScanFromAppend(Fresh, seen, rest, parse);
    ScanStopped(ScanFrom(Fresh, seen, parse), rest, parse);
  }

  // ---------------------------------------------------------------- what the reader promises

  /** The concatenation of the texts handed to the callback, in order. */
  function Deltas(events: seq<Progress>): string
    decreases |events|
  {
    if |events| == 0 then "" else Deltas(events[..|events| - 1]) + events[|events| - 1].delta
  }

  /**
   * The accumulator is everything reported so far, every callback carries a
   * non-empty text, and the accumulated text it is given is the concatenation of
   * the texts of that callback and all earlier ones.
   */
  ghost predicate Consistent(s: Scan) {
    && s.acc == Deltas(s.events)
    && forall k | 0 <= k < |s.events| ::
         s.events[k].delta != "" && s.events[k].accumulated == Deltas(s.events[..k + 1])
  }

  lemma ScanLineConsistent(s: Scan, line: string, parse: string -> Option<StreamObject>)
    requires Consistent(s)
    ensures Consistent(ScanLine(s, line, parse))
  {
    var t := ScanLine(s, line, parse);
    if |t.events| == |s.events| + 1 {
      var n := |s.events|;
      assert t.events[..n] == s.events;
      forall k | 0 <= k < |t.events|
        ensures t.events[k].delta != "" && t.events[k].accumulated == Deltas(t.events[..k + 1])
      {
        if k < n {
          assert t.events[..k + 1] == s.events[..k + 1];
        } else {
          assert t.events[..k + 1] == t.events;
        }
      }
    }
  }

  /** Every progress callback sees the in-order concatenation of all non-empty texts so far. */
  lemma {:induction false} ScanConsistent(s: Scan, lines: seq<string>, parse: string -> Option<StreamObject>)
    requires Consistent(s)
    ensures Consistent(ScanFrom(s, lines, parse))
    decreases |lines|
  {
    if |lines| > 0 {
      ScanConsistent(s, lines[..|lines| - 1], parse);
      ScanLineConsistent(ScanFrom(s, lines[..|lines| - 1], parse), lines[|lines| - 1], parse);
    }
  }

  /**
   * The reader's callbacks: each carries a non-empty text, and its accumulated
   * text is the concatenation of that text and all earlier ones; a successful
   * result's content is the concatenation of every reported text.
   */
  lemma StreamCallbacksAccumulate(stream: ChunkStream, parse: string -> Option<StreamObject>)
    ensures var (r, events) := StreamOutcome(stream, parse);
            && (forall k | 0 <= k < |events| ::
                  events[k].delta != "" && events[k].accumulated == Deltas(events[..k + 1]))
            && (r.Generated? ==> r.gen.content == Deltas(events) && r.gen.done)
  {
    assert Consistent(Fresh);
    ScanConsistent(Fresh, Lines(stream.chunks), parse);
  }

  /** A blank line, or one the parser rejects, leaves the reader exactly as it was. */
  lemma SkippedLineIsInvisible(s: Scan, before: seq<string>, line: string, after: seq<string>, parse: string -> Option<StreamObject>)
    requires IsBlank(line) || parse(line).None?
    ensures ScanFrom(s, before + [line] + after, parse) == ScanFrom(s, before + after, parse)
  {
    ScanFromAppend(s, before + [line], after, parse);
    ScanFromAppend(s, before, [line], parse);
    ScanFromAppend(s, before, after, parse);
    assert [line][..0] == [];
  }

  /** The objects the parser accepts from the non-blank lines, in order. */
  function ObjectOf(line: string, parse: string -> Option<StreamObject>): seq<StreamObject> {
    if IsBlank(line) then [] else match parse(line) case None => [] case Some(o) => [o]
  }

  function ParsedObjects(lines: seq<string>, parse: string -> Option<StreamObject>): seq<StreamObject>
    decreases |lines|
  {
    if |lines| == 0 then [] else ParsedObjects(lines[..|lines| - 1], parse) + ObjectOf(lines[|lines| - 1], parse)
  }

  predicate HasDone(objects: seq<StreamObject>) {
    exists k | 0 <= k < |objects| :: objects[k].done
  }

  /** The objects up to and including the first `done` one. */
  function UpToDone(objects: seq<StreamObject>): seq<StreamObject>
    decreases |objects|
  {
    if |objects| == 0 then []
    else if objects[0].done then [objects[0]]
    else [objects[0]] + UpToDone(objects[1..])
  }

  /** The concatenated `response` texts of a list of objects. */
  function Texts(objects: seq<StreamObject>): string
    decreases |objects|
  {
    if |objects| == 0 then "" else Texts(objects[..|objects| - 1]) + objects[|objects| - 1].response
  }

  lemma {:induction false} UpToDoneAppend(p: seq<StreamObject>, q: seq<StreamObject>)
    ensures HasDone(p) ==> UpToDone(p + q) == UpToDone(p)
    ensures !HasDone(p) ==> UpToDone(p + q) == p + UpToDone(q)
    decreases |p|
  {
    if |p| > 0 {
      assert (p + q)[0] == p[0];
      assert (p + q)[1..] == p[1..] + q;
      UpToDoneAppend(p[1..], q);
      if !p[0].done {
        assert HasDone(p) ==> HasDone(p[1..]) by {
          if HasDone(p) {
            var k :| 0 <= k < |p| && p[k].done;
            assert p[1..][k - 1].done;
          }
        }
        assert HasDone(p[1..]) ==> HasDone(p) by {
          if HasDone(p[1..]) {
            var k :| 0 <= k < |p[1..]| && p[1..][k].done;
            assert p[k + 1].done;
          }
        }
        assert [p[0]] + p[1..] == p;
      } else {
        assert HasDone(p) by { assert p[0].done; }
      }
    } else {
      assert p + q == q;
    }
  }

  /** `objects[k]` is the first `done` object. */
  predicate FirstDoneAt(objects: seq<StreamObject>, k: int) {
    0 <= k < |objects| && objects[k].done && forall j | 0 <= j < k :: !objects[j].done
  }

  lemma HasDoneAppend(p: seq<StreamObject>, q: seq<StreamObject>)
    ensures HasDone(p + q) <==> HasDone(p) || HasDone(q)
  {
    if HasDone(p + q) {
      var k :| 0 <= k < |p + q| && (p + q)[k].done;
      if k < |p| { assert p[k].done; } else { assert q[k - |p|].done; }
    }
    if HasDone(p) {
      var k :| 0 <= k < |p| && p[k].done;
      assert (p + q)[k].done;
    }
    if HasDone(q) {
      var k :| 0 <= k < |q| && q[k].done;
      assert (p + q)[|p| + k].done;
    }
  }

  lemma FirstDoneAppend(p: seq<StreamObject>, q: seq<StreamObject>, k: int)
    ensures FirstDoneAt(p, k) ==> FirstDoneAt(p + q, k)
    ensures !HasDone(p) && FirstDoneAt(q, k) ==> FirstDoneAt(p + q, |p| + k)
  {
    if FirstDoneAt(p, k) {
      forall j | 0 <= j < k ensures !(p + q)[j].done { assert (p + q)[j] == p[j]; }
    }
    if !HasDone(p) && FirstDoneAt(q, k) {
      forall j | 0 <= j < |p| + k ensures !(p + q)[j].done {
        if j < |p| {
          assert (p + q)[j] == p[j];
        } else {
          assert (p + q)[j] == q[j - |p|];
        }
      }
    }
  }

  lemma TextsAppendOne(p: seq<StreamObject>, o: StreamObject)
    ensures Texts(p + [o]) == Texts(p) + o.response
  {
    assert (p + [o])[..|p|] == p;
  }

  /**
   * The reader state `s` agrees with the object list `objects`: its accumulator
   * is the concatenation of the `response` texts up to the first `done` object,
   * and it has stopped exactly when there is a `done` object, keeping the first.
   */
  ghost predicate ReadsAs(s: Scan, objects: seq<StreamObject>) {
    && s.acc == Texts(UpToDone(objects))
    && (s.final.Some? <==> HasDone(objects))
    && (s.final.Some? ==> exists k :: FirstDoneAt(objects, k) && objects[k] == s.final.value)
  }

  lemma ScanLineReadsAs(s: Scan, objects: seq<StreamObject>, line: string, parse: string -> Option<StreamObject>)
    requires ReadsAs(s, objects)
    ensures ReadsAs(ScanLine(s, line, parse), objects + ObjectOf(line, parse))
  {
    var o := ObjectOf(line, parse);
    if s.final.Some? {
      StoppedReadsAs(s, objects, o);
    } else if o == [] {
      assert objects + o == objects;
    } else {
      assert ScanLine(s, line, parse) == ScanObject(s, o[0]);
      ObjectReadsAs(s, objects, o[0]);
      assert [o[0]] == o;
    }
  }

  /** The reader's step on one parsed object, in a state that has not stopped. */
  function ScanObject(s: Scan, o: StreamObject): Scan {
    if o.response == "" then Scan(s.acc, s.events, if o.done then Some(o) else None)
    else
      var acc := s.acc + o.response;
      Scan(acc, s.events + [Progress(o.response, acc, o.done)], if o.done then Some(o) else None)
  }

  lemma StoppedReadsAs(s: Scan, objects: seq<StreamObject>, more: seq<StreamObject>)
    requires ReadsAs(s, objects) && s.final.Some?
    ensures ReadsAs(s, objects + more)
  {
    var k :| FirstDoneAt(objects, k) && objects[k] == s.final.value;
    UpToDoneAppend(objects, more);
    HasDoneAppend(objects, more);
    FirstDoneAppend(objects, more, k);
    assert (objects + more)[k] == objects[k];
  }

  lemma ObjectReadsAs(s: Scan, objects: seq<StreamObject>, o: StreamObject)
    requires ReadsAs(s, objects) && s.final.None?
    ensures ReadsAs(ScanObject(s, o), objects + [o])
  {
    UpToDoneAppend(objects, [o]);
    UpToDoneAppend(objects, []);
    assert objects + [] == objects;
    HasDoneAppend(objects, [o]);
    assert HasDone([o]) <==> o.done;
    assert UpToDone([o]) == [o];
    TextsAppendOne(objects, o);
    if o.done {
      assert FirstDoneAt([o], 0);
      FirstDoneAppend(objects, [o], 0);
      assert (objects + [o])[|objects|] == o;
    }
  }

  /**
   * An independent description of the reader: its accumulator is the
   * concatenation of the `response` texts of the parsed objects up to the first
   * `done` one, and it has stopped exactly when some parsed object is `done`,
   * keeping the first such object.
   */
  lemma {:induction false} ScanMatchesObjects(lines: seq<string>, parse: string -> Option<StreamObject>)
    ensures ReadsAs(ScanFrom(Fresh, lines, parse), ParsedObjects(lines, parse))
    decreases |lines|
  {
    if |lines| == 0 {
      assert UpToDone([]) == [];
      assert !HasDone([]);
    } else {
      ScanMatchesObjects(lines[..|lines| - 1], parse);
      ScanLineReadsAs(ScanFrom(Fresh, lines[..|lines| - 1], parse), ParsedObjects(lines[..|lines| - 1], parse), lines[|lines| - 1], parse);
    }
  }

  /** Chunks without a newline are read as one line each. */
  lemma {:induction false} LinesOfUnbroken(chunks: seq<string>)
    requires forall k | 0 <= k < |chunks| :: '\n' !in chunks[k]
    ensures Lines(chunks) == chunks
    decreases |chunks|
  {
    if |chunks| > 0 {
      var n := |chunks| - 1;
      LinesOfUnbroken(chunks[..n]);
      SplitWithout(chunks[n], '\n');
      assert chunks[..n] + [chunks[n]] == chunks;
    }
  }

  /**
   * Lines are split per chunk, so an object whose text is cut across two chunks
   * is lost: here the terminal object arrives in two halves the parser rejects,
   * reading runs to the end of the stream, and the call still succeeds, with no
   * `model`, whereas the same text in one chunk ends reading at that object.
   */
  lemma SplitObjectIsLost(x: string, y: string, o: StreamObject, parse: string -> Option<StreamObject>)
    requires '\n' !in x && '\n' !in y
    requires parse(x).None? && parse(y).None?
    requires parse(x + y) == Some(o) && o.done && !IsBlank(x + y) && o.model.Some?
    ensures StreamOutcome(ChunkStream([x, y], None), parse) == (Generated(Generation("", None, None, true)), [])
    ensures StreamOutcome(ChunkStream([x + y], None), parse).0 == Generated(Generation(o.response, o.model, o.createdAt, true))
  {
    LinesOfUnbroken([x, y]);
    LinesOfUnbroken([x + y]);
    SkippedLineIsInvisible(Fresh, [], x, [y], parse);
    SkippedLineIsInvisible(Fresh, [], y, [], parse);
    assert [] + [x] + [y] == [x, y];
    assert [] + [y] == [y] && [] + [y] + [] == [y];
    assert ScanFrom(Fresh, [x, y], parse) == Fresh;
    ScanNext(Fresh, [x + y], 0, parse);
    assert [x + y][..1] == [x + y];
    assert [x + y][..0] == [];
  }

  /**
   * An exchange `Hel`, `lo`, then a terminal object without text, sent
   * as one chunk ending in a newline: two callbacks, with accumulated texts `Hel`
   * and `Hello`; the terminal object makes no callback, since its text is empty,
   * yet it ends reading and the result is `Hello`.
   */
  lemma TerminalObjectMakesNoCallback(l1: string, l2: string, l3: string, parse: string -> Option<StreamObject>)
    requires '\n' !in l1 && '\n' !in l2 && '\n' !in l3
    requires !IsBlank(l1) && !IsBlank(l2) && !IsBlank(l3)
    requires parse(l1) == Some(StreamObject("Hel", false, None, None))
    requires parse(l2) == Some(StreamObject("lo", false, None, None))
    requires parse(l3) == Some(StreamObject("", true, Some("llama2"), None))
    ensures StreamOutcome(ChunkStream([l1 + "\n" + l2 + "\n" + l3 + "\n"], None), parse)
            == (Generated(Generation("Hello", Some("llama2"), None, true)),
                [Progress("Hel", "Hel", false), Progress("lo", "Hello", false)])
  {
    ThreeLines(l1, l2, l3);
    ScanThreeObjects(l1, l2, l3, parse);
  }

  /** A chunk of three newline-terminated lines reads as those lines and an empty rest. */
  lemma ThreeLines(l1: string, l2: string, l3: string)
    requires '\n' !in l1 && '\n' !in l2 && '\n' !in l3
    ensures Lines([l1 + "\n" + l2 + "\n" + l3 + "\n"]) == [l1, l2, l3, ""]
  {
    var lines := [l1, l2, l3, ""];
    assert Join([l3, ""], '\n') == l3 + "\n" by {
      assert [l3, ""][1..] == [""];
    }
    assert Join([l2, l3, ""], '\n') == l2 + "\n" + (l3 + "\n") by {
      assert [l2, l3, ""][1..] == [l3, ""];
    }
    assert Join(lines, '\n') == l1 + "\n" + (l2 + "\n" + (l3 + "\n")) by {
      assert lines[1..] == [l2, l3, ""];
    }
    assert l1 + "\n" + (l2 + "\n" + (l3 + "\n")) == l1 + "\n" + l2 + "\n" + l3 + "\n";
    SplitJoin(lines, '\n');
    assert [l1 + "\n" + l2 + "\n" + l3 + "\n"][..0] == [];
  }

  lemma ScanThreeObjects(l1: string, l2: string, l3: string, parse: string -> Option<StreamObject>)
    requires !IsBlank(l1) && !IsBlank(l2) && !IsBlank(l3)
    requires parse(l1) == Some(StreamObject("Hel", false, None, None))
    requires parse(l2) == Some(StreamObject("lo", false, None, None))
    requires parse(l3) == Some(StreamObject("", true, Some("llama2"), None))
    ensures ScanFrom(Fresh, [l1, l2, l3, ""], parse)
            == Scan("Hello", [Progress("Hel", "Hel", false), Progress("lo", "Hello", false)], Some(StreamObject("", true, Some("llama2"), None)))
  {
    var lines := [l1, l2, l3, ""];
    assert "" + "Hel" == "Hel";
    assert "Hel" + "lo" == "Hello";
    ScanNext(Fresh, lines, 0, parse);
    ScanNext(Fresh, lines, 1, parse);
    ScanNext(Fresh, lines, 2, parse);
    ScanNext(Fresh, lines, 3, parse);
    assert lines[..0] == [] && lines[..4] == lines;
    var s1 := ScanLine(Fresh, l1, parse);
    assert [] + [Progress("Hel", "Hel", false)] == [Progress("Hel", "Hel", false)];
    assert s1 == Scan("Hel", [Progress("Hel", "Hel", false)], None);
    var s2 := ScanLine(s1, l2, parse);
    assert s2 == Scan("Hello", [Progress("Hel", "Hel", false), Progress("lo", "Hello", false)], None);
    var s3 := ScanLine(s2, l3, parse);
    assert s3 == Scan("Hello", s2.events, Some(StreamObject("", true, Some("llama2"), None)));
    assert IsBlank("");
    assert ScanLine(s3, "", parse) == s3;
  }

  // ---------------------------------------------------------------- pulling a model

  /** One progress object of a pull; the fields the client reads or forwards. */
  datatype PullObject = PullObject(status: Option<string>, digest: Option<string>, total: Option<nat>, completed: Option<nat>)

  /** The pull reader's state: the objects forwarded so far, and whether `success` was seen. */
  datatype PullScan = PullScan(events: seq<PullObject>, finished: bool)

  const PullFresh := PullScan([], false)

  predicate IsSuccess(o: PullObject) {
    o.status == Some("success")
  }

  /**
   * One line of the pull loop: blank and unparsable lines are skipped, every
   * other object is forwarded to the callback, and one whose status is
   * `success` ends reading.
   */
  function PullLine(s: PullScan, line: string, parse: string -> Option<PullObject>): PullScan {
    if s.finished || IsBlank(line) then s
    else match parse(line)
      case None => s
      case Some(o) => PullScan(s.events + [o], IsSuccess(o))
  }

  function PullFrom(s: PullScan, lines: seq<string>, parse: string -> Option<PullObject>): PullScan
    decreases |lines|
  {
    if |lines| == 0 then s else PullLine(PullFrom(s, lines[..|lines| - 1], parse), lines[|lines| - 1], parse)
  }

  /** The result of `pullModel` and `_handlePullProgress`. */
  datatype PullResult = Pulled(status: Option<string>) | PullFailed(error: string)

  /**
   * What `_handlePullProgress` resolves to and the objects it forwards: a
   * `success` object, or the end of the stream, completes the pull; a read error
   * met before either fails it.
   */
  function PullOutcome(stream: ChunkStream, parse: string -> Option<PullObject>): (PullResult, seq<PullObject>) {
    var s := PullFrom(PullFresh, Lines(stream.chunks), parse);
    if !s.finished && stream.failure.Some? then (PullFailed(MessageOr(stream.failure.value, "Pull failed")), s.events)
    else (Pulled(Some("completed")), s.events)
  }

  lemma {:induction false} PullFromAppend(s: PullScan, a: seq<string>, b: seq<string>, parse: string -> Option<PullObject>)
    ensures PullFrom(s, a + b, parse) == PullFrom(PullFrom(s, a, parse), b, parse)
    decreases |b|
  {
    if |b| == 0 {
      assert a + b == a;
    } else {
      var n := |b| - 1;
      assert (a + b)[..|a + b| - 1] == a + b[..n];
      assert (a + b)[|a + b| - 1] == b[n];
      PullFromAppend(s, a, b[..n], parse);
    }
  }

  lemma {:induction false} PullStopped(s: PullScan, lines: seq<string>, parse: string -> Option<PullObject>)
    requires s.finished
    ensures PullFrom(s, lines, parse) == s
    decreases |lines|
  {
    if |lines| > 0 {
      PullStopped(s, lines[..|lines| - 1], parse);
    }
  }

  lemma PullNext(s: PullScan, lines: seq<string>, j: nat, parse: string -> Option<PullObject>)
    requires j < |lines|
    ensures PullFrom(s, lines[..j + 1], parse) == PullLine(PullFrom(s, lines[..j], parse), lines[j], parse)
  {
    assert lines[..j + 1][..j] == lines[..j];
  }

  /** Reading stops at a `success` object seen at line `j` of chunk `i`. */
  lemma PullEndsAtSuccess(chunks: seq<string>, i: nat, j: nat, parse: string -> Option<PullObject>)
    requires i < |chunks| && j < |Split(chunks[i], '\n')|
    requires PullFrom(PullFresh, Lines(chunks[..i]) + Split(chunks[i], '\n')[..j + 1], parse).finished
    ensures PullFrom(PullFresh, Lines(chunks), parse)
            == PullFrom(PullFresh, Lines(chunks[..i]) + Split(chunks[i], '\n')[..j + 1], parse)
  {
    var lines := Split(chunks[i], '\n');
    var seen := Lines(chunks[..i]) + lines[..j + 1];
    var rest := lines[j + 1..] + Lines(chunks[i + 1..]);
    LinesAround(chunks, i, j);
    PullFromAppend(PullFresh, seen, rest, parse);
    PullStopped(PullFrom(PullFresh, seen, parse), rest, parse);
  }

  /** `_handlePullProgress`: the read loop over chunks and, inside it, over lines. */
  method HandlePullProgress(stream: ChunkStream, parse: string -> Option<PullObject>)
    returns (r: PullResult, events: seq<PullObject>)
    ensures (r, events) == PullOutcome(stream, parse)
  {
    var chunks := stream.chunks;
    events := [];
    var i := 0;
    while i < |chunks|
      invariant 0 <= i <= |chunks|
      invariant PullFrom(PullFresh, Lines(chunks[..i]), parse) == PullScan(events, false)
    {
      var lines := Split(chunks[i], '\n');
      var before := Lines(chunks[..i]);
      var j := 0;
      assert before + lines[..0] == before;
      while j < |lines|
        invariant 0 <= j <= |lines|
        invariant PullFrom(PullFresh, before + lines[..j], parse) == PullScan(events, false)
      {
        var line := lines[j];
        PullFromAppend(PullFresh, before, lines[..j + 1], parse);
        PullFromAppend(PullFresh, before, lines[..j], parse);
        PullNext(PullFrom(PullFresh, before, parse), lines, j, parse);
        if !IsBlank(line) {
          var parsed := parse(line);
          if parsed.Some? {
            var data := parsed.value;
            events := events + [data];
            if data.status == Some("success") {
              PullEndsAtSuccess(chunks, i, j, parse);
              return Pulled(Some("completed")), events;
            }
          }
        }
        j := j + 1;
      }
      assert lines[..j] == lines;
      LinesNext(chunks, i);
      i := i + 1;
    }
    assert chunks[..i] == chunks;
    if stream.failure.Some? {
      return PullFailed(MessageOr(stream.failure.value, "Pull failed")), events;
    }
    return Pulled(Some("completed")), events;
  }

  /** The objects the pull parser accepts from the non-blank lines, in order. */
  function PullObjectsOf(lines: seq<string>, parse: string -> Option<PullObject>): seq<PullObject>
    decreases |lines|
  {
    if |lines| == 0 then []
    else
      var line := lines[|lines| - 1];
      PullObjectsOf(lines[..|lines| - 1], parse)
        + (if IsBlank(line) then [] else match parse(line) case None => [] case Some(o) => [o])
  }

  /** The objects up to and including the first `success` one. */
  function UpToSuccess(objects: seq<PullObject>): seq<PullObject>
    decreases |objects|
  {
    if |objects| == 0 then []
    else if IsSuccess(objects[0]) then [objects[0]]
    else [objects[0]] + UpToSuccess(objects[1..])
  }

  lemma {:induction false} UpToSuccessAppend(p: seq<PullObject>, q: seq<PullObject>)
    ensures (exists k | 0 <= k < |p| :: IsSuccess(p[k])) ==> UpToSuccess(p + q) == UpToSuccess(p)
    ensures (forall k | 0 <= k < |p| :: !IsSuccess(p[k])) ==> UpToSuccess(p + q) == p + UpToSuccess(q)
    decreases |p|
  {
    if |p| == 0 {
      assert p + q == q;
    } else {
      assert (p + q)[0] == p[0];
      assert (p + q)[1..] == p[1..] + q;
      UpToSuccessAppend(p[1..], q);
      if !IsSuccess(p[0]) {
        if exists k | 0 <= k < |p| :: IsSuccess(p[k]) {
          var k :| 0 <= k < |p| && IsSuccess(p[k]);
          assert IsSuccess(p[1..][k - 1]);
        }
        if forall k | 0 <= k < |p| :: !IsSuccess(p[k]) {
          forall k | 0 <= k < |p[1..]| ensures !IsSuccess(p[1..][k]) {
            assert p[1..][k] == p[k + 1];
          }
          assert [p[0]] + p[1..] == p;
        }
      }
    }
  }

  lemma PullLineForwards(s: PullScan, objects: seq<PullObject>, line: string, parse: string -> Option<PullObject>)
    requires s.events == UpToSuccess(objects)
    requires s.finished <==> exists k | 0 <= k < |objects| :: IsSuccess(objects[k])
    ensures var t := PullLine(s, line, parse);
            var more := objects + (if IsBlank(line) then [] else match parse(line) case None => [] case Some(o) => [o]);
            && t.events == UpToSuccess(more)
            && (t.finished <==> exists k | 0 <= k < |more| :: IsSuccess(more[k]))
  {
    var o := if IsBlank(line) then [] else match parse(line) case None => [] case Some(o) => [o];
    var more := objects + o;
    UpToSuccessAppend(objects, o);
    if s.finished {
      var k :| 0 <= k < |objects| && IsSuccess(objects[k]);
      assert more[k] == objects[k];
    } else if o == [] {
      assert more == objects;
    } else {
      UpToSuccessAppend(objects, []);
      assert objects + [] == objects;
      assert UpToSuccess(o) == o;
      if IsSuccess(o[0]) {
        assert more[|objects|] == o[0];
      }
    }
  }

  /**
   * The objects forwarded to the pull callback are exactly the parsed objects up
   * to and including the first whose status is `success`, and reading has
   * finished exactly when such an object was parsed.
   */
  lemma {:induction false} PullForwardsObjects(lines: seq<string>, parse: string -> Option<PullObject>)
    ensures var s := PullFrom(PullFresh, lines, parse);
            var objects := PullObjectsOf(lines, parse);
            && s.events == UpToSuccess(objects)
            && (s.finished <==> exists k | 0 <= k < |objects| :: IsSuccess(objects[k]))
    decreases |lines|
  {
    if |lines| == 0 {
      assert UpToSuccess([]) == [];
    } else {
      PullForwardsObjects(lines[..|lines| - 1], parse);
      PullLineForwards(PullFrom(PullFresh, lines[..|lines| - 1], parse), PullObjectsOf(lines[..|lines| - 1], parse), lines[|lines| - 1], parse);
    }
  }

  /**
   * `pullModel`: a non-2xx reply or a rejected request fails; with a callback the
   * body is read as progress lines, without one it is read as one JSON value
   * whose `status` is returned.
   */
  function PullModelOutcome(reply: Fetched, hasProgress: bool, body: JsonRead<PullObject>, stream: ChunkStream, parse: string -> Option<PullObject>): (r: (PullResult, seq<PullObject>))
    ensures r.0.PullFailed? ==> r.0.error != ""
    ensures r.0.Pulled? ==> IsOk(reply)
    ensures !hasProgress || !IsOk(reply) ==> r.1 == []
    ensures IsOk(reply) && !hasProgress && body.Parsed? ==> r.0 == Pulled(body.value.status)
    ensures reply.Replied? && !IsOk(reply) ==> r.0 == PullFailed(HttpError(reply.status))
  {
    match reply
    case FetchFailed(m) => (PullFailed(MessageOr(m, "Failed to pull model")), [])
    case Replied(status) =>
      if !IsOk(reply) then (PullFailed(HttpError(status)), [])
      else if hasProgress then PullOutcome(stream, parse)
      else match body
        case Parsed(data) => (Pulled(data.status), [])
        case Unparsable(m) => (PullFailed(MessageOr(m, "Failed to pull model")), [])
  }

  method PullModel(reply: Fetched, hasProgress: bool, body: JsonRead<PullObject>, stream: ChunkStream, parse: string -> Option<PullObject>)
    returns (r: PullResult, events: seq<PullObject>)
    ensures (r, events) == PullModelOutcome(reply, hasProgress, body, stream, parse)
  {
    if reply.FetchFailed? {
      return PullFailed(MessageOr(reply.message, "Failed to pull model")), [];
    }
    if !IsOk(reply) {
      return PullFailed(HttpError(reply.status)), [];
    }
    if hasProgress {
      r, events := HandlePullProgress(stream, parse);
      return;
    }
    match body
    case Parsed(data) => return Pulled(data.status), [];
    case Unparsable(m) => return PullFailed(MessageOr(m, "Failed to pull model")), [];
  }

  // ---------------------------------------------------------------- deleting and describing

  /**
   * `deleteModel`: success exactly on a 2xx reply, with a message naming the
   * model; otherwise the HTTP error, the rejection's message, or the fixed text.
   */
  function DeleteModel(name: string, reply: Fetched): (r: Result<string>)
    ensures r.Ok? <==> IsOk(reply)
    ensures r.Ok? ==> |r.value| >= 6 + |name| && r.value[..6] == "Model " && r.value[6..6 + |name|] == name
    ensures r.Err? ==> r.error != ""
    ensures reply.Replied? && !IsOk(reply) ==> r == Err(HttpError(reply.status))
  {
    match reply
    case FetchFailed(m) => Err(MessageOr(m, "Failed to delete model"))
    case Replied(status) =>
      if IsOk(reply) then Ok("Model " + name + " deleted successfully") else Err(HttpError(status))
  }

  /** `getModelInfo`: the parsed body of a 2xx reply, otherwise an error text. */
  function GetModelInfo<V>(reply: Fetched, body: JsonRead<V>): (r: Result<V>)
    ensures r.Ok? <==> IsOk(reply) && body.Parsed?
    ensures r.Ok? ==> r.value == body.value
    ensures r.Err? ==> r.error != ""
    ensures reply.Replied? && !IsOk(reply) ==> r == Err(HttpError(reply.status))
  {
    match reply
    case FetchFailed(m) => Err(MessageOr(m, "Failed to get model info"))
    case Replied(status) =>
      if !IsOk(reply) then Err(HttpError(status))
      else match body
        case Parsed(v) => Ok(v)
        case Unparsable(m) => Err(MessageOr(m, "Failed to get model info"))
  }

  // ---------------------------------------------------------------- generation requests

  /** The body posted to `/api/generate`; an absent prompt is omitted (sampling options are not modelled). */
  datatype GenRequest = GenRequest(url: string, model: string, prompt: Option<string>, stream: bool)

  /** The daemon's answer to one generation request, read either way. */
  datatype DaemonReply = DaemonReply(fetched: Fetched, body: JsonRead<StreamObject>, stream: ChunkStream)

  /** The client instance: its configuration, the daemon it talks to, and the line parser. */
  datatype Client = Client(cfg: Config, daemon: GenRequest -> DaemonReply, parse: string -> Option<StreamObject>)

  /** The options of `generateContent` that change its behaviour; `None` is an omitted option. */
  datatype GenOptions = GenOptions(model: Option<string>, stream: Option<bool>, hasProgress: bool, fallbackModels: Option<seq<string>>)

  /** The request `generateContent` posts: omitted options take the client's defaults. */
  function RequestFor(client: Client, prompt: Option<string>, opts: GenOptions): (q: GenRequest)
    ensures q.url == client.cfg.baseUrl + "/api/generate" && q.prompt == prompt
    ensures opts.model.None? ==> q.model == client.cfg.defaultModel
    ensures opts.model.Some? ==> q.model == opts.model.value
    ensures q.stream <==> (opts.stream == Some(true) || (opts.stream.None? && client.cfg.enableStreaming))
  {
    GenRequest(client.cfg.baseUrl + "/api/generate", opts.model.GetOr(client.cfg.defaultModel), prompt, opts.stream.GetOr(client.cfg.enableStreaming))
  }

  /**
   * `generateContent`: a rejected request, a non-2xx reply or an unreadable body
   * fail; the body is streamed only when streaming is requested and a callback
   * is given, and is otherwise read as one JSON object.
   */
  function GenerateOutcome(client: Client, prompt: Option<string>, opts: GenOptions): (GenResult, seq<Progress>)
  {
    var q := RequestFor(client, prompt, opts);
    var reply := client.daemon(q);
    match reply.fetched
    case FetchFailed(m) => (GenFailed(MessageOr(m, "Failed to generate content")), [])
    case Replied(status) =>
      if !IsOk(reply.fetched) then (GenFailed(HttpError(status)), [])
      else if q.stream && opts.hasProgress then StreamOutcome(reply.stream, client.parse)
      else match reply.body
        case Parsed(d) => (Generated(Generation(d.response, d.model, d.createdAt, d.done)), [])
        case Unparsable(m) => (GenFailed(MessageOr(m, "Failed to generate content")), [])
  }

  /**
   * What `generateContent` promises: failures carry a text, success needs a 2xx
   * reply, a non-2xx reply is reported by its status, callbacks are made only when
   * streaming with a callback, and the body is read as the request asked.
   */
  lemma GenerateOutcomeCases(client: Client, prompt: Option<string>, opts: GenOptions)
    ensures var r := GenerateOutcome(client, prompt, opts);
            var q := RequestFor(client, prompt, opts);
            var reply := client.daemon(q);
            && (r.0.GenFailed? ==> r.0.error != "")
            && (r.0.Generated? ==> IsOk(reply.fetched))
            && (reply.fetched.Replied? && !IsOk(reply.fetched) ==> r == (GenFailed(HttpError(reply.fetched.status)), []))
            && (!(q.stream && opts.hasProgress) ==> r.1 == [])
            && (IsOk(reply.fetched) && q.stream && opts.hasProgress ==> r == StreamOutcome(reply.stream, client.parse))
            && (IsOk(reply.fetched) && !(q.stream && opts.hasProgress) && reply.body.Parsed? ==>
                  var d := reply.body.value;
                  r.0 == Generated(Generation(d.response, d.model, d.createdAt, d.done)))
  {
  }

  method GenerateContent(client: Client, prompt: Option<string>, opts: GenOptions) returns (r: GenResult, events: seq<Progress>)
    ensures (r, events) == GenerateOutcome(client, prompt, opts)
  {
    var q := RequestFor(client, prompt, opts);
    var reply := client.daemon(q);
    if reply.fetched.FetchFailed? {
      return GenFailed(MessageOr(reply.fetched.message, "Failed to generate content")), [];
    }
    if !IsOk(reply.fetched) {
      return GenFailed(HttpError(reply.fetched.status)), [];
    }
    if q.stream && opts.hasProgress {
      r, events := HandleStreamingResponse(reply.stream, client.parse);
      return;
    }
    match reply.body
    case Parsed(d) => return Generated(Generation(d.response, d.model, d.createdAt, d.done)), [];
    case Unparsable(m) => return GenFailed(MessageOr(m, "Failed to generate content")), [];
  }

  // ---------------------------------------------------------------- fallback

  const DefaultFallbackModels := ["llama2", "mistral", "neural-chat"]
  const AllModelsFailedText := "All models failed to generate content"

  /** `xs.filter(m => m !== x)`. */
  function Without(xs: seq<string>, x: string): (r: seq<string>)
    ensures |r| <= |xs|
    ensures forall m :: m in r <==> m in xs && m != x
    decreases |xs|
  {
    if |xs| == 0 then []
    else (if xs[0] == x then [] else [xs[0]]) + Without(xs[1..], x)
  }

  /** Filtering keeps the surviving entries in their original order. */
  lemma {:induction false} WithoutKeepsOrder(xs: seq<string>, x: string, i: nat, j: nat)
    requires i < j < |xs| && xs[i] != x && xs[j] != x
    ensures exists a, b | 0 <= a < b < |Without(xs, x)| :: Without(xs, x)[a] == xs[i] && Without(xs, x)[b] == xs[j]
    decreases |xs|
  {
    var w := Without(xs, x);
    var rest := Without(xs[1..], x);
    if i == 0 {
      assert w == [xs[0]] + rest;
      assert xs[j] in xs[1..] by { assert xs[1..][j - 1] == xs[j]; }
      var b :| 0 <= b < |rest| && rest[b] == xs[j];
      assert w[0] == xs[i] && w[b + 1] == xs[j];
    } else {
      WithoutKeepsOrder(xs[1..], x, i - 1, j - 1);
      var a, b :| 0 <= a < b < |rest| && rest[a] == xs[1..][i - 1] && rest[b] == xs[1..][j - 1];
      var pre := if xs[0] == x then [] else [xs[0]];
      assert w == pre + rest;
      assert w[|pre| + a] == xs[i] && w[|pre| + b] == xs[j];
    }
  }

  /** Filtering drops every copy of the removed model and keeps every copy of the others. */
  lemma {:induction false} WithoutCounts(xs: seq<string>, x: string)
    ensures multiset(Without(xs, x)) == multiset(xs)[x := 0]
    decreases |xs|
  {
    if |xs| > 0 {
      WithoutCounts(xs[1..], x);
      assert xs == [xs[0]] + xs[1..];
      assert multiset(xs) == multiset{xs[0]} + multiset(xs[1..]);
    }
  }

  /** Filtering distributes over concatenation, so it keeps the order of what it keeps. */
  lemma {:induction false} WithoutAppend(a: seq<string>, b: seq<string>, x: string)
    ensures Without(a + b, x) == Without(a, x) + Without(b, x)
    decreases |a|
  {
    if |a| > 0 {
      WithoutAppend(a[1..], b, x);
      assert (a + b)[1..] == a[1..] + b;
    } else {
      assert a + b == b;
    }
  }

  /** `[model, ...fallbackModels.filter(m => m !== model)]`. */
  function Candidates(primary: string, fallbacks: seq<string>): (r: seq<string>)
    ensures |r| >= 1 && r[0] == primary
    ensures primary !in r[1..]
    ensures forall m :: m in r <==> m == primary || m in fallbacks
  {
    [primary] + Without(fallbacks, primary)
  }

  /**
   * After the primary model, the candidates are the fallback list without the
   * primary: every other fallback as often as it is listed, and in its order.
   */
  lemma CandidatesKeepFallbacks(primary: string, fallbacks: seq<string>, a: seq<string>, b: seq<string>)
    requires fallbacks == a + b
    ensures multiset(Candidates(primary, fallbacks)[1..]) == multiset(fallbacks)[primary := 0]
    ensures Candidates(primary, fallbacks)[1..] == Without(a, primary) + Without(b, primary)
  {
    assert Candidates(primary, fallbacks)[1..] == Without(fallbacks, primary);
    WithoutCounts(fallbacks, primary);
    WithoutAppend(a, b, primary);
  }

  predicate Distinct(xs: seq<string>) {
    forall i, j | 0 <= i < j < |xs| :: xs[i] != xs[j]
  }

  lemma {:induction false} WithoutDistinct(xs: seq<string>, x: string)
    requires Distinct(xs)
    ensures Distinct(Without(xs, x))
    decreases |xs|
  {
    if |xs| > 0 {
      assert Distinct(xs[1..]) by {
        forall i, j | 0 <= i < j < |xs[1..]| ensures xs[1..][i] != xs[1..][j] {
          assert xs[1..][i] == xs[i + 1] && xs[1..][j] == xs[j + 1];
        }
      }
      WithoutDistinct(xs[1..], x);
      var rest := Without(xs[1..], x);
      assert xs[0] !in xs[1..] by {
        forall k | 0 <= k < |xs[1..]| ensures xs[1..][k] != xs[0] {
          assert xs[1..][k] == xs[k + 1];
        }
      }
    }
  }

  /** Each model is tried at most once when the fallback list has no repeats. */
  lemma CandidatesDistinct(primary: string, fallbacks: seq<string>)
    requires Distinct(fallbacks)
    ensures Distinct(Candidates(primary, fallbacks))
  {
    WithoutDistinct(fallbacks, primary);
  }

  /** The result of `generateWithFallback`. */
  datatype Fallback =
    | Used(gen: Generation, modelUsed: string, fallbackUsed: bool)
    | AllFailed(error: string, modelsAttempted: seq<string>)

  /** The models `generateWithFallback` tries, in order. */
  function CandidatesFor(client: Client, opts: GenOptions): seq<string> {
    Candidates(opts.model.GetOr(client.cfg.defaultModel), opts.fallbackModels.GetOr(DefaultFallbackModels))
  }

  /** One attempt: the same options with the model replaced. */
  function Attempt(client: Client, prompt: Option<string>, opts: GenOptions, model: string): (GenResult, seq<Progress>) {
    GenerateOutcome(client, prompt, opts.(model := Some(model)))
  }

  /** The outcome of an attempt with each of `models`, in order. */
  function AttemptAll(client: Client, prompt: Option<string>, opts: GenOptions, models: seq<string>): (rs: seq<(GenResult, seq<Progress>)>)
    ensures |rs| == |models|
    decreases |models|
  {
    if |models| == 0 then [] else [Attempt(client, prompt, opts, models[0])] + AttemptAll(client, prompt, opts, models[1..])
  }

  lemma {:induction false} AttemptAllAt(client: Client, prompt: Option<string>, opts: GenOptions, models: seq<string>, j: nat)
    requires j < |models|
    ensures AttemptAll(client, prompt, opts, models)[j] == Attempt(client, prompt, opts, models[j])
    decreases j
  {
    if j > 0 {
      AttemptAllAt(client, prompt, opts, models[1..], j - 1);
    }
  }

  /**
   * The choice `generateWithFallback` makes, given the outcome each candidate's
   * attempt would have: from index `i` on, the first success is taken, and the
   * progress reports of every attempt made are kept.
   */
  function Pick(cs: seq<string>, outcomes: seq<(GenResult, seq<Progress>)>, i: nat): (Fallback, seq<Progress>)
    requires |outcomes| == |cs|
    decreases |cs| - i
  {
    if i >= |cs| then (AllFailed(AllModelsFailedText, cs), [])
    else
      var (r, events) := outcomes[i];
      if r.Generated? then (Used(r.gen, cs[i], cs[i] != cs[0]), events)
      else
        var (f, later) := Pick(cs, outcomes, i + 1);
        (f, events + later)
  }

  /** Attempt `k` is the first that succeeds. */
  predicate FirstSuccessAt(outcomes: seq<(GenResult, seq<Progress>)>, k: int) {
    && 0 <= k < |outcomes|
    && outcomes[k].0.Generated?
    && forall j | 0 <= j < k :: outcomes[j].0.GenFailed?
  }

  lemma {:induction false} PickFirstSuccess(cs: seq<string>, outcomes: seq<(GenResult, seq<Progress>)>, i: nat)
    requires |outcomes| == |cs| && i <= |cs|
    requires |cs| > 0 ==> cs[0] !in cs[1..]
    requires forall j | 0 <= j < i :: outcomes[j].0.GenFailed?
    ensures var r := Pick(cs, outcomes, i).0;
            && (r.AllFailed? <==> forall j | 0 <= j < |cs| :: outcomes[j].0.GenFailed?)
            && (r.AllFailed? ==> r == AllFailed(AllModelsFailedText, cs))
            && (r.Used? ==> exists k :: FirstSuccessAt(outcomes, k)
                                       && r.modelUsed == cs[k]
                                       && outcomes[k].0 == Generated(r.gen)
                                       && (r.fallbackUsed <==> k > 0))
    decreases |cs| - i
  {
    if i < |cs| {
      if outcomes[i].0.Generated? {
        assert FirstSuccessAt(outcomes, i);
        if i > 0 {
          assert cs[i] == cs[1..][i - 1];
        }
      } else {
        PickFirstSuccess(cs, outcomes, i + 1);
      }
    }
  }

  /** The outcome of every candidate's attempt, in the order tried. */
  function Outcomes(client: Client, prompt: Option<string>, opts: GenOptions): seq<(GenResult, seq<Progress>)> {
    AttemptAll(client, prompt, opts, CandidatesFor(client, opts))
  }

  /** What `generateWithFallback` returns, with the progress reports of every attempt. */
  function FallbackOutcome(client: Client, prompt: Option<string>, opts: GenOptions): (Fallback, seq<Progress>) {
    Pick(CandidatesFor(client, opts), Outcomes(client, prompt, opts), 0)
  }

  /** Entry `j` of the outcomes is the attempt with candidate `j`. */
  lemma OutcomesAreAttempts(client: Client, prompt: Option<string>, opts: GenOptions)
    ensures var cs := CandidatesFor(client, opts);
            && |Outcomes(client, prompt, opts)| == |cs|
            && forall j | 0 <= j < |cs| :: Outcomes(client, prompt, opts)[j] == Attempt(client, prompt, opts, cs[j])
  {
    var cs := CandidatesFor(client, opts);
    forall j | 0 <= j < |cs| ensures Outcomes(client, prompt, opts)[j] == Attempt(client, prompt, opts, cs[j]) {
      AttemptAllAt(client, prompt, opts, cs, j);
    }
  }

  /**
   * `generateWithFallback`: the candidates are tried in order and the first
   * success is returned, with the model that produced it and whether it was a
   * fallback (not the first candidate); only when every candidate fails is the
   * fixed error returned, listing all candidates.
   */
  lemma FallbackPicksFirstSuccess(client: Client, prompt: Option<string>, opts: GenOptions)
    ensures var cs := CandidatesFor(client, opts);
            var outcomes := Outcomes(client, prompt, opts);
            var r := FallbackOutcome(client, prompt, opts).0;
            && (r.AllFailed? <==> forall j | 0 <= j < |cs| :: outcomes[j].0.GenFailed?)
            && (r.AllFailed? ==> r == AllFailed(AllModelsFailedText, cs))
            && (r.Used? ==> exists k :: FirstSuccessAt(outcomes, k)
                                       && r.modelUsed == cs[k]
                                       && outcomes[k].0 == Generated(r.gen)
                                       && (r.fallbackUsed <==> k > 0))
  {
    PickFirstSuccess(CandidatesFor(client, opts), Outcomes(client, prompt, opts), 0);
  }

  lemma PickStep(cs: seq<string>, outcomes: seq<(GenResult, seq<Progress>)>, i: nat)
    requires |outcomes| == |cs| && i < |cs|
    ensures outcomes[i].0.Generated? ==> Pick(cs, outcomes, i) == (Used(outcomes[i].0.gen, cs[i], cs[i] != cs[0]), outcomes[i].1)
    ensures outcomes[i].0.GenFailed? ==> Pick(cs, outcomes, i) == (Pick(cs, outcomes, i + 1).0, outcomes[i].1 + Pick(cs, outcomes, i + 1).1)
  {
  }

  /** `generateWithFallback`: the loop over the candidates. */
  method GenerateWithFallback(client: Client, prompt: Option<string>, opts: GenOptions) returns (r: Fallback, events: seq<Progress>)
    ensures (r, events) == FallbackOutcome(client, prompt, opts)
  {
    var primary := opts.model.GetOr(client.cfg.defaultModel);
    var candidates := Candidates(primary, opts.fallbackModels.GetOr(DefaultFallbackModels));
    ghost var outcomes := Outcomes(client, prompt, opts);
    events := [];
    var i := 0;
    assert [] + Pick(candidates, outcomes, 0).1 == Pick(candidates, outcomes, 0).1;
    while i < |candidates|
      invariant 0 <= i <= |candidates| == |outcomes|
      invariant Pick(candidates, outcomes, 0) == (Pick(candidates, outcomes, i).0, events + Pick(candidates, outcomes, i).1)
    {
      var current := candidates[i];
      var result, attemptEvents := GenerateContent(client, prompt, opts.(model := Some(current)));
      AttemptAllAt(client, prompt, opts, candidates, i);
      PickStep(candidates, outcomes, i);
      if result.Generated? {
        return Used(result.gen, current, current != primary), events + attemptEvents;
      }
      assert events + (attemptEvents + Pick(candidates, outcomes, i + 1).1)
          == (events + attemptEvents) + Pick(candidates, outcomes, i + 1).1;
      events := events + attemptEvents;
      i := i + 1;
    }
    assert events + [] == events;
    return AllFailed(AllModelsFailedText, candidates), events;
  }
}
