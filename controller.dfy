/**
 * The translation endpoints of the server: the validation chain of
 * `translateEnglishToSanskrit`, the method list of `getTranslationMethods`
 * and the server-sent-event framing of `streamToStdout`. The availability
 * checks, the service call and the clock are parameters.
 */
module TranslatorController {
  import opened Common
  import opened Strings
  import opened Json
  import opened ChildProcess
  import LocalModel

  /** A request-body field as JavaScript sees it; other value types are not modelled. */
  datatype Field = Undefined | Null | Str(value: string)

  /** JavaScript truthiness of a field: a non-empty string. */
  predicate Truthy(f: Field) {
    f.Str? && f.value != []
  }

  /** `const { method = 'api' } = req.body`: the default replaces `undefined` only. */
  function MethodOrDefault(f: Field): Field {
    if f.Undefined? then Str("api") else f
  }

  const ValidMethods: seq<string> := ["api", "local", "modelv3"]

  predicate IsValidMethod(f: Field) {
    f.Str? && f.value in ValidMethods
  }

  const NoTextError := "No text provided for translation"
  const InvalidMethodError := "Invalid translation method. Use \"api\", \"local\", or \"modelv3\""
  const V2UnavailableError := "Local model (modelv2) not available. Please check if modelv2 is properly installed."
  const V3UnavailableError := "Model v3 (aiIndicTrans2) not available. Please check if modelv3 is properly installed."

  /** The responses of `translateEnglishToSanskrit`. */
  datatype Response =
    | BadRequest(error: string)
    | ServerError(error: string, message: string)
    | Success(originalText: string, result: TranslationResult, timestamp: string)

  function StatusCode(r: Response): int {
    match r
    case BadRequest(_) => 400
    case ServerError(_, _) => 500
    case Success(_, _, _) => 200
  }

  /** The early returns of `translateEnglishToSanskrit`, in order: `Some` is a 400 response. */
  function Rejection(text: Field, translationMethod: Field, v2Available: bool, v3Available: bool): (r: Option<Response>)
    ensures !Truthy(text) ==> r == Some(BadRequest(NoTextError))
    ensures Truthy(text) && !IsValidMethod(MethodOrDefault(translationMethod)) ==> r == Some(BadRequest(InvalidMethodError))
    ensures r.None? <==> Truthy(text) && IsValidMethod(MethodOrDefault(translationMethod))
                         && (MethodOrDefault(translationMethod) == Str("local") ==> v2Available)
                         && (MethodOrDefault(translationMethod) == Str("modelv3") ==> v3Available)
    ensures r.Some? ==> StatusCode(r.value) == 400
  {
    var m := MethodOrDefault(translationMethod);
    if !Truthy(text) then Some(BadRequest(NoTextError))
    else if !IsValidMethod(m) then Some(BadRequest(InvalidMethodError))
    else if m == Str("local") && !v2Available then Some(BadRequest(V2UnavailableError))
    else if m == Str("modelv3") && !v3Available then Some(BadRequest(V3UnavailableError))
    else None
  }

  /**
   * `translateEnglishToSanskrit`. `translate(text, method)` is the settled
   * outcome of `LocalModelService.translateText`, and `timestamp` the value
   * of `new Date().toISOString()`.
   */
  function HandleTranslate(text: Field, translationMethod: Field, v2Available: bool, v3Available: bool,
                           translate: (string, string) -> Outcome, timestamp: string): (r: Response)
    ensures Rejection(text, translationMethod, v2Available, v3Available).Some? ==>
      r == Rejection(text, translationMethod, v2Available, v3Available).value
    ensures r.Success? ==> Truthy(text) && r.originalText == text.value && r.timestamp == timestamp
                           && translate(text.value, MethodOrDefault(translationMethod).value) == Resolved(r.result)
    ensures r.ServerError? ==> r.error == "Translation failed"
                               && translate(text.value, MethodOrDefault(translationMethod).value) == Rejected(r.message)
    ensures Rejection(text, translationMethod, v2Available, v3Available).None? ==> !r.BadRequest?
  {
    match Rejection(text, translationMethod, v2Available, v3Available)
    case Some(bad) => bad
    case None =>
      match translate(text.value, MethodOrDefault(translationMethod).value)
      case Resolved(result) => Success(text.value, result, timestamp)
      case Rejected(message) => ServerError("Translation failed", message)
  }

  /** A rejected request never reaches the service: its response is the same whatever the service would do. */
  lemma RejectedRequestSkipsService(text: Field, translationMethod: Field, v2Available: bool, v3Available: bool,
                                    t1: (string, string) -> Outcome, t2: (string, string) -> Outcome, stamp: string)
    requires Rejection(text, translationMethod, v2Available, v3Available).Some?
    ensures HandleTranslate(text, translationMethod, v2Available, v3Available, t1, stamp)
         == HandleTranslate(text, translationMethod, v2Available, v3Available, t2, stamp)
  {
  }

  /** A successful response comes from a valid request whose model is available, and the service routes it accordingly. */
  lemma SuccessfulRequest(text: Field, translationMethod: Field, v2Available: bool, v3Available: bool,
                          translate: (string, string) -> Outcome, stamp: string)
    requires HandleTranslate(text, translationMethod, v2Available, v3Available, translate, stamp).Success?
    ensures var m := MethodOrDefault(translationMethod);
      && m.Str? && m.value in ValidMethods
      && (m.value == "local" ==> v2Available && LocalModel.Dispatch(Some(m.value)) == LocalModel.LocalV2)
      && (m.value == "modelv3" ==> v3Available && LocalModel.Dispatch(Some(m.value)) == LocalModel.ModelV3)
      && (m.value == "api" ==> LocalModel.Dispatch(Some(m.value)) == LocalModel.Api)
  {
  }

  /** One entry of the list `getTranslationMethods` returns. */
  datatype MethodInfo = MethodInfo(value: string, labelText: string, description: string, available: bool)

  /** What an availability check did inside its `try`: returned a value or threw. */
  datatype Check = Returned(result: bool) | Threw

  /** `isLocalModelAvailable` and `isModelV3Available` after their `try`/`catch`. */
  function Availability(c: Check): (b: bool)
    ensures b <==> c == Returned(true)
  {
    match c
    case Returned(result) => result
    case Threw => false
  }

  /** The `methods` array of `getTranslationMethods`. */
  function TranslationMethods(v2: Check, v3: Check): (ms: seq<MethodInfo>)
    ensures |ms| == 3 && ms[0].value == "api" && ms[1].value == "local" && ms[2].value == "modelv3"
    ensures ms[0].available
    ensures ms[1].available <==> v2 == Returned(true)
    ensures ms[2].available <==> v3 == Returned(true)
  {
    [MethodInfo("api", "AI API (Gemini)", "Uses AI API for translation", true),
     MethodInfo("local", "Local Model v2", "Uses locally trained mBART model (modelv2)", Availability(v2)),
     MethodInfo("modelv3", "Local Model v3 (aiIndicTrans2)", "Uses aiIndicTrans2 Hugging Face model (modelv3)", Availability(v3))]
  }

  /**
   * The list offers exactly the methods the translation endpoint accepts, and
   * an entry is marked available exactly when a request for it passes the
   * availability checks.
   */
  lemma {:induction false} MethodsMatchValidation(v2: bool, v3: bool, text: string)
    requires text != []
    ensures var ms := TranslationMethods(Returned(v2), Returned(v3));
      && (forall m :: IsValidMethod(Str(m)) <==> exists i :: 0 <= i < |ms| && ms[i].value == m)
      && (forall i :: 0 <= i < |ms| ==>
            (ms[i].available <==> Rejection(Str(text), Str(ms[i].value), v2, v3).None?))
  {
    var ms := TranslationMethods(Returned(v2), Returned(v3));
    forall m ensures IsValidMethod(Str(m)) <==> exists i :: 0 <= i < |ms| && ms[i].value == m {
      if IsValidMethod(Str(m)) {
        if m == "api" { assert ms[0].value == m; }
        else if m == "local" { assert ms[1].value == m; }
        else { assert ms[2].value == m; }
      }
    }
  }

  /** The frame `streamToStdout` writes for one chunk of text. */
  function ChunkFrame(chunk: string): string {
    "data: " + Quote(chunk) + "\n\n"
  }

  const DoneFrame := "data: [DONE]\n\n"

  /** The frames for `chunks`, one per chunk, in order. */
  function Frames(chunks: seq<string>): (fs: seq<string>)
    ensures |fs| == |chunks|
    ensures forall i :: 0 <= i < |chunks| ==> fs[i] == ChunkFrame(chunks[i])
  {
    seq(|chunks|, i requires 0 <= i < |chunks| => ChunkFrame(chunks[i]))
  }

  /** The position of the first line feed of `s`, or `|s|` when it has none. */
  function LineEnd(s: string): (k: nat)
    ensures k <= |s|
    ensures forall i :: 0 <= i < k ==> s[i] != '\n'
    ensures k < |s| ==> s[k] == '\n'
  {
    if s == [] || s[0] == '\n' then 0 else 1 + LineEnd(s[1..])
  }

  /**
   * How an event-stream client reads what `streamToStdout` wrote: frames of
   * the form `data: <payload>` ended by a blank line, each payload a JSON
   * string, up to the final `[DONE]` frame. `None` where the text is not of
   * that form.
   */
  function ReadStream(s: string): Option<seq<string>>
    decreases |s|
  {
    if |s| < 6 || s[..6] != "data: " then None
    else
      var rest := s[6..];
      var k := LineEnd(rest);
      if k + 2 > |rest| || rest[k + 1] != '\n' then None
      else
        var payload := rest[..k];
        var after := rest[k + 2..];
        if payload == "[DONE]" then (if after == [] then Some([]) else None)
        else match Unquote(payload)
          case None => None
          case Some(chunk) =>
            match ReadStream(after)
            case None => None
            case Some(more) => Some([chunk] + more)
  }

  lemma LineEndAfter(a: string, b: string)
    requires '\n' !in a
    ensures LineEnd(a + "\n" + b) == |a|
  {
    var s := a + "\n" + b;
    var k := LineEnd(s);
    assert s[|a|] == '\n';
    forall i | 0 <= i < |a|
      ensures s[i] != '\n'
    {
      assert s[i] == a[i] && a[i] in a;
    }
  }

  lemma ReadFrame(chunk: string, tail: string)
    ensures ReadStream(ChunkFrame(chunk) + tail) ==
      match ReadStream(tail) case None => None case Some(more) => Some([chunk] + more)
  {
    var q := Quote(chunk);
    var s := ChunkFrame(chunk) + tail;
    assert s[..6] == "data: ";
    var rest := s[6..];
    assert rest == q + "\n" + ("\n" + tail);
    QuoteHasNoNewline(chunk);
    LineEndAfter(q, "\n" + tail);
    assert rest[..|q|] == q;
    assert rest[|q| + 2..] == tail;
    assert q != "[DONE]" by { assert q[0] == '"'; }
    QuoteRoundTrip(chunk);
  }

  lemma ReadDone()
    ensures ReadStream(DoneFrame) == Some([])
  {
    var rest := DoneFrame[6..];
    assert rest == "[DONE]" + "\n" + "\n";
    LineEndAfter("[DONE]", "\n");
    assert rest[..6] == "[DONE]";
  }

  lemma FramesTail(chunks: seq<string>)
    requires chunks != []
    ensures var fs := Frames(chunks) + [DoneFrame];
      fs[1..] == Frames(chunks[1..]) + [DoneFrame] && Concat(fs) == ChunkFrame(chunks[0]) + Concat(fs[1..])
  {
  }

  /** A client reading the stream gets back every chunk, in order, and stops at `[DONE]`. */
  lemma {:induction false} StreamRoundTrip(chunks: seq<string>)
    ensures ReadStream(Concat(Frames(chunks) + [DoneFrame])) == Some(chunks)
    decreases |chunks|
  {
    var fs := Frames(chunks) + [DoneFrame];
    if chunks == [] {
      assert fs == [DoneFrame];
      assert Concat(fs) == DoneFrame;
      ReadDone();
    } else {
      StreamRoundTrip(chunks[1..]);
      FramesTail(chunks);
      var tail := Concat(fs[1..]);
      assert ReadStream(tail) == Some(chunks[1..]);
      ReadFrame(chunks[0], tail);
      assert Concat(fs) == ChunkFrame(chunks[0]) + tail;
      assert [chunks[0]] + chunks[1..] == chunks;
    }
  }

  /** The `res` of an event-stream response: what was written to it, in order, and whether it was ended. */
  class StreamResponse {
    var written: seq<string>
    var ended: bool

    constructor ()
      ensures written == [] && !ended
    {
      written := [];
      ended := false;
    }

    /** `res.write(s)`. */
    method Write(s: string)
      modifies this
      ensures written == old(written) + [s] && ended == old(ended)
    {
      written := written + [s];
    }

    /** `res.end()`. */
    method End()
      modifies this
      ensures written == old(written) && ended
    {
      ended := true;
    }
  }

  /**
   * `streamToStdout`. `chunks` are the `chunk.text()` values the stream
   * delivers, in order; `failure` is the message of the error the iteration
   * or the next `chunk.text()` throws after them, `None` for a stream that
   * ends normally. A throw leaves the function at once, without `[DONE]` and
   * without ending the response, and its returned promise rejects with the
   * error.
   */
  method StreamToStdout(chunks: seq<string>, failure: Option<string>, res: StreamResponse) returns (error: Option<string>)
    modifies res
    ensures error == failure
    ensures failure.None? ==> res.written == old(res.written) + Frames(chunks) + [DoneFrame] && res.ended
    ensures failure.Some? ==> res.written == old(res.written) + Frames(chunks) && res.ended == old(res.ended)
  {
    var i := 0;
    while i < |chunks|
      invariant 0 <= i <= |chunks|
      invariant res.written == old(res.written) + Frames(chunks[..i])
      invariant res.ended == old(res.ended)
    {
      res.Write(ChunkFrame(chunks[i]));
      assert Frames(chunks[..i + 1]) == Frames(chunks[..i]) + [ChunkFrame(chunks[i])];
      i := i + 1;
    }
    assert chunks[..i] == chunks;
    if failure.Some? {
      return failure;
    }
    res.Write(DoneFrame);
    res.End();
    error := None;
  }

  /**
   * What `streamToStdout` itself has written when the stream throws, the
   * frames without the final `[DONE]`, gives a client reading them no result.
   */
  lemma {:induction false} TruncatedStreamIsIncomplete(chunks: seq<string>)
    ensures ReadStream(Concat(Frames(chunks))) == None
    decreases |chunks|
  {
    if chunks != [] {
      var fs := Frames(chunks);
      assert fs[1..] == Frames(chunks[1..]);
      TruncatedStreamIsIncomplete(chunks[1..]);
      ReadFrame(chunks[0], Concat(fs[1..]));
    }
  }
}
