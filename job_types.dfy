/** Values exchanged by the wanx image-edit task: its inputs and outputs, the
    JSON request body, the three remote responses, the error kinds and the
    observable events (progress reports and HTTP requests) of one run. */
module JobTypes {

  /** Model used when the caller supplies none (index.ts line 71). */
  const DefaultModel: string := "wan2.6-image"
  /** Output count used when the caller supplies none or 0 (line 74). */
  const DefaultCount: int := 4
  /** Longest accepted prompt, in characters (line 59). */
  const MaxPromptLength: nat := 2000
  /** Largest accepted number of input image URLs (line 65). */
  const MaxImageURLs: nat := 4
  /** Cap on the number of state queries (line 118). */
  const MaxAttempts: nat := 300

  /** A JavaScript input slot: absent (`undefined`), `null`, or a value. */
  datatype Opt<T> = Undefined | Null | Given(value: T)

  datatype Option<T> = None | Some(value: T)

  /** JavaScript truthiness of an optional string: present and non-empty. */
  predicate TruthyString(o: Opt<string>)
  {
    o.Given? && o.value != ""
  }

  /** JavaScript truthiness of an optional integer: present and non-zero. */
  predicate TruthyNumber(o: Opt<int>)
  {
    o.Given? && o.value != 0
  }

  /** JavaScript truthiness of an optional boolean: present and `true`. */
  predicate TruthyBool(o: Opt<bool>)
  {
    o.Given? && o.value
  }

  /** The task's typed inputs (index.ts lines 4-14). */
  datatype Inputs = Inputs(
    prompt: string,
    imageURLs: seq<string>,
    model: Opt<string>,
    negativePrompt: Opt<string>,
    size: Opt<string>,
    n: Opt<int>,
    promptExtend: Opt<bool>,
    watermark: Opt<bool>,
    seed: Opt<int>)

  /** The task's outputs (lines 15-18). */
  datatype Outputs = Outputs(images: seq<string>, taskId: string)

  /** The JSON values that can appear in the submitted request body. */
  datatype JsonValue =
    | JNull
    | JBool(b: bool)
    | JNumber(num: int)
    | JString(s: string)
    | JStrings(items: seq<string>)

  /** The keys a request body can hold. */
  datatype Key = Model | Prompt | ImageURLs | N | PromptExtend | Watermark | NegativePrompt | Size | Seed

  /** The JSON property name of each key. */
  function KeyName(k: Key): string
  {
    match k
    case Model => "model"
    case Prompt => "prompt"
    case ImageURLs => "imageURLs"
    case N => "n"
    case PromptExtend => "promptExtend"
    case Watermark => "watermark"
    case NegativePrompt => "negativePrompt"
    case Size => "size"
    case Seed => "seed"
  }

  /** The request body: a record from key to JSON value. */
  type Body = map<Key, JsonValue>

  /** Answer of `POST /submit`: the HTTP `ok` flag and the parsed payload. */
  datatype SubmitResponse = SubmitResponse(ok: bool, success: bool, sessionID: Option<string>)

  /** Answer of one `GET /state/{sessionID}`. */
  datatype StateResponse = StateResponse(ok: bool, success: bool, state: string, progress: int)

  /** The `data` object of a result payload. */
  datatype ResultData = ResultData(taskId: string, images: seq<string>)

  /** Answer of `GET /result/{sessionID}`; `data` is `None` when missing or null. */
  datatype ResultResponse = ResultResponse(ok: bool, success: bool, data: Option<ResultData>)

  /** One kind per `throw` in the task, in source order. */
  datatype ErrorKind =
    | PromptRequired        // line 57
    | PromptTooLong         // line 60
    | ImageURLsRequired     // line 63
    | TooManyImageURLs      // line 66
    | SubmitHttpFailed      // line 102
    | NoSessionID           // line 109
    | StateHttpFailed       // line 133
    | StateCheckFailed      // line 141
    | TaskFailed            // line 153
    | Timeout               // line 158
    | ResultHttpFailed      // line 173
    | NoResultData          // line 181

  predicate IsValidationError(e: ErrorKind)
  {
    e.PromptRequired? || e.PromptTooLong? || e.ImageURLsRequired? || e.TooManyImageURLs?
  }

  predicate IsSubmissionError(e: ErrorKind)
  {
    e.SubmitHttpFailed? || e.NoSessionID?
  }

  predicate IsStateQueryError(e: ErrorKind)
  {
    e.StateHttpFailed? || e.StateCheckFailed?
  }

  predicate IsResultFetchError(e: ErrorKind)
  {
    e.ResultHttpFailed? || e.NoResultData?
  }

  /** What the task returns: its outputs, or the error it throws. */
  datatype Outcome = Success(outputs: Outputs) | Failure(error: ErrorKind)

  /** An observable effect of the task, in the order it happens. */
  datatype Event =
    | Report(percent: int)              // context.reportProgress
    | SubmitRequest(body: Body)         // POST /submit
    | StateRequest(sessionID: string)   // GET /state/{sessionID}
    | ResultRequest(sessionID: string)  // GET /result/{sessionID}

  /** The progress values reported, in order. */
  function Reports(trace: seq<Event>): (r: seq<int>)
    ensures |r| <= |trace|
  {
    if trace == [] then []
    else (if trace[0].Report? then [trace[0].percent] else []) + Reports(trace[1..])
  }

  /** The number of state queries issued. */
  function StateQueries(trace: seq<Event>): (k: nat)
    ensures k <= |trace|
  {
    if trace == [] then 0
    else (if trace[0].StateRequest? then 1 else 0) + StateQueries(trace[1..])
  }

  lemma {:induction false} ReportsAppend(a: seq<Event>, b: seq<Event>)
    ensures Reports(a + b) == Reports(a) + Reports(b)
  {
    if a == [] {
      assert a + b == b;
    } else {
      var head := if a[0].Report? then [a[0].percent] else [];
      assert (a + b)[0] == a[0];
      assert (a + b)[1..] == a[1..] + b;
      calc {
        Reports(a + b);
        head + Reports(a[1..] + b);
        { ReportsAppend(a[1..], b); }
        head + (Reports(a[1..]) + Reports(b));
        (head + Reports(a[1..])) + Reports(b);
      }
    }
  }

  lemma {:induction false} StateQueriesAppend(a: seq<Event>, b: seq<Event>)
    ensures StateQueries(a + b) == StateQueries(a) + StateQueries(b)
  {
    if a == [] {
      assert a + b == b;
    } else {
      assert (a + b)[1..] == a[1..] + b;
      StateQueriesAppend(a[1..], b);
    }
  }

  lemma {:induction false} NoStateQueries(trace: seq<Event>)
    requires forall i :: 0 <= i < |trace| ==> !trace[i].StateRequest?
    ensures StateQueries(trace) == 0
  {
    if trace != [] {
      NoStateQueries(trace[1..]);
    }
  }
}
