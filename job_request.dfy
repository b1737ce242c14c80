/** Input validation and construction of the submitted request body
    (index.ts lines 55-87). */
module JobRequest {
  import opened JobTypes

  /** The inputs the task accepts: a prompt of 1 to 2000 characters and
      1 to 4 image URLs. */
  predicate WellFormed(p: Inputs)
  {
    1 <= |p.prompt| <= MaxPromptLength && 1 <= |p.imageURLs| <= MaxImageURLs
  }

  /** The four checks of lines 56-67, in order; `None` when all pass. */
  function Validate(p: Inputs): (e: Option<ErrorKind>)
    ensures e.None? <==> WellFormed(p)
    ensures e.Some? ==> IsValidationError(e.value)
    // the prompt is checked before the image URLs
    ensures |p.prompt| == 0 <==> e == Some(PromptRequired)
    ensures |p.prompt| > MaxPromptLength <==> e == Some(PromptTooLong)
    ensures e == Some(ImageURLsRequired) <==> 1 <= |p.prompt| <= MaxPromptLength && |p.imageURLs| == 0
    ensures e == Some(TooManyImageURLs) <==> 1 <= |p.prompt| <= MaxPromptLength && |p.imageURLs| > MaxImageURLs
  {
    if |p.prompt| == 0 then Some(PromptRequired)
    else if |p.prompt| > MaxPromptLength then Some(PromptTooLong)
    else if |p.imageURLs| == 0 then Some(ImageURLsRequired)
    else if |p.imageURLs| > MaxImageURLs then Some(TooManyImageURLs)
    else None
  }

  /** The keys every request body has. */
  const RequiredKeys: set<Key> := {Model, Prompt, ImageURLs, N, PromptExtend, Watermark}
  /** The keys present only when their input is truthy. */
  const OptionalKeys: set<Key> := {NegativePrompt, Size, Seed}

  /** The value sent for `promptExtend`: `true` only when the input is absent. */
  function PromptExtendValue(o: Opt<bool>): (v: JsonValue)
    ensures v == JBool(true) <==> o.Undefined? || o == Given(true)
    ensures v == JNull <==> o.Null?
    ensures o.Given? ==> v == JBool(o.value)
  {
    match o
    case Undefined => JBool(true)
    case Null => JNull
    case Given(b) => JBool(b)
  }

  /** The value the body holds under key `k`, or `None` when `k` is left out. */
  function Entry(p: Inputs, k: Key): (v: Option<JsonValue>)
    ensures k in RequiredKeys || k in OptionalKeys
    ensures v.None? ==> k in OptionalKeys
  {
    match k
    case Model => Some(JString(if TruthyString(p.model) then p.model.value else DefaultModel))
    case Prompt => Some(JString(p.prompt))
    case ImageURLs => Some(JStrings(p.imageURLs))
    case N => Some(JNumber(if TruthyNumber(p.n) then p.n.value else DefaultCount))
    case PromptExtend => Some(PromptExtendValue(p.promptExtend))
    case Watermark => Some(JBool(TruthyBool(p.watermark)))
    case NegativePrompt => if TruthyString(p.negativePrompt) then Some(JString(p.negativePrompt.value)) else None
    case Size => if TruthyString(p.size) then Some(JString(p.size.value)) else None
    case Seed => if TruthyNumber(p.seed) then Some(JNumber(p.seed.value)) else None
  }

  /** The request body the task submits for inputs `p`. */
  function RequestBody(p: Inputs): (body: Body)
    ensures RequiredKeys <= body.Keys <= RequiredKeys + OptionalKeys
    // prompt and image URLs are copied verbatim
    ensures body[Prompt] == JString(p.prompt)
    ensures body[ImageURLs] == JStrings(p.imageURLs)
    // defaults for falsy inputs
    ensures body[Model] == JString(if TruthyString(p.model) then p.model.value else DefaultModel)
    ensures body[N] == JNumber(if TruthyNumber(p.n) then p.n.value else DefaultCount)
    ensures body[PromptExtend] == PromptExtendValue(p.promptExtend)
    ensures body[Watermark] == JBool(TruthyBool(p.watermark))
    // optional keys are present exactly when their input is truthy
    ensures NegativePrompt in body <==> TruthyString(p.negativePrompt)
    ensures NegativePrompt in body ==> body[NegativePrompt] == JString(p.negativePrompt.value)
    ensures Size in body <==> TruthyString(p.size)
    ensures Size in body ==> body[Size] == JString(p.size.value)
    ensures Seed in body <==> TruthyNumber(p.seed)
    ensures Seed in body ==> body[Seed] == JNumber(p.seed.value)
  {
    map k | k in RequiredKeys + OptionalKeys && Entry(p, k).Some? :: Entry(p, k).value
  }

  /** `body` holds under key `k` what the task puts there for inputs `p`. */
  predicate AgreesAt(p: Inputs, body: Body, k: Key)
  {
    (k in body <==> Entry(p, k).Some?) && (k in body ==> body[k] == Entry(p, k).value)
  }

  /** A body is determined by its entries: one that agrees with `Entry` on
      every key is the request body. */
  lemma RequestBodyByEntries(p: Inputs, body: Body)
    requires forall k :: AgreesAt(p, body, k)
    ensures body == RequestBody(p)
  {
    var r := RequestBody(p);
    forall k ensures (k in body <==> k in r) && (k in body ==> body[k] == r[k]) {
      assert AgreesAt(p, body, k);
    }
    assert body.Keys == r.Keys;
  }

  /** Lines 70-87: the body is built as a record, then the optional keys are
      inserted one by one when their input is truthy. */
  method BuildRequestBody(p: Inputs) returns (body: Body)
    ensures body == RequestBody(p)
  {
    body := map[
      Model := JString(if TruthyString(p.model) then p.model.value else DefaultModel),
      Prompt := JString(p.prompt),
      ImageURLs := JStrings(p.imageURLs),
      N := JNumber(if TruthyNumber(p.n) then p.n.value else DefaultCount),
      PromptExtend := if p.promptExtend.Undefined? then JBool(true)
                      else if p.promptExtend.Null? then JNull
                      else JBool(p.promptExtend.value),
      Watermark := JBool(TruthyBool(p.watermark))];
    if TruthyString(p.negativePrompt) {
      body := body[NegativePrompt := JString(p.negativePrompt.value)];
    }
    if TruthyString(p.size) {
      body := body[Size := JString(p.size.value)];
    }
    if TruthyNumber(p.seed) {
      body := body[Seed := JNumber(p.seed.value)];
    }
    // each key is settled by the one step that may write it
    forall k ensures AgreesAt(p, body, k) {
      match k
      case NegativePrompt =>
      case Size =>
      case Seed =>
      case _ =>
    }
    RequestBodyByEntries(p, body);
  }

  /** A seed of 0 is dropped from the body, whatever else is supplied, and
      changing only the seed between 0 and absent changes nothing. */
  lemma ZeroSeedDropped(p: Inputs)
    requires p.seed == Given(0)
    ensures Seed !in RequestBody(p)
    ensures RequestBody(p) == RequestBody(p.(seed := Undefined))
    ensures RequestBody(p) == RequestBody(p.(seed := Null))
  {
  }

  /** Setting a falsy seed to a non-zero value adds exactly the `seed` key
      and leaves every other key as it was. */
  lemma SeedOnlyAddsSeed(p: Inputs, s: int)
    requires !TruthyNumber(p.seed) && s != 0
    ensures RequestBody(p.(seed := Given(s))) == RequestBody(p)[Seed := JNumber(s)]
  {
  }
}
