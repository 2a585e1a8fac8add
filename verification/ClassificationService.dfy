/**
 The pure classification of a ticket's opening request (app/classification/service.py, schemas.py,
 providers.py): the specification that the claim table has to agree with.
 */
module ClassificationService {
  import opened Base
  import opened ClassificationInput

  datatype Category = AccountAccess | Billing | TechnicalIssue | HowTo | FeatureRequest | Other

  datatype Outcome = Classified | InsufficientContext

  datatype ClassificationResult = ClassificationResult(outcome: Outcome, category: Option<Category>)

  const ABSTENTION: ClassificationResult := ClassificationResult(InsufficientContext, None)

  /** A category is given exactly when the request was classified. */
  predicate Legal(r: ClassificationResult) {
    r.outcome.Classified? <==> r.category.Some?
  }

  datatype Json = JNull | JString(text: string) | JObject(fields: seq<(string, Json)>) | JOther

  /** A raw provider reply: how long it is, and the JSON it holds, if any. */
  datatype Raw = Raw(length: nat, json: Option<Json>)

  datatype ProviderError = Timeout | Unavailable | RateLimited | Authentication | InvalidOutput | InputTooLarge

  const MAX_REPLY: nat := 4096

  function CategoryOf(s: string): Option<Category> {
    if s == "account_access" then Some(AccountAccess)
    else if s == "billing" then Some(Billing)
    else if s == "technical_issue" then Some(TechnicalIssue)
    else if s == "how_to" then Some(HowTo)
    else if s == "feature_request" then Some(FeatureRequest)
    else if s == "other" then Some(Other)
    else None
  }

  function OutcomeOf(s: string): Option<Outcome> {
    if s == "classified" then Some(Classified)
    else if s == "insufficient_context" then Some(InsufficientContext)
    else None
  }

  /** Strict schema: exactly two distinct keys, known values, and a legal pair. */
  function ReadResult(json: Json): Result<ClassificationResult, ProviderError> {
    if !json.JObject? || |json.fields| != 2 then Err(InvalidOutput)
    else
      var (k0, v0), (k1, v1) := json.fields[0], json.fields[1];
      if k0 == "outcome" && k1 == "category" then ReadPair(v0, v1)
      else if k0 == "category" && k1 == "outcome" then ReadPair(v1, v0)
      else Err(InvalidOutput)
  }

  function ReadPair(outcome: Json, category: Json): Result<ClassificationResult, ProviderError> {
    if !outcome.JString? || OutcomeOf(outcome.text).None? then Err(InvalidOutput)
    else if category.JNull? then Checked(ClassificationResult(OutcomeOf(outcome.text).value, None))
    else if !category.JString? || CategoryOf(category.text).None? then Err(InvalidOutput)
    else Checked(ClassificationResult(OutcomeOf(outcome.text).value, CategoryOf(category.text)))
  }

  function Checked(r: ClassificationResult): Result<ClassificationResult, ProviderError> {
    if Legal(r) then Ok(r) else Err(InvalidOutput)
  }

  function ParseProviderOutput(raw: Raw): Result<ClassificationResult, ProviderError> {
    if raw.length > MAX_REPLY || raw.json.None? then Err(InvalidOutput) else ReadResult(raw.json.value)
  }

  lemma ParsedIsLegal(raw: Raw)
    ensures ParseProviderOutput(raw).Ok? ==> Legal(ParseProviderOutput(raw).value)
  {
  }

  function CategoryName(c: Category): string {
    match c
    case AccountAccess => "account_access"
    case Billing => "billing"
    case TechnicalIssue => "technical_issue"
    case HowTo => "how_to"
    case FeatureRequest => "feature_request"
    case Other => "other"
  }

  function OutcomeName(o: Outcome): string {
    if o.Classified? then "classified" else "insufficient_context"
  }

  lemma NamesRoundTrip(c: Category, o: Outcome, s: string)
    ensures CategoryOf(CategoryName(c)) == Some(c) && OutcomeOf(OutcomeName(o)) == Some(o)
    ensures CategoryOf(s) == Some(c) <==> s == CategoryName(c)
    ensures OutcomeOf(s) == Some(o) <==> s == OutcomeName(o)
  {
    assert "technical_issue"[0] != "feature_request"[0];
    assert |"account_access"| == 14 && |"billing"| == 7 && |"how_to"| == 6 && |"other"| == 5;
    assert |"technical_issue"| == 15 && |"feature_request"| == 15;
    assert |"classified"| == 10 && |"insufficient_context"| == 20;
  }

  function OutcomeField(r: ClassificationResult): (string, Json) {
    ("outcome", JString(OutcomeName(r.outcome)))
  }

  function CategoryField(r: ClassificationResult): (string, Json) {
    ("category", if r.category.Some? then JString(CategoryName(r.category.value)) else JNull)
  }

  /** The JSON objects that stand for a result: its two fields, in either order. */
  predicate Denotes(json: Json, r: ClassificationResult) {
    json == JObject([OutcomeField(r), CategoryField(r)]) || json == JObject([CategoryField(r), OutcomeField(r)])
  }

  lemma ReadPairMeans(outcome: Json, category: Json, r: ClassificationResult)
    ensures ReadPair(outcome, category) == Ok(r) <==>
            Legal(r) && outcome == OutcomeField(r).1 && category == CategoryField(r).1
    ensures ReadPair(outcome, category).Err? ==> ReadPair(outcome, category).error == InvalidOutput
  {
    if outcome.JString? {
      NamesRoundTrip(Other, r.outcome, outcome.text);
    }
    if category.JString? && r.category.Some? {
      NamesRoundTrip(r.category.value, r.outcome, category.text);
    }
  }

  /** A reply is accepted as a result exactly when it is short enough and says that legal result and nothing else. */
  lemma ParseMeans(raw: Raw, r: ClassificationResult)
    ensures ParseProviderOutput(raw) == Ok(r) <==>
            && raw.length <= 4096 && raw.json.Some? && Denotes(raw.json.value, r)
            && (r.outcome == Classified <==> r.category != None)
    ensures ParseProviderOutput(raw).Err? ==> ParseProviderOutput(raw).error == InvalidOutput
  {
    assert |"outcome"| == 7 && |"category"| == 8;
    if raw.json.Some? && raw.json.value.JObject? && |raw.json.value.fields| == 2 {
      var fields := raw.json.value.fields;
      ReadPairMeans(fields[0].1, fields[1].1, r);
      ReadPairMeans(fields[1].1, fields[0].1, r);
      assert fields == [fields[0], fields[1]];
    }
  }

  /** The scripted provider answers every payload alike. */
  datatype Script = Reply(raw: Raw) | Raises(error: ProviderError)

  function Ask(script: Script): Result<ClassificationResult, ProviderError> {
    match script
    case Reply(raw) => ParseProviderOutput(raw)
    case Raises(error) => Err(error)
  }

  /** What a given input and script come to. */
  function Evaluate(f: Fingerprint, script: Script): Result<ClassificationResult, ProviderError> {
    if Insufficient(f) then Ok(ABSTENTION) else Ask(script)
  }

  datatype ClassifyError = BadInput(input: InputError) | Provider(error: ProviderError)

  function ClassifyOpeningRequest(subject: string, messages: seq<TicketMessage>, script: Script)
    : Result<ClassificationResult, ClassifyError>
  {
    match PrepareInput(subject, messages)
    case Err(e) => Err(BadInput(e))
    case Ok(prepared) =>
      if prepared.insufficientContext then Ok(ABSTENTION)
      else
        match Ask(script)
        case Ok(r) => Ok(r)
        case Err(e) => Err(Provider(e))
  }

  /** The classification, by cases of the prepared input and the script. */
  lemma ClassifyMeans(subject: string, messages: seq<TicketMessage>, script: Script)
    ensures var prepared, answer := PrepareInput(subject, messages), ClassifyOpeningRequest(subject, messages, script);
            && (prepared.Err? ==> answer == Err(BadInput(prepared.error)))
            && (prepared.Ok? && prepared.value.insufficientContext ==>
                  answer == Ok(ClassificationResult(InsufficientContext, None)))
            && (prepared.Ok? && !prepared.value.insufficientContext ==>
                  && (script.Raises? ==> answer == Err(Provider(script.error)))
                  && (script.Reply? ==>
                        && (answer.Err? ==> answer == Err(Provider(InvalidOutput)))
                        && (forall r :: answer == Ok(r) <==>
                              && script.raw.length <= 4096 && Legal(r)
                              && script.raw.json.Some? && Denotes(script.raw.json.value, r))))
  {
    if script.Reply? {
      forall r ensures ParseProviderOutput(script.raw) == Ok(r) <==>
                       script.raw.length <= 4096 && Legal(r) && script.raw.json.Some? && Denotes(script.raw.json.value, r) {
        ParseMeans(script.raw, r);
      }
      ParseMeans(script.raw, ABSTENTION);
    }
  }

  lemma ClassifyIsEvaluate(subject: string, messages: seq<TicketMessage>, script: Script)
    requires PrepareInput(subject, messages).Ok?
    ensures var direct := ClassifyOpeningRequest(subject, messages, script);
            var keyed := Evaluate(PrepareInput(subject, messages).value.fingerprint, script);
            direct.Ok? == keyed.Ok? && (direct.Ok? ==> direct.value == keyed.value && Legal(direct.value))
  {
    PreparedFromFingerprint(subject, messages);
    if script.Reply? {
      ParsedIsLegal(script.raw);
    }
  }
}
