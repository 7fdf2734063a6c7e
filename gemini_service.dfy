/** The client of the hosted model (services/geminiService.ts): the request
    each generator sends, the chunk pass-through of the streaming single-plan
    generator, and the one-shot 30-day generator. The network call itself is a
    function-typed parameter: it maps a request to what the service answers. */
module GeminiService {
  import opened Wrappers
  import opened Prompts
  import opened Schemas
  import opened PlanTypes

  const ModelName: string := "gemini-2.5-flash"
  const JsonMimeType: string := "application/json"

  const ContentPlanFailure: string :=
    "Failed to generate content plan. The model may have generated an invalid response."
  const ThirtyDayFailure: string := "Failed to generate 30-day content plan."

  /** Which of the schema constants a request names. */
  datatype SchemaId = SinglePlan | ThirtyDayPlan

  function SchemaFor(id: SchemaId): Schema {
    match id
    case SinglePlan => SinglePlanSchema
    case ThirtyDayPlan => ThirtyDayPlanSchema
  }

  /** What is sent to the model: `model`, `contents` and the `config` fields;
      the response schema is named by the constant it is. */
  datatype Request = Request(
    model: string, contents: string, responseMimeType: string,
    responseSchema: SchemaId, temperature: real)

  /** The streaming request of `generateContentPlanStream`. */
  function SinglePlanRequest(topic: string, socialMediaLink: string, style: ContentStyle): Request {
    Request(ModelName, SinglePlanPrompt(topic, socialMediaLink, style), JsonMimeType, SinglePlan, 0.8)
  }

  /** The one-shot request of `generateThirtyDayPlan`. */
  function ThirtyDayRequest(topic: string): Request {
    Request(ModelName, ThirtyDayPrompt(topic), JsonMimeType, ThirtyDayPlan, 0.7)
  }

  /** Each request names the schema of the plan it asks for, with the
      model, the JSON MIME type and the temperature of its call site. */
  lemma RequestsNameTheirSchemas(topic: string, socialMediaLink: string, style: ContentStyle)
    ensures var r := SinglePlanRequest(topic, socialMediaLink, style);
      SchemaFor(r.responseSchema) == SinglePlanSchema && r.model == ModelName
      && r.responseMimeType == JsonMimeType && r.temperature == 0.8
    ensures var r := ThirtyDayRequest(topic);
      SchemaFor(r.responseSchema) == ThirtyDayPlanSchema && r.model == ModelName
      && r.responseMimeType == JsonMimeType && r.temperature == 0.7
  {
  }

  /** Everything the streaming call produces: the text of each chunk in
      arrival order, and whether the call (opening the stream or reading a
      later chunk) ended by throwing instead of finishing. */
  datatype Upstream = Upstream(texts: seq<string>, broken: bool)

  /** Everything `generateContentPlanStream` produces for its consumer: the
      chunks it yielded and, when it ended by throwing, the thrown message. */
  datatype Delivery = Delivery(chunks: seq<string>, failure: Option<string>)

  /** The async generator: yields every upstream chunk text as it arrives and
      turns any failure into the fixed content-plan error. */
  method GenerateContentPlanStream(topic: string, socialMediaLink: string, style: ContentStyle,
                                   stream: Request -> Upstream)
    returns (d: Delivery)
    ensures var u := stream(SinglePlanRequest(topic, socialMediaLink, style));
      d.chunks == u.texts
      && (d.failure.Some? <==> u.broken)
      && (d.failure.Some? ==> d.failure.value == ContentPlanFailure)
  {
    d := Relay(stream(SinglePlanRequest(topic, socialMediaLink, style)));
  }

  /** The `for await` loop of the generator with its `catch`. */
  method Relay(u: Upstream) returns (d: Delivery)
    ensures d.chunks == u.texts
    ensures d.failure.Some? <==> u.broken
    ensures d.failure.Some? ==> d.failure.value == ContentPlanFailure
  {
    var yielded: seq<string> := [];
    var i := 0;
    while i < |u.texts|
      invariant 0 <= i <= |u.texts|
      invariant yielded == u.texts[..i]
    {
      yielded := yielded + [u.texts[i]];
      i := i + 1;
    }
    assert u.texts[..i] == u.texts;
    d := Delivery(yielded, if u.broken then Some(ContentPlanFailure) else None);
  }

  /** What the one-shot call answers: the response text, or a thrown error. */
  datatype Reply = Reply(text: string) | CallFailed

  /** `generateThirtyDayPlan`: the whole response text goes to `parse`
      (`JSON.parse`, a partial function), with no search for braces; a failed
      call or a failed parse is reported as the fixed 30-day error. */
  function GenerateThirtyDayPlan(topic: string, call: Request -> Reply,
                                 parse: string -> Result<ThirtyDayPlanData, string>)
    : (r: Result<ThirtyDayPlanData, string>)
    ensures var reply := call(ThirtyDayRequest(topic));
      (r.Success? <==> reply.Reply? && parse(reply.text).Success?)
      && (r.Success? ==> r == parse(reply.text))
      && (r.Failure? ==> r.error == ThirtyDayFailure)
  {
    match call(ThirtyDayRequest(topic))
    case CallFailed => Failure(ThirtyDayFailure)
    case Reply(text) =>
      match parse(text)
      case Success(plan) => Success(plan)
      case Failure(_) => Failure(ThirtyDayFailure)
  }

  /** Different topics give different 30-day requests. */
  lemma ThirtyDayRequestDeterminesTopic(t1: string, t2: string)
    requires ThirtyDayRequest(t1) == ThirtyDayRequest(t2)
    ensures t1 == t2
  {
    ThirtyDayPromptDeterminesTopic(t1, t2);
  }
}
