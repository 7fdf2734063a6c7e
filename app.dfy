/** The application component of App.tsx: the form and result state, the
    single-plan handler `handleGeneratePlan` split into the events it reacts
    to (start, timer tick, chunk arrival, stream end, stream failure, the
    delayed settle), and the 30-day handler `handleGenerateThirtyDayPlan`.
    `JSON.parse` is a parameter: a partial function from text to a value or
    the message of the error it throws. */
module App {
  import opened Wrappers
  import opened Text
  import opened JsonSpan
  import opened Progress
  import opened Prompts
  import opened PlanTypes
  import opened GeminiService

  const EmptyResponseMessage: string := "The model returned an empty response."

  /** The final `contentPlan` and `error` of a generation. */
  datatype Outcome = Outcome(plan: Option<PartialContentPlan>, error: Option<string>)

  /** What the handler does once the stream has ended normally, from the
      accumulated text and whether any chunk arrived: extract the outermost
      braces and parse them, or report why not. A thrown error clears the plan
      and records its message. */
  function Conclude(accumulated: string, anyChunk: bool,
                    parse: string -> Result<PartialContentPlan, string>): (r: Outcome)
    ensures r.plan.None? || r.error.None?
    ensures r.plan.Some? ==> accumulated != "" && ExtractJsonSpan(accumulated).Success?
                              && parse(ExtractJsonSpan(accumulated).value) == Success(r.plan.value)
    ensures r.error.None? && r.plan.None? <==> accumulated == "" && !anyChunk
  {
    if accumulated != "" then
      match ExtractJsonSpan(accumulated)
      case Failure(message) => Outcome(None, Some(message))
      case Success(jsonString) =>
        match parse(jsonString)
        case Success(plan) => Outcome(Some(plan), None)
        case Failure(message) => Outcome(None, Some(message))
    else if anyChunk then Outcome(None, Some(EmptyResponseMessage))
    else Outcome(None, None)
  }

  /** A stream with no chunks at all ends with neither a plan nor an error. */
  lemma ConcludeWithoutChunks(parse: string -> Result<PartialContentPlan, string>)
    ensures Conclude(Concat([]), false, parse) == Outcome(None, None)
  {
  }

  /** Chunks that all carried empty text give the empty-response error. */
  lemma ConcludeWithEmptyChunks(chunks: seq<string>, parse: string -> Result<PartialContentPlan, string>)
    requires chunks != [] && forall i :: 0 <= i < |chunks| ==> chunks[i] == ""
    ensures Conclude(Concat(chunks), chunks != [], parse) == Outcome(None, Some(EmptyResponseMessage))
  {
  }

  /** Non-empty text without a `{` followed by a `}` gives the
      no-JSON-object error and no parse is attempted. */
  lemma ConcludeWithoutBraces(accumulated: string, anyChunk: bool,
                              parse: string -> Result<PartialContentPlan, string>)
    requires accumulated != "" && !HasBracePair(accumulated)
    ensures Conclude(accumulated, anyChunk, parse) == Outcome(None, Some(NoJsonObjectMessage))
  {
    ExtractFailsIffNoBracePair(accumulated);
  }

  /** An extracted object that `JSON.parse` rejects gives the parser's own
      error message and no plan. */
  lemma ConcludeWithUnparsableObject(accumulated: string, anyChunk: bool,
                                     parse: string -> Result<PartialContentPlan, string>)
    requires accumulated != "" && ExtractJsonSpan(accumulated).Success?
    requires parse(ExtractJsonSpan(accumulated).value).Failure?
    ensures Conclude(accumulated, anyChunk, parse)
      == Outcome(None, Some(parse(ExtractJsonSpan(accumulated).value).error))
  {
  }

  /** Prose around the object (without braces of its own) is ignored: the
      plan is what `parse` makes of the object alone. */
  lemma ConcludeIgnoresProse(prefix: string, obj: string, suffix: string, plan: PartialContentPlan,
                             parse: string -> Result<PartialContentPlan, string>)
    requires '{' !in prefix && '}' !in suffix
    requires |obj| >= 2 && obj[0] == '{' && obj[|obj| - 1] == '}'
    requires parse(obj) == Success(plan)
    ensures Conclude(prefix + obj + suffix, true, parse) == Outcome(Some(plan), None)
  {
    ExtractIgnoresSurroundingProse(prefix, obj, suffix);
  }

  /** The main handler rejects a blank topic (after trimming), the 30-day
      handler only the empty one: the two guards disagree, in either
      direction, exactly on non-empty topics made of whitespace alone. */
  lemma GuardsDisagreeOnWhitespaceTopics(topic: string)
    ensures ((Trim(topic) == "") != (topic == "")) <==> (topic != "" && AllSpace(topic))
  {
    TrimEmptyIffAllSpace(topic);
  }

  /** Where `handleGeneratePlan` is: not running, inside its `try` waiting
      for chunks, or past its `finally` waiting for the delayed settle. */
  datatype Phase = Idle | Streaming | Settling

  class Planner {
    var topic: string
    var socialMediaLink: string
    var contentStyle: ContentStyle
    var contentPlan: Option<PartialContentPlan>
    var isLoading: bool
    var error: Option<string>
    var generationProgress: int
    var thirtyDayPlan: ThirtyDayPlan?
    var isThirtyDayPlanLoading: bool
    var thirtyDayPlanError: Option<string>
    var isModalOpen: bool
    /** Whether the progress interval is set. */
    var timerActive: bool
    var phase: Phase
    /** The handler's locals `accumulatedJson` and `isFirstChunk`. */
    var accumulatedJson: string
    var isFirstChunk: bool
    /** The chunks received so far and the timer ticks so far, in this run. */
    ghost var chunks: seq<string>
    ghost var ticks: nat

    ghost predicate Valid()
      reads this
    {
      (isLoading <==> phase != Idle)
      && (phase != Streaming ==> !timerActive)
      && (phase == Idle ==> generationProgress == 0)
      && 0 <= generationProgress <= 100 && generationProgress % Step == 0
      && accumulatedJson == Concat(chunks)
      && (isFirstChunk <==> chunks == [])
      && (phase == Streaming ==>
            generationProgress == ProgressAfter(ticks) && (timerActive <==> ticks < 20)
            && error == None
            && contentPlan == (if chunks == [] then None else Some(EmptyPlan)))
    }

    /** The initial React state. */
    constructor ()
      ensures Valid()
      ensures topic == "" && socialMediaLink == "" && contentStyle == WithFace
      ensures contentPlan == None && !isLoading && error == None && generationProgress == 0
      ensures thirtyDayPlan == null && !isThirtyDayPlanLoading && thirtyDayPlanError == None
      ensures !isModalOpen && phase == Idle
    {
      topic, socialMediaLink, contentStyle := "", "", WithFace;
      contentPlan, isLoading, error, generationProgress := None, false, None, 0;
      thirtyDayPlan, isThirtyDayPlanLoading, thirtyDayPlanError, isModalOpen := null, false, None, false;
      timerActive, phase := false, Idle;
      accumulatedJson, isFirstChunk := "", true;
      chunks, ticks := [], 0;
    }

    /** The form inputs. */
    method EditForm(newTopic: string, newLink: string, newStyle: ContentStyle)
      requires Valid()
      modifies this`topic, this`socialMediaLink, this`contentStyle
      ensures Valid()
      ensures topic == newTopic && socialMediaLink == newLink && contentStyle == newStyle
    {
      topic, socialMediaLink, contentStyle := newTopic, newLink, newStyle;
    }

    /** Entry to `handleGeneratePlan`: the guard, then the resets and the
      start of the progress timer. */
    method StartGeneration() returns (started: bool)
      requires Valid()
      modifies this`isLoading, this`error, this`contentPlan, this`thirtyDayPlan,
        this`thirtyDayPlanError, this`generationProgress, this`timerActive, this`phase,
        this`accumulatedJson, this`isFirstChunk, this`chunks, this`ticks
      ensures Valid()
      ensures started <==> Trim(old(topic)) != "" && !old(isLoading)
      ensures !started ==> unchanged(this)
      ensures started ==>
        isLoading && error == None && contentPlan == None && thirtyDayPlan == null
        && thirtyDayPlanError == None && generationProgress == 0 && timerActive
        && phase == Streaming && accumulatedJson == "" && chunks == []
      ensures topic == old(topic) && socialMediaLink == old(socialMediaLink)
        && contentStyle == old(contentStyle) && isThirtyDayPlanLoading == old(isThirtyDayPlanLoading)
        && isModalOpen == old(isModalOpen)
    {
      if Trim(topic) == "" || isLoading {
        return false;
      }
      Reset();
      started := true;
    }

    /** The resets of `handleGeneratePlan` after its guard, and the start of
      the progress timer. */
    method Reset()
      modifies this`isLoading, this`error, this`contentPlan, this`thirtyDayPlan,
        this`thirtyDayPlanError, this`generationProgress, this`timerActive, this`phase,
        this`accumulatedJson, this`isFirstChunk, this`chunks, this`ticks
      ensures Valid()
      ensures isLoading && error == None && contentPlan == None && thirtyDayPlan == null
        && thirtyDayPlanError == None && generationProgress == 0 && timerActive
        && phase == Streaming && accumulatedJson == "" && chunks == []
    {
      isLoading, error, contentPlan := true, None, None;
      thirtyDayPlan, thirtyDayPlanError, generationProgress := null, None, 0;
      timerActive, phase := true, Streaming;
      accumulatedJson, isFirstChunk := "", true;
      chunks, ticks := [], 0;
    }

    /** One firing of the progress interval. */
    method Tick()
      requires Valid() && timerActive
      modifies this`generationProgress, this`timerActive, this`ticks
      ensures Valid()
      ensures generationProgress == NextProgress(old(generationProgress))
      ensures timerActive <==> !StopsTimer(old(generationProgress))
      ensures ticks == old(ticks) + 1
    {
      StopsAtTwentiethTick(ticks);
      ProgressAfterInRange(ticks + 1);
      timerActive := !StopsTimer(generationProgress);
      generationProgress := NextProgress(generationProgress);
      ticks := ticks + 1;
    }

    /** One iteration of the `for await` loop: the first chunk replaces the
      skeleton with the empty plan `{}`; every chunk is appended. */
    method ReceiveChunk(chunk: string)
      requires Valid() && phase == Streaming
      modifies this`contentPlan, this`accumulatedJson, this`isFirstChunk, this`chunks
      ensures Valid()
      ensures chunks == old(chunks) + [chunk]
      ensures accumulatedJson == old(accumulatedJson) + chunk
      ensures contentPlan == Some(EmptyPlan) && !isFirstChunk
    {
      ConcatAppend(chunks, chunk);
      if isFirstChunk {
        contentPlan := Some(EmptyPlan);
        isFirstChunk := false;
      }
      accumulatedJson := accumulatedJson + chunk;
      chunks := chunks + [chunk];
    }

    /** The loop has finished: stop the timer, show 100%, then extract and
      parse (the thrown errors land in `error` with the plan cleared). */
    method EndStream(parse: string -> Result<PartialContentPlan, string>)
      requires Valid() && phase == Streaming
      modifies this`timerActive, this`generationProgress, this`contentPlan, this`error, this`phase
      ensures Valid()
      ensures !timerActive && generationProgress == 100 && phase == Settling && isLoading
      ensures Outcome(contentPlan, error) == Conclude(Concat(chunks), chunks != [], parse)
    {
      timerActive := false;
      generationProgress := 100;
      var outcome := Conclude(accumulatedJson, !isFirstChunk, parse);
      contentPlan, error := outcome.plan, outcome.error;
      phase := Settling;
    }

    /** The stream threw: the `catch` and the `finally` blocks. */
    method FailStream(message: string)
      requires Valid() && phase == Streaming
      modifies this`timerActive, this`contentPlan, this`error, this`phase
      ensures Valid()
      ensures !timerActive && phase == Settling && isLoading
      ensures error == Some(message) && contentPlan == None
      ensures generationProgress == ProgressAfter(ticks)
    {
      timerActive := false;
      error, contentPlan := Some(message), None;
      phase := Settling;
    }

    /** The delayed callback scheduled by `finally`. */
    method Settle()
      requires Valid() && phase == Settling
      modifies this`isLoading, this`generationProgress, this`phase
      ensures Valid()
      ensures !isLoading && generationProgress == 0 && phase == Idle
    {
      isLoading, generationProgress, phase := false, 0, Idle;
    }

    /** Up to `n` firings of the progress interval, fewer if it stops itself. */
    method RunTimer(n: nat)
      requires Valid() && phase == Streaming
      modifies this`generationProgress, this`timerActive, this`ticks
      ensures Valid() && phase == Streaming
      ensures generationProgress == ProgressAfter(ticks) && old(ticks) <= ticks
    {
      var k := 0;
      while k < n && timerActive
        invariant Valid() && old(ticks) <= ticks
      {
        Tick();
        k := k + 1;
      }
    }

    /** The `for await` loop of `handleGeneratePlan` over the delivered
      chunks, with the interval firing `ticksBefore(i)` times (or until it
      stops itself) before the i-th chunk. */
    method ReceiveAll(delivered: seq<string>, ticksBefore: nat -> nat)
      requires Valid() && phase == Streaming && chunks == []
      modifies this`generationProgress, this`timerActive, this`ticks, this`contentPlan,
        this`accumulatedJson, this`isFirstChunk, this`chunks
      ensures Valid() && phase == Streaming && chunks == delivered
      ensures accumulatedJson == Concat(delivered)
    {
      var i := 0;
      while i < |delivered|
        invariant 0 <= i <= |delivered| && chunks == delivered[..i]
        invariant Valid()
      {
        RunTimer(ticksBefore(i));
        ReceiveChunk(delivered[i]);
        assert delivered[..i + 1] == delivered[..i] + [delivered[i]];
        i := i + 1;
      }
      assert delivered[..i] == delivered;
    }

    /** The rest of `handleGeneratePlan` once the stream is open: the loop
      over what the generator delivers, the ticks before it ends
      (`ticksBefore` of the number of chunks), the end or failure of the
      stream, and the delayed settle. */
    method ConsumeStream(d: Delivery, parse: string -> Result<PartialContentPlan, string>,
                         ticksBefore: nat -> nat)
      requires Valid() && phase == Streaming && chunks == []
      modifies this`generationProgress, this`timerActive, this`ticks, this`contentPlan,
        this`accumulatedJson, this`isFirstChunk, this`chunks, this`error, this`phase, this`isLoading
      ensures Valid()
      ensures !isLoading && generationProgress == 0 && !timerActive && phase == Idle
      ensures Outcome(contentPlan, error)
        == (if d.failure.Some? then Outcome(None, d.failure)
            else Conclude(Concat(d.chunks), d.chunks != [], parse))
    {
      ReceiveAll(d.chunks, ticksBefore);
      RunTimer(ticksBefore(|d.chunks|));
      if d.failure.Some? {
        FailStream(d.failure.value);
      } else {
        EndStream(parse);
      }
      Settle();
    }

    /** The whole of `handleGeneratePlan`. Once the delayed settle has run,
      the plan and error are what the streamed chunks and the parse decide. */
    method HandleGeneratePlan(stream: Request -> Upstream,
                              parse: string -> Result<PartialContentPlan, string>,
                              ticksBefore: nat -> nat)
      returns (started: bool)
      requires Valid()
      modifies this`isLoading, this`error, this`contentPlan, this`thirtyDayPlan,
        this`thirtyDayPlanError, this`generationProgress, this`timerActive, this`phase,
        this`accumulatedJson, this`isFirstChunk, this`chunks, this`ticks
      ensures Valid()
      ensures started <==> Trim(old(topic)) != "" && !old(isLoading)
      ensures !started ==> unchanged(this)
      ensures started ==> thirtyDayPlan == null && thirtyDayPlanError == None
      ensures started ==>
        var u := stream(SinglePlanRequest(old(topic), old(socialMediaLink), old(contentStyle)));
        Outcome(contentPlan, error)
          == (if u.broken then Outcome(None, Some(ContentPlanFailure))
              else Conclude(Concat(u.texts), u.texts != [], parse))
        && !isLoading && generationProgress == 0 && !timerActive
    {
      started := StartGeneration();
      if !started {
        return;
      }
      ghost var u := stream(SinglePlanRequest(topic, socialMediaLink, contentStyle));
      assert u == stream(SinglePlanRequest(old(topic), old(socialMediaLink), old(contentStyle)));
      var d := GenerateContentPlanStream(topic, socialMediaLink, contentStyle, stream);
      assert d == Delivery(u.texts, if u.broken then Some(ContentPlanFailure) else None);
      ConsumeStream(d, parse, ticksBefore);
    }

    /** Entry to `handleGenerateThirtyDayPlan`; only the empty topic is
      rejected, and there is no guard against a request already running. */
    method BeginThirtyDayPlan() returns (started: bool)
      requires Valid()
      modifies this`isThirtyDayPlanLoading, this`thirtyDayPlanError
      ensures Valid()
      ensures started <==> old(topic) != ""
      ensures !started ==> unchanged(this)
      ensures started ==> isThirtyDayPlanLoading && thirtyDayPlanError == None
    {
      if topic == "" {
        return false;
      }
      isThirtyDayPlanLoading, thirtyDayPlanError := true, None;
      started := true;
    }

    /** The awaited 30-day call has settled: keep the plan and open the modal,
      or keep the error; in both cases stop loading. */
    method CompleteThirtyDayPlan(outcome: Result<ThirtyDayPlanData, string>)
      requires Valid()
      modifies this`thirtyDayPlan, this`isModalOpen, this`isThirtyDayPlanLoading, this`thirtyDayPlanError
      ensures Valid()
      ensures !isThirtyDayPlanLoading
      ensures outcome.Success? ==>
        thirtyDayPlan != null && fresh(thirtyDayPlan) && fresh(thirtyDayPlan.plan)
        && thirtyDayPlan.realBusinessJustification == outcome.value.realBusinessJustification
        && thirtyDayPlan.plan[..] == outcome.value.plan
        && isModalOpen && thirtyDayPlanError == old(thirtyDayPlanError)
      ensures outcome.Failure? ==>
        thirtyDayPlanError == Some(outcome.error)
        && thirtyDayPlan == old(thirtyDayPlan) && isModalOpen == old(isModalOpen)
    {
      match outcome {
        case Success(data) =>
          thirtyDayPlan := new ThirtyDayPlan(data);
          isModalOpen := true;
        case Failure(message) =>
          thirtyDayPlanError := Some(message);
      }
      isThirtyDayPlanLoading := false;
    }

    /** The whole of `handleGenerateThirtyDayPlan`. */
    method HandleGenerateThirtyDayPlan(call: Request -> Reply,
                                       parse: string -> Result<ThirtyDayPlanData, string>)
      returns (started: bool)
      requires Valid()
      modifies this`isThirtyDayPlanLoading, this`thirtyDayPlanError, this`thirtyDayPlan, this`isModalOpen
      ensures Valid()
      ensures started <==> old(topic) != ""
      ensures !started ==> unchanged(this)
      ensures started ==>
        var r := GenerateThirtyDayPlan(old(topic), call, parse);
        !isThirtyDayPlanLoading
        && (r.Success? ==>
              thirtyDayPlan != null && fresh(thirtyDayPlan) && fresh(thirtyDayPlan.plan)
              && thirtyDayPlan.realBusinessJustification == r.value.realBusinessJustification
              && thirtyDayPlan.plan[..] == r.value.plan && isModalOpen && thirtyDayPlanError == None)
        && (r.Failure? ==>
              thirtyDayPlanError == Some(ThirtyDayFailure) && thirtyDayPlan == old(thirtyDayPlan)
              && isModalOpen == old(isModalOpen))
    {
      started := BeginThirtyDayPlan();
      if !started {
        return;
      }
      var r := GenerateThirtyDayPlan(topic, call, parse);
      CompleteThirtyDayPlan(r);
    }
  }
}
