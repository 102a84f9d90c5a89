/**
 The `/recommend` endpoint `recommend_action`: fetch the elements, then the
 steps, then the command, stopping at the first exception, which becomes an
 HTTP 500 whose detail is the exception's text.

 The collaborators are the oracles of the three clients: the crawler's reply
 to each attempt, the decomposition service `ask` and the completion service
 `complete`. The run records which collaborators it called, in order.
 */
module Orchestrator {
  import opened Outcomes
  import ElementFetch
  import Decomposition
  import Synthesizer

  /** The one key of the success body. */
  const ActionKey: string := "recommended_action"

  /** The status of every failure (`HTTPException(status_code=500, ...)`). */
  const ErrorStatus: int := 500

  /** A call to a collaborator, with what was passed to it. */
  datatype Call =
    | CrawlerCalled(url: string, attempts: nat, sleeps: seq<nat>)
    | DecomposerCalled(posts: seq<string>)
    | SynthesizerCalled(elements: string, steps: string)

  /** The endpoint's answer: the JSON body on success, or the HTTP error raised. */
  datatype Response = Recommended(body: map<string, string>) | HttpError(statusCode: int, detail: string)

  /** A whole request: the response and the calls made to produce it. */
  datatype Trace = Trace(response: Response, calls: seq<Call>)

  /** `HTTPException(status_code=500, detail=str(e))`. */
  function Failure(e: Error): Response
  {
    HttpError(ErrorStatus, Detail(e))
  }

  /**
   What one request does, for any synthesizer `synthesize` from the elements
   and steps text to the command: the collaborators are called in the fixed
   order crawler, decomposition, synthesizer, and the first exception ends the
   request. The endpoint uses `Synthesizer.GetGptCommand` (see
   `RecommendAction`).
   */
  function Recommend(url: string, replies: seq<Reply>, ask: (string, nat) -> Reply,
                     synthesize: (string, string) -> Result<string>): Trace
    requires ElementFetch.MaxAttempts <= |replies|
  {
    var fetch := ElementFetch.Run(replies, 0);
    var crawled := [CrawlerCalled(url, fetch.attempts, fetch.sleeps)];
    match fetch.result
    case Err(e) => Trace(Failure(e), crawled)
    case Ok(elements) =>
      var decomposition := Decomposition.GetDecompositionSteps(url, ask);
      var asked := crawled + [DecomposerCalled(decomposition.posts)];
      match decomposition.steps
      case Err(e) => Trace(Failure(e), asked)
      case Ok(steps) =>
        var synthesized := asked + [SynthesizerCalled(elements, steps)];
        match synthesize(elements, steps)
        case Err(e) => Trace(Failure(e), synthesized)
        case Ok(command) => Trace(Recommended(map[ActionKey := command]), synthesized)
  }

  /** The completion-backed synthesizer of the endpoint. */
  function WithCompletion(complete: (string, seq<Synthesizer.Message>) -> Synthesizer.Completion): (string, string) -> Result<string>
  {
    (elements: string, steps: string) => Synthesizer.GetGptCommand(elements, steps, complete)
  }

  /** The endpoint, step by step; its response and calls are those of `Recommend` with `get_gpt_command`. */
  method RecommendAction(url: string, replies: seq<Reply>, ask: (string, nat) -> Reply,
                         complete: (string, seq<Synthesizer.Message>) -> Synthesizer.Completion)
    returns (response: Response, calls: seq<Call>)
    requires ElementFetch.MaxAttempts <= |replies|
    ensures Trace(response, calls) == Recommend(url, replies, ask, WithCompletion(complete))
  {
    var elements, attempts, sleeps := ElementFetch.FetchElements(replies);
    calls := [CrawlerCalled(url, attempts, sleeps)];
    if elements.Err? {
      return Failure(elements.error), calls;
    }

    var decomposition := Decomposition.GetDecompositionSteps(url, ask);
    calls := calls + [DecomposerCalled(decomposition.posts)];
    var steps := decomposition.steps;
    if steps.Err? {
      return Failure(steps.error), calls;
    }

    calls := calls + [SynthesizerCalled(elements.value, steps.value)];
    var command := Synthesizer.GetGptCommand(elements.value, steps.value, complete);
    if command.Err? {
      return Failure(command.error), calls;
    }
    response := Recommended(map[ActionKey := command.value]);
  }

  /**
   The crawler is called first and always; the decomposition service is called
   once, with the question for the URL, exactly when the elements were
   obtained; the synthesizer is called once, with the elements and the steps,
   exactly when the steps were obtained too.
   */
  lemma CallOrder(url: string, replies: seq<Reply>, ask: (string, nat) -> Reply, synthesize: (string, string) -> Result<string>)
    requires ElementFetch.MaxAttempts <= |replies|
    ensures var calls := Recommend(url, replies, ask, synthesize).calls;
      var fetch := ElementFetch.Run(replies, 0);
      var steps := Decomposition.GetDecompositionSteps(url, ask).steps;
      && 1 <= |calls| <= 3
      && calls[0] == CrawlerCalled(url, fetch.attempts, fetch.sleeps)
      && (|calls| >= 2 <==> fetch.result.Ok?)
      && (|calls| >= 2 ==> calls[1] == DecomposerCalled([Decomposition.Question(url)]))
      && (|calls| == 3 <==> fetch.result.Ok? && steps.Ok?)
      && (|calls| == 3 ==> calls[2] == SynthesizerCalled(fetch.result.value, steps.value))
  {
  }

  /**
   A recommendation is returned only when the elements, the steps and the
   command were all obtained, and its body holds exactly the command under
   `recommended_action`.
   */
  lemma SuccessCarriesCommand(url: string, replies: seq<Reply>, ask: (string, nat) -> Reply, synthesize: (string, string) -> Result<string>)
    requires ElementFetch.MaxAttempts <= |replies|
    ensures var response := Recommend(url, replies, ask, synthesize).response;
      var fetch := ElementFetch.Run(replies, 0);
      var steps := Decomposition.GetDecompositionSteps(url, ask).steps;
      && (response.Recommended? <==> fetch.result.Ok? && steps.Ok? && synthesize(fetch.result.value, steps.value).Ok?)
      && (response.Recommended? ==> response.body == map[ActionKey := synthesize(fetch.result.value, steps.value).value])
  {
  }

  /**
   Every failure is a 500 whose detail is the text of the first exception: the
   crawler's, else the decomposition service's, else the synthesizer's.
   */
  lemma FailureReportsFirstError(url: string, replies: seq<Reply>, ask: (string, nat) -> Reply, synthesize: (string, string) -> Result<string>)
    requires ElementFetch.MaxAttempts <= |replies|
    ensures var response := Recommend(url, replies, ask, synthesize).response;
      var fetch := ElementFetch.Run(replies, 0);
      var steps := Decomposition.GetDecompositionSteps(url, ask).steps;
      && (response.HttpError? ==> response.statusCode == ErrorStatus)
      && (fetch.result.Err? ==> response.detail == fetch.result.error.message)
      && (fetch.result.Ok? && steps.Err? ==> response.detail == steps.error.message)
      && (fetch.result.Ok? && steps.Ok? && synthesize(fetch.result.value, steps.value).Err? ==>
            response.detail == synthesize(fetch.result.value, steps.value).error.message)
  {
  }

  /**
   A crawler that cannot be reached: five POSTs, backoffs of 1, 2, 4 and 8
   seconds, then a 500 carrying the fifth transport error; the decomposition
   service and the synthesizer are never called.
   */
  lemma CrawlerUnreachable(url: string, replies: seq<Reply>, ask: (string, nat) -> Reply, synthesize: (string, string) -> Result<string>)
    requires ElementFetch.MaxAttempts <= |replies|
    requires forall i :: 0 <= i < ElementFetch.MaxAttempts ==> replies[i].TransportFailure?
    ensures Recommend(url, replies, ask, synthesize)
         == Trace(HttpError(ErrorStatus, replies[4].message), [CrawlerCalled(url, 5, [1, 2, 4, 8])])
  {
    ElementFetch.Exhausted(replies);
  }

  /**
   A crawler answering with an HTTP error status: one POST, no backoff, and a
   500 carrying that error; nothing else is called.
   */
  lemma CrawlerStatusFailsFast(url: string, replies: seq<Reply>, ask: (string, nat) -> Reply, synthesize: (string, string) -> Result<string>)
    requires ElementFetch.MaxAttempts <= |replies|
    requires replies[0].StatusFailure?
    ensures Recommend(url, replies, ask, synthesize)
         == Trace(HttpError(ErrorStatus, replies[0].message), [CrawlerCalled(url, 1, [])])
  {
    ElementFetch.StatusErrorNotRetried(replies, 0);
  }

  /**
   A transport failure of the decomposition POST ends the request with a 500
   carrying that error: the question is POSTed once, and the synthesizer is
   never called.
   */
  lemma DecomposerTransportFailsFast(url: string, elements: string, replies: seq<Reply>,
                                     ask: (string, nat) -> Reply, synthesize: (string, string) -> Result<string>)
    requires ElementFetch.MaxAttempts <= |replies|
    requires replies[0] == Delivered(elements)
    requires ask(Decomposition.Question(url), 0).TransportFailure?
    ensures Recommend(url, replies, ask, synthesize)
         == Trace(HttpError(ErrorStatus, ask(Decomposition.Question(url), 0).message),
                  [CrawlerCalled(url, 1, []), DecomposerCalled([Decomposition.Question(url)])])
  {
    ElementFetch.FirstSuccessReturned(replies, 0);
    ElementFetch.SleepsFollowSchedule(replies);
    Decomposition.TransportFailureNotRetried(url, ask);
  }

  /**
   A completion with no choices makes `choices[0]` raise `IndexError`: the
   endpoint answers with a 500 whose detail is "list index out of range".
   */
  lemma EmptyChoicesFail(url: string, elements: string, steps: string, replies: seq<Reply>,
                         ask: (string, nat) -> Reply, complete: (string, seq<Synthesizer.Message>) -> Synthesizer.Completion)
    requires ElementFetch.MaxAttempts <= |replies|
    requires replies[0] == Delivered(elements)
    requires ask(Decomposition.Question(url), 0) == Delivered(steps)
    requires complete(Synthesizer.Model, Synthesizer.Messages(Synthesizer.Prompt(elements, steps))) == Synthesizer.Choices([])
    ensures Recommend(url, replies, ask, WithCompletion(complete)).response == HttpError(ErrorStatus, "list index out of range")
  {
    ElementFetch.FirstSuccessReturned(replies, 0);
  }

  /**
   When the crawler and the decomposition service answer at once and the
   synthesizer produces a command, the endpoint answers with exactly that
   command under `recommended_action` (with `Synthesizer.ClickCommand`:
   `{"recommended_action": "CLICK 1"}`).
   */
  lemma CommandRecommended(url: string, elements: string, steps: string, command: string,
                           replies: seq<Reply>, ask: (string, nat) -> Reply, synthesize: (string, string) -> Result<string>)
    requires ElementFetch.MaxAttempts <= |replies|
    requires replies[0] == Delivered(elements)
    requires ask(Decomposition.Question(url), 0) == Delivered(steps)
    requires synthesize(elements, steps) == Ok(command)
    ensures Recommend(url, replies, ask, synthesize)
         == Trace(Recommended(map["recommended_action" := command]),
                  [CrawlerCalled(url, 1, []), DecomposerCalled([Decomposition.Question(url)]), SynthesizerCalled(elements, steps)])
  {
    ElementFetch.FirstSuccessReturned(replies, 0);
    ElementFetch.SleepsFollowSchedule(replies);
  }
}
