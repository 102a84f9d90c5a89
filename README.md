# Browser-action recommendation service: orchestration core

This project models the control policy of the recommendation service
(`recommendation/main.py`). The service turns a page URL into one browser
command such as `CLICK 12`. It does this in three steps:

1. It asks the crawler service for the page's elements. This call retries
   with exponential backoff.
2. It asks the decomposition service for step-by-step instructions. This is
   a single call.
3. It builds a fixed prompt from both results and asks a chat-completion
   model for the command.

The first exception ends the request with an HTTP 500 whose detail is the
exception's text.

Every network or model call becomes an outcome value or an oracle function.
With that done, the model is sequential and deterministic:

- **`Outcomes`**: what one POST produced (`Reply`), the exception that escapes
  (`Error`, which carries its `str(e)` text), and `Settle`. `Settle` says which
  value is returned and which exception propagates.
- **`ElementFetch`**: `get_filtering_elements`. `Run` is the reference
  definition of the retry loop over the replies to each attempt.
  `FetchElements` is the loop itself, a `while` loop that keeps a sleep log and
  is proved against `Run`. The lemmas cover the attempt bound, the exact
  1/2/4/8-second backoff schedule, and the replies that are never retried.
- **`Decomposition`**: `get_decomposition_steps`. `Question` embeds the URL
  verbatim, and `UrlOf` reads it back. The service can answer each POST
  differently. The client POSTs the question once and returns that one
  reply, settled, together with the questions it POSTed.
- **`Synthesizer`**: `get_gpt_command`. It covers the exact prompt template,
  reading the elements and steps back out of a prompt, the two chat messages,
  Python's `str.strip()`, and the extraction of the first choice.
- **`Orchestrator`**: `recommend_action`. `RecommendAction` is the step-by-step
  endpoint. It records which collaborators it called and with what, and is
  proved equal to the reference `Recommend`. The lemmas cover call order,
  short-circuiting and the response shapes.

## Model

| member | source | states |
|---|---|---|
| `Outcomes.Detail` | recommendation/main.py:140 | Definition of `str(e)`: the message an exception carries. It has no contract; `FailureReportsFirstError` states that the 500's detail is this text of the first failure. |
| `Outcomes.Retryable` | recommendation/main.py:94 | Definition of the retry clause `except (httpx.RequestError, httpx.TimeoutException)`: it catches exactly the transport failures. It has no contract; `Settle` and `RunShape` state its effect. |
| `Outcomes.Settle` | recommendation/main.py:87-99 | A reply yields a value exactly when the service answered 2xx with the field. That value is the field, unchanged. Otherwise the exception keeps its own message. Only a transport failure gives a transport error, and only a status failure gives a status error. |
| `ElementFetch.Backoff` | recommendation/main.py:97 | Definition of `2 ** attempt` seconds by doubling from 1. It has no contract; `Schedule` and `FullSchedule` state its values. |
| `ElementFetch.Run` | recommendation/main.py:80-99 | Reference definition of the retry loop from a given attempt on. Its contract bounds the attempts made between the starting attempt + 1 and 5; `RunShape` states the rest. |
| `ElementFetch.Schedule` | recommendation/main.py:96-97 | After `n` failed attempts, the delays are `n` values, and the i-th is `2 ** i` seconds. |
| `ElementFetch.FetchElements` | recommendation/main.py:78-99 | The loop's result, POST count and sleeps are those of `Run`, so `RunShape` and the lemmas after it hold of the loop. It makes 1 to 5 attempts, and every attempt before the last failed in transport. |
| `ElementFetch.RunShape` | recommendation/main.py:80-99 | A run ends at the first reply the retry clause does not catch, or at the fifth attempt. It returns or raises what that last reply settles to. It sleeps `2 ** i` after each earlier attempt and nothing after the last. |
| `ElementFetch.AttemptsBounded` | recommendation/main.py:80-82 | The crawler is POSTed at least once and at most five times, so the logged attempt numbers run from 1 to at most 5. |
| `ElementFetch.SleepsFollowSchedule` | recommendation/main.py:94-97 | The sleeps are exactly `2 ** 0, 2 ** 1, ...`, one after each attempt but the last. |
| `ElementFetch.FullSchedule` | recommendation/main.py:96-97 | The schedule after four failures is 1, 2, 4, 8 seconds. |
| `ElementFetch.Exhausted` | recommendation/main.py:94-99 | Five transport failures give five POSTs and sleeps of 1, 2, 4 and 8. There is no sleep after the fifth, and its error is re-raised. |
| `ElementFetch.StopsAtFirstUncaught` | recommendation/main.py:87-99 | The first reply that is not a transport failure ends the run on that attempt. The run returns or raises what that reply settles to, and sleeps only after the earlier attempts. |
| `ElementFetch.StatusErrorNotRetried` | recommendation/main.py:87-93 | An HTTP status error is re-raised on the attempt where it occurs, with its code, body and message. Nothing is slept after it, and there is no further POST. |
| `ElementFetch.MalformedNotRetried` | recommendation/main.py:88-99 | A body that fails to decode, or lacks `elements`, propagates on the attempt where it occurs, with no retry and no sleep after it. |
| `ElementFetch.FirstSuccessReturned` | recommendation/main.py:88-90 | The first successful attempt returns its elements unchanged and ends the loop. |
| `ElementFetch.LaterRepliesUnused` | recommendation/main.py:80-90 | Replies to attempts that are never made do not affect the run. |
| `Decomposition.Question` | recommendation/main.py:108 | The question is the fixed prefix, the URL verbatim, then the fixed suffix. |
| `Decomposition.UrlOfQuestion` | recommendation/main.py:108 | The URL can be read back from the question. |
| `Decomposition.QuestionOfUrl` | recommendation/main.py:108 | Every text `UrlOf` accepts is the question for the URL it reads back. |
| `Decomposition.QuestionInjective` | recommendation/main.py:108 | Different URLs give different questions. |
| `Decomposition.GetDecompositionSteps` | recommendation/main.py:102-119 | Exactly one POST is made, and it carries the question for the URL. The result is the `answer` of the reply to that first POST. Any failure of that reply propagates with its own message. |
| `Decomposition.SingleShot` | recommendation/main.py:104-119 | The outcome depends only on the service's answer to the first POST. Its answers to later POSTs are never read, so there is no retry. |
| `Decomposition.TransportFailureNotRetried` | recommendation/main.py:117-119 | A transport failure of the one POST propagates as it is, even when a second POST would succeed. |
| `Synthesizer.Prompt` | recommendation/main.py:43-65 | Definition of the f-string: the template text, the elements, the middle text, the steps and the closing text. It has no contract; `PromptHoldsInputs` and the split lemmas state its properties. |
| `Synthesizer.PromptHoldsInputs` | recommendation/main.py:43-65 | The prompt holds the elements text and then the steps text, each verbatim, at fixed positions in the template. |
| `Synthesizer.SplitPromptOfPrompt` | recommendation/main.py:58-62 | The elements and steps can be read back out of the prompt. |
| `Synthesizer.PromptOfSplitPrompt` | recommendation/main.py:43-65 | Every text that splits is the prompt of its two parts. |
| `Synthesizer.Messages` | recommendation/main.py:69-72 | Exactly two messages are sent. The first is the system message naming the agent's role, and the second is the user message holding the prompt. |
| `Synthesizer.IsSpace` | recommendation/main.py:75 | Definition of the whitespace `str.strip()` removes: the characters for which Python's `str.isspace` holds. It has no contract. |
| `Synthesizer.FirstNonSpace` | recommendation/main.py:75 | The front scan of `str.strip()` stops at the first non-whitespace index, or at the end, and passes only whitespace. `FirstNonSpaceAt` shows that index is the only one with those properties. |
| `Synthesizer.EndNonSpace` | recommendation/main.py:75 | The back scan of `str.strip()` stops just after the last non-whitespace index, never before the front scan's stop, and passes only whitespace. `EndNonSpaceAt` shows that end is the only one with those properties. |
| `Synthesizer.Strip` | recommendation/main.py:75 | `str.strip()` returns no more characters than it was given, and what it returns is empty or starts and ends with non-whitespace. |
| `Synthesizer.StripInfix` | recommendation/main.py:75 | What `str.strip()` returns is a contiguous part of the text, and everything before and after that part is whitespace. |
| `Synthesizer.StripPadded` | recommendation/main.py:75 | Stripping removes exactly the surrounding whitespace: any whitespace padding of a trimmed text strips back to it. |
| `Synthesizer.StripIdempotent` | recommendation/main.py:75 | Stripping twice is the same as stripping once. |
| `Synthesizer.GetGptCommand` | recommendation/main.py:42-75 | The result is a command exactly when the completion returned at least one choice. That command is the first choice stripped. A raised error becomes a completion failure with the error's own message. An empty choice list becomes a completion failure whose message is `IndexError`'s "list index out of range". |
| `Synthesizer.AnyTextIsCommand` | recommendation/main.py:75 | Any first-choice text comes back as the command once stripped, whether or not it is a valid command. |
| `Synthesizer.ClickCommand` | recommendation/main.py:75 | A first choice of ` CLICK 1` and a newline gives the command `CLICK 1`. |
| `Synthesizer.BlankCommandAccepted` | recommendation/main.py:75 | A whitespace-only first choice gives the empty command, not an error. |
| `Orchestrator.Failure` | recommendation/main.py:140 | Definition of `HTTPException(status_code=500, detail=str(e))`. It has no contract; `FailureReportsFirstError` states its status and detail. |
| `Orchestrator.WithCompletion` | recommendation/main.py:135 | Definition of the call `get_gpt_command(filtering_elements, decomposition_steps)` as a synthesizer. It has no contract; `RecommendAction` states that the endpoint is `Recommend` with this synthesizer. |
| `Orchestrator.Recommend` | recommendation/main.py:129-140 | Reference definition of one request, for any synthesizer. It has no contract; the lemmas below state its properties. |
| `Orchestrator.RecommendAction` | recommendation/main.py:128-140 | The endpoint's response and recorded calls are those of `Recommend` with the completion-backed synthesizer. |
| `Orchestrator.CallOrder` | recommendation/main.py:129-137 | The crawler is called first, always. Decomposition is called once exactly when the elements were obtained, and it POSTs the URL's question once. The synthesizer is called once, with both texts, exactly when the steps were obtained too. |
| `Orchestrator.SuccessCarriesCommand` | recommendation/main.py:131-137 | A recommendation is returned exactly when all three stages succeed. Its body is exactly `{recommended_action: command}`. |
| `Orchestrator.FailureReportsFirstError` | recommendation/main.py:138-140 | Every failure is a 500. Its detail is the text of the first stage's exception. |
| `Orchestrator.CrawlerUnreachable` | recommendation/main.py:129-140 | With an unreachable crawler, the trace is five POSTs, backoffs of 1, 2, 4 and 8, and a 500 with the fifth error. Decomposition is never called. |
| `Orchestrator.CrawlerStatusFailsFast` | recommendation/main.py:129-140 | A crawler status error gives one POST, no backoff, and a 500 with that error. Nothing else is called. |
| `Orchestrator.DecomposerTransportFailsFast` | recommendation/main.py:133-140 | A transport failure of the decomposition POST gives a 500 with that error. The question was POSTed once, and the synthesizer is never called. |
| `Orchestrator.EmptyChoicesFail` | recommendation/main.py:135-140 | When the elements and steps arrive but the completion has no choices, the response is a 500 whose detail is "list index out of range". |
| `Orchestrator.CommandRecommended` | recommendation/main.py:129-137 | When the crawler and the decomposition service answer at the first attempt and the synthesizer gives a command, the response is `{"recommended_action": command}`. The calls are one crawler POST with no backoff, one POST of the URL's question, and the synthesizer with both texts. |

## Behaviour of note

Three facts about the code are easy to get wrong, so the model states them:

- **No grammar validation.** The model's output is not checked against the
  five command forms. `AnyTextIsCommand` and `BlankCommandAccepted` show that
  any text, even whitespace only, is returned as the recommended action.
- **Four sleeps, not five.** The crawler client sleeps `2 ** attempt` seconds
  only after attempts 0 to 3. After the fifth attempt it re-raises without
  sleeping (`Exhausted`).
- **No dedicated error for exhausted retries.** The client re-raises the fifth
  attempt's own exception, so the 500's detail is that exception's text.

## Left out

- HTTP transport, the 60-second timeouts, the service addresses and JSON
  encoding are not modelled. Each POST is a `Reply` value: the crawler's replies
  form a sequence indexed by attempt, and the decomposition service is a
  function of the question and the number of the POST.
- The crawler's replies: the model needs at least five of them, one for each
  attempt the loop could make. `LaterRepliesUnused` shows that the replies to
  attempts never made do not matter.
- The element list and the `answer` value are modelled by their text, which is
  what the f-string interpolates. Their JSON structure is not modelled.
- A first choice whose content is not a string (for example `None`) is not
  modelled.
- `httpx` exceptions outside `RequestError` and `TimeoutException` (for
  example `InvalidURL`) are grouped with decoding errors as `Malformed`. Like
  them, they propagate without retry.
- The chat-completion call is the function `complete` from the model name and
  messages to the choices or a raised error. `str(IndexError)` for an empty
  choice list is the constant "list index out of range".
- `asyncio.sleep` and real time are not modelled. Each delay is recorded in
  order instead.
- Async concurrency, cancellation and connection cleanup are not modelled. The
  model runs one request sequentially, as the code does.
- `Orchestrator.Recommend` takes the synthesizer as a parameter, and
  `RecommendAction` instantiates it with `GetGptCommand`. Its trace records the
  elements and steps passed to the synthesizer. The messages that the
  synthesizer sends are stated by `GetGptCommand`, `Messages` and `PromptHoldsInputs`.
- Logging is not modelled. The attempt number that is logged, `attempt + 1`,
  is covered only through `AttemptsBounded`.
- Plumbing is not modelled:
  - FastAPI routing and the `/` page (recommendation/main.py:122-124)
  - CORS, Jinja2 templates and the pydantic request model
  - `load_dotenv` and the API key
  - the uvicorn start-up (recommendation/main.py:143-144), which uses a
    `uvicorn` name the file never imports
- filtering/app.py is not part of this model. It runs a crawler script in a
  subprocess and parses its output, which leaves no policy of its own to state.
