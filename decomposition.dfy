/**
 The decomposition client `get_decomposition_steps`: one POST of a fixed
 question that embeds the URL, no retry.

 The decomposition service is the function `ask`: `ask(q, n)` is its reply
 to the POST numbered `n` (0-based) with `user_question` form field `q`. The
 client returns the questions it POSTed along with its result.
 */
module Decomposition {
  import opened Outcomes

  const QuestionPrefix: string := "write me the action steps in bullet points in decomposed mode to follow as an LAM to access "
  const QuestionSuffix: string := ". make sure you start with only bullet points. no introduction or anything."

  /** The `user_question` sent for `url`: the URL stands verbatim between the fixed prefix and suffix. */
  function Question(url: string): (q: string)
    ensures |q| == |QuestionPrefix| + |url| + |QuestionSuffix|
    ensures q[..|QuestionPrefix|] == QuestionPrefix
    ensures q[|QuestionPrefix|..|QuestionPrefix| + |url|] == url
    ensures q[|QuestionPrefix| + |url|..] == QuestionSuffix
  {
    QuestionPrefix + url + QuestionSuffix
  }

  /** The URL a question was asked about, if it has the shape of `Question`. */
  function UrlOf(q: string): (url: Option<string>)
  {
    if |QuestionPrefix| + |QuestionSuffix| <= |q|
       && q[..|QuestionPrefix|] == QuestionPrefix
       && q[|q| - |QuestionSuffix|..] == QuestionSuffix
    then Some(q[|QuestionPrefix|..|q| - |QuestionSuffix|])
    else None
  }

  /** The URL can be read back from the question. */
  lemma UrlOfQuestion(url: string)
    ensures UrlOf(Question(url)) == Some(url)
  {
    var q := Question(url);
    assert q[|q| - |QuestionSuffix|..] == QuestionSuffix;
  }

  /** Every question `UrlOf` accepts is the question for the URL it reads back. */
  lemma QuestionOfUrl(q: string)
    requires UrlOf(q).Some?
    ensures Question(UrlOf(q).value) == q
  {
    var url := UrlOf(q).value;
    assert q == q[..|QuestionPrefix|] + url + q[|q| - |QuestionSuffix|..];
  }

  /** Different URLs are asked about with different questions. */
  lemma QuestionInjective(a: string, b: string)
    requires Question(a) == Question(b)
    ensures a == b
  {
    UrlOfQuestion(a);
    UrlOfQuestion(b);
  }

  /** What the client did: the steps it returns or the exception it raises, and the questions it POSTed, in order. */
  datatype Asked = Asked(steps: Result<string>, posts: seq<string>)

  /**
   One POST of the question for `url`. The `answer` field of the reply comes
   back unchanged; any exception from that reply propagates with its own
   message, a transport failure included.
   */
  function GetDecompositionSteps(url: string, ask: (string, nat) -> Reply): (asked: Asked)
    ensures asked.posts == [Question(url)]
    ensures asked.steps.Ok? <==> ask(Question(url), 0).Delivered?
    ensures asked.steps.Ok? ==> asked.steps.value == ask(Question(url), 0).payload
    ensures asked.steps.Err? ==> Detail(asked.steps.error) == ask(Question(url), 0).message
  {
    Asked(Settle(ask(Question(url), 0)), [Question(url)])
  }

  /**
   No retry: the outcome depends on the service's answer to the first POST
   alone; what it would answer to any later POST, of this question or another,
   is never read.
   */
  lemma SingleShot(url: string, ask: (string, nat) -> Reply, other: (string, nat) -> Reply)
    requires ask(Question(url), 0) == other(Question(url), 0)
    ensures GetDecompositionSteps(url, ask) == GetDecompositionSteps(url, other)
  {
  }

  /**
   A transport failure of the one POST propagates as it is, however the
   service would answer a second POST.
   */
  lemma TransportFailureNotRetried(url: string, ask: (string, nat) -> Reply)
    requires ask(Question(url), 0).TransportFailure?
    ensures GetDecompositionSteps(url, ask) == Asked(Err(Transport(ask(Question(url), 0).message)), [Question(url)])
  {
  }
}
