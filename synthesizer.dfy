/**
 The action synthesizer `get_gpt_command`: the elements text and the steps
 text are put verbatim into a fixed prompt, the prompt is sent to the chat
 completion service, and the first choice's content is returned with its
 surrounding whitespace stripped. The returned text is not checked against
 the command grammar.

 The completion service is the function `complete`, from the model name and
 the messages to the choices it returns or the error it raises.
 */
module Synthesizer {
  import opened Outcomes

  const Model: string := "gpt-3.5-turbo"
  const SystemContent: string := "You are an agent controlling a browser."

  /** The text before the elements: the role, the inputs and the five commands. */
  const PromptHead: string :=
    "\n" +
    "    You are an agent controlling a browser. You are given:\n" +
    "\n" +
    "    (1) an objective to navigate and interact with the elements on the given URL.\n" +
    "    (2) a list of elements from the page.\n" +
    "    (3) a list of steps decomposed from the user's intent.\n" +
    "\n" +
    "    Based on the elements available and the steps provided, issue the following commands:\n" +
    "\n" +
    "    SCROLL UP - scroll up one page\n" +
    "    SCROLL DOWN - scroll down one page\n" +
    "    CLICK X - click on a given element by its id\n" +
    "    TYPE X \"TEXT\" - type the specified text into the input with id X\n" +
    "    TYPESUBMIT X \"TEXT\" - type the specified text into the input with id X and then press ENTER\n" +
    "\n" +
    "    The available elements are:\n" +
    "    "

  /** The text between the elements and the steps. */
  const PromptMiddle: string :=
    "\n" +
    "\n" +
    "    The steps to accomplish are:\n" +
    "    "

  /** The text after the steps. */
  const PromptTail: string :=
    "\n" +
    "\n" +
    "    Based on the steps and elements, issue the appropriate commands to accomplish the objective.\n" +
    "    "

  /** `str(IndexError)` for `choices[0]` on an empty list of choices. */
  const IndexErrorMessage: string := "list index out of range"

  datatype Message = Message(role: string, content: string)

  /** What the chat completion call gives back: the contents of its choices, in order, or the error it raises. */
  datatype Completion = Choices(contents: seq<string>) | Raised(message: string)

  /** The prompt: the template with the elements text and the steps text interpolated. */
  function Prompt(elements: string, steps: string): string
  {
    PromptHead + elements + PromptMiddle + steps + PromptTail
  }

  /**
   The elements text and then the steps text stand verbatim in the prompt, at
   fixed places in the template.
   */
  lemma PromptHoldsInputs(elements: string, steps: string)
    ensures var p := Prompt(elements, steps);
      && |p| == |PromptHead| + |elements| + |PromptMiddle| + |steps| + |PromptTail|
      && p[|PromptHead|..|PromptHead| + |elements|] == elements
      && p[|PromptHead| + |elements| + |PromptMiddle|..|p| - |PromptTail|] == steps
  {
    Interpolated(PromptHead, elements, PromptMiddle, steps, PromptTail);
  }

  /** Where the two interpolated texts stand in any text of the template's shape. */
  lemma Interpolated(head: string, elements: string, middle: string, steps: string, tail: string)
    ensures var p := head + elements + middle + steps + tail;
      && |p| == |head| + |elements| + |middle| + |steps| + |tail|
      && p[..|head|] == head
      && p[|head|..|head| + |elements|] == elements
      && p[|head| + |elements|..|head| + |elements| + |middle|] == middle
      && p[|head| + |elements| + |middle|..|p| - |tail|] == steps
      && p[|p| - |tail|..] == tail
  {
    var p := head + elements + middle + steps + tail;
    var a, b, c := |head|, |head| + |elements|, |head| + |elements| + |middle|;
    assert p[..a] == head;
    assert p[a..b] == elements;
    assert p[b..c] == middle;
    assert p[c..|p| - |tail|] == steps;
    assert p[|p| - |tail|..] == tail;
  }

  /** The elements and steps text of a prompt whose elements text is `elementsLength` characters long. */
  function SplitPrompt(p: string, elementsLength: nat): Option<(string, string)>
  {
    var elementsEnd := |PromptHead| + elementsLength;
    var stepsStart := elementsEnd + |PromptMiddle|;
    if stepsStart + |PromptTail| <= |p|
       && p[..|PromptHead|] == PromptHead
       && p[elementsEnd..stepsStart] == PromptMiddle
       && p[|p| - |PromptTail|..] == PromptTail
    then Some((p[|PromptHead|..elementsEnd], p[stepsStart..|p| - |PromptTail|]))
    else None
  }

  /** The elements and the steps can be read back from the prompt. */
  lemma SplitPromptOfPrompt(elements: string, steps: string)
    ensures SplitPrompt(Prompt(elements, steps), |elements|) == Some((elements, steps))
  {
    Interpolated(PromptHead, elements, PromptMiddle, steps, PromptTail);
  }

  /** Every text `SplitPrompt` accepts is the prompt for what it reads back. */
  lemma PromptOfSplitPrompt(p: string, elementsLength: nat)
    requires SplitPrompt(p, elementsLength).Some?
    ensures var (elements, steps) := SplitPrompt(p, elementsLength).value;
      |elements| == elementsLength && Prompt(elements, steps) == p
  {
    var elementsEnd := |PromptHead| + elementsLength;
    var stepsStart := elementsEnd + |PromptMiddle|;
    var tailStart := |p| - |PromptTail|;
    SplitFive(p, |PromptHead|, elementsEnd, stepsStart, tailStart);
  }

  /** A text is the concatenation of its consecutive pieces. */
  lemma SplitFive(p: string, a: nat, b: nat, c: nat, d: nat)
    requires a <= b <= c <= d <= |p|
    ensures p == p[..a] + p[a..b] + p[b..c] + p[c..d] + p[d..]
  {
    assert p[..b] == p[..a] + p[a..b];
    assert p[..c] == p[..b] + p[b..c];
    assert p[..d] == p[..c] + p[c..d];
    assert p == p[..d] + p[d..];
  }

  /** The two messages sent: the agent's role as system message, the prompt as user message. */
  function Messages(prompt: string): (m: seq<Message>)
    ensures |m| == 2
    ensures m[0] == Message("system", SystemContent)
    ensures m[1] == Message("user", prompt)
  {
    [Message("system", SystemContent), Message("user", prompt)]
  }

  /** Python's `str.isspace` for one character. */
  predicate IsSpace(c: char)
  {
    || ('\t' <= c <= '\r')                   // tab, line feed, vertical tab, form feed, carriage return
    || ('\U{001C}' <= c <= '\U{001F}')       // file, group, record and unit separators
    || c == ' ' || c == '\U{0085}' || c == '\U{00A0}' || c == '\U{1680}'
    || ('\U{2000}' <= c <= '\U{200A}')
    || c == '\U{2028}' || c == '\U{2029}' || c == '\U{202F}' || c == '\U{205F}' || c == '\U{3000}'
  }

  predicate AllSpace(s: string)
  {
    forall i :: 0 <= i < |s| ==> IsSpace(s[i])
  }

  /**
   The scan from the front: the first index at or after `k` that does not
   hold whitespace, or `|s|` if there is none.
   */
  function FirstNonSpace(s: string, k: nat): (n: nat)
    requires k <= |s|
    ensures k <= n <= |s|
    ensures forall i :: k <= i < n ==> IsSpace(s[i])
    ensures n == |s| || !IsSpace(s[n])
    decreases |s| - k
  {
    if k < |s| && IsSpace(s[k]) then FirstNonSpace(s, k + 1) else k
  }

  /**
   The scan from the back, which stops at `low`: the end of `s[low..k]` once
   its trailing whitespace is removed.
   */
  function EndNonSpace(s: string, low: nat, k: nat): (n: nat)
    requires low <= k <= |s|
    ensures low <= n <= k
    ensures forall i :: n <= i < k ==> IsSpace(s[i])
    ensures n == low || !IsSpace(s[n - 1])
  {
    if low < k && IsSpace(s[k - 1]) then EndNonSpace(s, low, k - 1) else k
  }

  /** The number of whitespace characters `Strip` removes from the front. */
  function LeadingSpace(s: string): (n: nat)
    ensures n <= |s|
  {
    FirstNonSpace(s, 0)
  }

  /**
   Python's `str.strip()`: the part of `s` between leading and trailing
   whitespace, which itself neither starts nor ends with whitespace.
   */
  function Strip(s: string): (r: string)
    ensures |r| <= |s|
    ensures r == [] || (!IsSpace(r[0]) && !IsSpace(r[|r| - 1]))
  {
    var low := LeadingSpace(s);
    s[low..EndNonSpace(s, low, |s|)]
  }

  /** `Strip` keeps a contiguous part of `s` and removes only whitespace around it. */
  lemma StripInfix(s: string)
    ensures var i, r := LeadingSpace(s), Strip(s);
      && i + |r| <= |s|
      && s[i..i + |r|] == r
      && (forall j :: 0 <= j < i ==> IsSpace(s[j]))
      && (forall j :: i + |r| <= j < |s| ==> IsSpace(s[j]))
  {
    var i := LeadingSpace(s);
    var n := EndNonSpace(s, i, |s|);
    assert Strip(s) == s[i..n];
  }

  /** The front scan stops at the first non-whitespace index, whichever way it is found. */
  lemma FirstNonSpaceAt(s: string, k: nat, n: nat)
    requires k <= n <= |s|
    requires forall i :: k <= i < n ==> IsSpace(s[i])
    requires n == |s| || !IsSpace(s[n])
    ensures FirstNonSpace(s, k) == n
  {
    // The scan's own ensures leave it no other stop: every index before `n`
    // is whitespace, and `n` itself is not (or is the end).
  }

  /** The back scan stops just after the last non-whitespace index at or after `low`. */
  lemma EndNonSpaceAt(s: string, low: nat, k: nat, n: nat)
    requires low <= n <= k <= |s|
    requires forall i :: n <= i < k ==> IsSpace(s[i])
    requires n == low || !IsSpace(s[n - 1])
    ensures EndNonSpace(s, low, k) == n
  {
    // As for `FirstNonSpaceAt`: the scan's own ensures leave it no other stop.
  }

  /**
   `Strip` removes exactly the surrounding whitespace: text that neither
   starts nor ends with whitespace comes back unchanged from any padding.
   */
  lemma StripPadded(before: string, r: string, after: string)
    requires AllSpace(before) && AllSpace(after)
    requires r == [] || (!IsSpace(r[0]) && !IsSpace(r[|r| - 1]))
    ensures Strip(before + r + after) == r
  {
    var p := before + r + after;
    var low, high := |before|, |before| + |r|;
    forall i | 0 <= i < low
      ensures IsSpace(p[i])
    {
      assert p[i] == before[i];
    }
    forall i | high <= i < |p|
      ensures IsSpace(p[i])
    {
      assert p[i] == after[i - high];
    }
    if r == [] {
      FirstNonSpaceAt(p, 0, |p|);
      EndNonSpaceAt(p, |p|, |p|, |p|);
    } else {
      assert p[low] == r[0] && p[high - 1] == r[|r| - 1];
      FirstNonSpaceAt(p, 0, low);
      EndNonSpaceAt(p, low, |p|, high);
      assert p[low..high] == r;
    }
  }

  /** Stripping twice is stripping once. */
  lemma StripIdempotent(s: string)
    ensures Strip(Strip(s)) == Strip(s)
  {
    var r := Strip(s);
    assert [] + r + [] == r;
    StripPadded([], r, []);
  }

  /**
   The command: the first choice's content with its surrounding whitespace
   stripped. The completion service's own error, or an empty list of choices
   (an `IndexError`), propagates as a completion failure.
   */
  function GetGptCommand(elements: string, steps: string, complete: (string, seq<Message>) -> Completion): (command: Result<string>)
    ensures var reply := complete(Model, Messages(Prompt(elements, steps)));
      && (command.Ok? <==> reply.Choices? && reply.contents != [])
      && (command.Ok? ==> command.value == Strip(reply.contents[0]))
      && (command.Err? ==> command.error.CompletionFailure?)
      && (reply.Raised? ==> command.error.message == reply.message)
      && (reply.Choices? && reply.contents == [] ==> command.error.message == IndexErrorMessage)
  {
    match complete(Model, Messages(Prompt(elements, steps)))
    case Raised(message) => Err(CompletionFailure(message))
    case Choices(contents) =>
      if |contents| == 0 then Err(CompletionFailure(IndexErrorMessage))
      else Ok(Strip(contents[0]))
  }

  /**
   There is no check against the command grammar: whatever text the first
   choice holds comes back as the command, stripped, whether or not it is one
   of the five command forms.
   */
  lemma AnyTextIsCommand(elements: string, steps: string, complete: (string, seq<Message>) -> Completion,
                         before: string, text: string, after: string, others: seq<string>)
    requires AllSpace(before) && AllSpace(after)
    requires text == [] || (!IsSpace(text[0]) && !IsSpace(text[|text| - 1]))
    requires complete(Model, Messages(Prompt(elements, steps))) == Choices([before + text + after] + others)
    ensures GetGptCommand(elements, steps, complete) == Ok(text)
  {
    StripPadded(before, text, after);
  }

  /** A whitespace-only first choice gives the empty command, not an error. */
  lemma BlankCommandAccepted(elements: string, steps: string, complete: (string, seq<Message>) -> Completion, blank: string)
    requires AllSpace(blank)
    requires complete(Model, Messages(Prompt(elements, steps))) == Choices([blank])
    ensures GetGptCommand(elements, steps, complete) == Ok("")
  {
    assert blank + [] + [] == blank;
    AnyTextIsCommand(elements, steps, complete, blank, [], [], []);
  }

  /** A first choice of ` CLICK 1` and a newline gives the command `CLICK 1`. */
  lemma ClickCommand(elements: string, steps: string, complete: (string, seq<Message>) -> Completion)
    requires complete(Model, Messages(Prompt(elements, steps))) == Choices([" CLICK 1\n"])
    ensures GetGptCommand(elements, steps, complete) == Ok("CLICK 1")
  {
    assert " CLICK 1\n" == " " + "CLICK 1" + "\n";
    AnyTextIsCommand(elements, steps, complete, " ", "CLICK 1", "\n", []);
  }
}
