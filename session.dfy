/** The session orchestrator of chat_cli.py: one iteration of the input loop
    in `main`, which reads a line, dispatches on it and, for a submitted
    message, runs the zero-budget pass or the two-pass thinking-budget turn and
    records it in the transcript. */
module Session {
  import opened Segmenter
  import opened Stream
  import opened Budget

  // ---------------------------------------------------------------------------
  // Reading a line: `input(...).strip()`, then the `/exit` and empty checks.
  // ---------------------------------------------------------------------------

  /** The characters Python's `str.strip()` removes (those `str.isspace()` accepts). */
  const SpaceChars: set<char> := {'\t', '\n', '\U{B}', '\U{C}', '\r', '\U{1C}', '\U{1D}', '\U{1E}', '\U{1F}', ' ', '\U{85}', '\U{A0}', '\U{1680}', '\U{2000}', '\U{2001}', '\U{2002}', '\U{2003}', '\U{2004}', '\U{2005}', '\U{2006}', '\U{2007}', '\U{2008}', '\U{2009}', '\U{200A}', '\U{2028}', '\U{2029}', '\U{202F}', '\U{205F}', '\U{3000}'}

  predicate IsSpace(c: char)
  {
    c in SpaceChars
  }

  predicate AllSpace(s: string)
  {
    forall k :: 0 <= k < |s| ==> IsSpace(s[k])
  }

  function LeadingSpaces(s: string): (n: nat)
    ensures n <= |s|
    ensures AllSpace(s[..n])
    ensures n < |s| ==> !IsSpace(s[n])
  {
    if s != [] && IsSpace(s[0]) then
      var n := 1 + LeadingSpaces(s[1..]);
      assert forall k :: 1 <= k < n ==> s[..n][k] == s[1..][..n - 1][k - 1];
      n
    else 0
  }

  function TrailingSpaces(s: string): (n: nat)
    ensures n <= |s|
    ensures AllSpace(s[|s| - n..])
    ensures n < |s| ==> !IsSpace(s[|s| - n - 1])
  {
    if s != [] && IsSpace(s[|s| - 1]) then
      var init := s[..|s| - 1];
      var m := TrailingSpaces(init);
      assert s[|s| - (m + 1)..] == init[|init| - m..] + [s[|s| - 1]];
      assert m < |init| ==> s[|s| - (m + 1) - 1] == init[|init| - m - 1];
      m + 1
    else 0
  }

  /** `str.strip()`: the text between the leading and the trailing whitespace. */
  function Strip(s: string): (r: string)
    ensures r == [] || (!IsSpace(r[0]) && !IsSpace(r[|r| - 1]))
    ensures exists a :: OccursAt(s, r, a) && AllSpace(s[..a]) && AllSpace(s[a + |r|..])
  {
    var a := LeadingSpaces(s);
    var b := TrailingSpaces(s[a..]);
    var r := s[a..|s| - b];
    assert s[a + |r|..] == s[a..][|s[a..]| - b..];
    assert r != [] ==> r[|r| - 1] == s[a..][|s[a..]| - b - 1];
    assert OccursAt(s, r, a);
    r
  }

  /** A line that is whitespace throughout strips to nothing. */
  lemma AllSpaceStripsToNothing(line: string)
    requires AllSpace(line)
    ensures Strip(line) == []
  {
    var a := LeadingSpaces(line);
    assert a == |line|;
    assert line[a..] == [];
  }

  /** A line that strips to nothing is whitespace throughout. */
  lemma NothingLeftIsAllSpace(line: string)
    requires Strip(line) == []
    ensures AllSpace(line)
  {
    var a := LeadingSpaces(line);
    var rest := line[a..];
    var b := TrailingSpaces(rest);
    assert |line| - b == a;
    assert rest[|rest| - b..] == rest;
    // The leading run already reaches the end of the line.
    assert a == |line|;
    assert line[..a] == line;
  }

  /** A line strips to nothing exactly when it is whitespace throughout. */
  lemma StripEmptyIffAllSpace(line: string)
    ensures Strip(line) == [] <==> AllSpace(line)
  {
    if AllSpace(line) {
      AllSpaceStripsToNothing(line);
    }
    if Strip(line) == [] {
      NothingLeftIsAllSpace(line);
    }
  }

  /** `str.lower()` restricted to the letters that matter here: only ASCII
      capitals map to ASCII letters, so comparing with "/exit" after this
      lowering gives the same answer as after Python's full case mapping. */
  function LowerChar(c: char): char
  {
    if 'A' <= c <= 'Z' then (c as int - 'A' as int + 'a' as int) as char else c
  }

  function Lower(s: string): (r: string)
    ensures |r| == |s|
    ensures forall k :: 0 <= k < |s| ==> r[k] == s[k] || 'A' <= s[k] <= 'Z'
    ensures forall k :: 0 <= k < |r| ==> !('A' <= r[k] <= 'Z')
    ensures forall k :: 0 <= k < |s| && 'A' <= s[k] <= 'Z' ==> r[k] as int == s[k] as int + ('a' as int - 'A' as int)
  {
    seq(|s|, k requires 0 <= k < |s| => LowerChar(s[k]))
  }

  const ExitCommand: string := "/exit"

  datatype Command = Quit | Blank | Submit(text: string)

  /** Lines 150-158 of `main` after `input()`: strip the line, quit on "/exit"
      in any letter case, skip an empty line, otherwise submit the stripped text. */
  function ParseLine(line: string): (cmd: Command)
    ensures cmd == Blank <==> AllSpace(line)
    ensures cmd == Quit <==> Lower(Strip(line)) == ExitCommand
    ensures cmd.Submit? ==> cmd.text != "" && cmd.text == Strip(line) && Lower(cmd.text) != ExitCommand
  {
    var s := Strip(line);
    StripEmptyIffAllSpace(line);
    if Lower(s) == ExitCommand then Quit
    else if s == "" then Blank
    else Submit(s)
  }

  /** A stripped line spelling "/exit" in capitals lowers to the command. */
  lemma ExitInAnyCase()
    ensures Lower("/EXIT") == ExitCommand
  {
    var r := Lower("/EXIT");
    assert r[0] == '/' && r[1] == 'e' && r[2] == 'x' && r[3] == 'i' && r[4] == 't';
  }

  // ---------------------------------------------------------------------------
  // The transcript and what one turn adds to it.
  // ---------------------------------------------------------------------------

  datatype Role = User | Assistant

  /** One `{"role": ..., "content": ...}` entry of `messages`. */
  datatype Message = Message(role: Role, content: string)

  /** What `client.chat.completions.create` is called with, apart from the
      model name and `stream=True`. */
  datatype Request = Request(messages: seq<Message>, maxTokens: int, enableThinking: bool)

  /** Where the input loop goes after one line: prompt again, leave the loop, or
      leave `main` through an exception raised by the endpoint. */
  datatype Next = AwaitInput | Exit | Crash

  /** The first-pass text after the early-stop decision: what becomes the
      assistant entry before any continuation. */
  function Provisional(first: Response): string
  {
    var cs := Delivered(first);
    WithCue(LastFinish(cs), FirstPassText(cs))
  }

  /** A thinking-mode turn whose first pass ended on its budget goes on to a second pass. */
  predicate Continues(thinkingBudget: int, first: Response)
  {
    thinkingBudget != 0 && !Raises(first) && NeedContinue(LastFinish(Delivered(first)))
  }

  /** The turn reaches its end without an exception. */
  predicate Completes(thinkingBudget: int, first: Response, second: Response)
  {
    !Raises(first) && !(Continues(thinkingBudget, first) && Raises(second))
  }

  /** The content of the assistant entry a turn leaves in the transcript (when
      the first pass did not raise). */
  function Reply(thinkingBudget: int, first: Response, second: Response): string
  {
    if thinkingBudget == 0 then ChannelText(Delivered(first), AnswerChannel)
    else if Continues(thinkingBudget, first) && !Raises(second) then
      Provisional(first) + ChannelText(Delivered(second), AnswerChannel)
    else Provisional(first)
  }

  /** The assistant entry a turn leaves: one, unless the first call raised. */
  function AssistantEntries(thinkingBudget: int, first: Response, second: Response): seq<Message>
  {
    if Raises(first) then [] else [Message(Assistant, Reply(thinkingBudget, first, second))]
  }

  /** The entries one submitted line appends: the user entry always, then one
      assistant entry unless the first call raised. */
  function TurnMessages(thinkingBudget: int, userInput: string, first: Response, second: Response): (ms: seq<Message>)
    ensures |ms| == if Raises(first) then 1 else 2
    ensures ms[0] == Message(User, userInput)
    ensures forall k :: 1 <= k < |ms| ==> ms[k].role == Assistant
  {
    [Message(User, userInput)] + AssistantEntries(thinkingBudget, first, second)
  }

  /** The calls one submitted line makes to the endpoint, in order. */
  function TurnRequests(thinkingBudget: int, maxTokens: int, before: seq<Message>, userInput: string,
                        first: Response): (rs: seq<Request>)
    ensures 1 <= |rs| <= 2
    ensures rs[0].messages == before + [Message(User, userInput)]
    ensures rs[0].enableThinking <==> thinkingBudget != 0
    ensures |rs| == 2 <==> Continues(thinkingBudget, first)
  {
    var history := before + [Message(User, userInput)];
    if thinkingBudget == 0 then [Request(history, maxTokens, false)]
    else
      [Request(history, thinkingBudget, true)]
      + (if Continues(thinkingBudget, first) then
           [Request(history + [Message(Assistant, Provisional(first))], maxTokens, true)]
         else [])
  }

  /** What the first pass already answered, printed under "Assistant: " once
      the pass is over (empty when nothing follows the last marker). */
  function Preview(first: Response): (answer: string)
    ensures EndsWith(Provisional(first), answer)
    ensures !Contains(answer, EndTag)
    ensures !Contains(Provisional(first), EndTag) ==> answer == ""
  {
    SplitAtMarker(Provisional(first));
    Split(Provisional(first)).1
  }

  /** The preview is exactly the text after the last marker: what precedes it
      ends with `</think>`, and it holds no marker itself. */
  lemma PreviewAfterLastMarker(first: Response)
    ensures var p := Provisional(first);
      Contains(p, EndTag) ==> EndsWith(p[..|p| - |Preview(first)|], EndTag)
  {
    var p := Provisional(first);
    SplitAtMarker(p);
    assert p[..|p| - |Split(p).1|] == Split(p).0;
  }

  /** When the first pass ends on its own, the preview is the text it produced
      after its last marker (the empty text when it closed no thinking). */
  lemma NaturalStopPreview(thinkingBudget: int, first: Response)
    requires thinkingBudget != 0 && !Raises(first)
    requires !NeedContinue(LastFinish(Delivered(first)))
    ensures Preview(first) == Split(FirstPassText(Delivered(first))).1
    ensures !Contains(FirstPassText(Delivered(first)), EndTag) ==> Preview(first) == ""
  {
  }

  /** The session state `main` keeps: the transcript `messages`, plus a log of
      the calls made to the endpoint. */
  class ChatSession {
    const thinkingBudget: int
    const maxTokens: int
    var messages: seq<Message>
    var requests: seq<Request>

    constructor (thinkingBudget: int, maxTokens: int)
      ensures this.thinkingBudget == thinkingBudget && this.maxTokens == maxTokens
      ensures messages == [] && requests == []
    {
      this.thinkingBudget := thinkingBudget;
      this.maxTokens := maxTokens;
      messages := [];
      requests := [];
    }

    /** Lines 160-223 of `main` for a submitted message; `first` and `second`
        are the endpoint's responses to the first and, if made, second call.
        `preview` is the answer text printed after the first pass. */
    method Turn(userInput: string, first: Response, second: Response) returns (completed: bool, preview: string)
      modifies this
      ensures messages == old(messages) + TurnMessages(thinkingBudget, userInput, first, second)
      ensures requests == old(requests) + TurnRequests(thinkingBudget, maxTokens, old(messages), userInput, first)
      ensures completed == Completes(thinkingBudget, first, second)
      ensures preview == if thinkingBudget == 0 || Raises(first) then "" else Preview(first)
    {
      messages := messages + [Message(User, userInput)];

      if thinkingBudget == 0 {
        completed := DirectTurn(first);
        preview := "";
      } else {
        completed, preview := ThinkingTurn(first, second);
      }
    }

    /** Lines 163-182 of `main`: with thinking switched off, one call at the
        answer budget whose content text becomes the assistant entry. */
    method DirectTurn(first: Response) returns (completed: bool)
      modifies this
      ensures messages == old(messages)
        + (if Raises(first) then [] else [Message(Assistant, ChannelText(Delivered(first), AnswerChannel))])
      ensures requests == old(requests) + [Request(old(messages), maxTokens, false)]
      ensures completed == !Raises(first)
    {
      requests := requests + [Request(messages, maxTokens, false)];
      var text := AnswerPass(first);
      if Raises(first) {
        return false;
      }
      messages := messages + [Message(Assistant, text)];
      return true;
    }

    /** Lines 184-223 of `main`: the two-pass turn once the user entry is in
        the transcript. */
    method ThinkingTurn(first: Response, second: Response) returns (completed: bool, preview: string)
      requires thinkingBudget != 0
      modifies this
      ensures messages == old(messages) + AssistantEntries(thinkingBudget, first, second)
      ensures requests == old(requests) + [Request(old(messages), thinkingBudget, true)]
        + (if Continues(thinkingBudget, first) then
             [Request(old(messages) + [Message(Assistant, Provisional(first))], maxTokens, true)]
           else [])
      ensures completed == Completes(thinkingBudget, first, second)
      ensures preview == if Raises(first) then "" else Preview(first)
    {
      requests := requests + [Request(messages, thinkingBudget, true)];
      var pass1, _, _ := FirstPass(first);
      if Raises(first) {
        return false, "";
      }

      // Lines 194-198: the cue is appended when the thinking was cut off.
      var fullText := WithCue(pass1.finishReason, pass1.fullText);

      var parts := Split(fullText);
      preview := parts.1;

      var needContinue := NeedContinue(pass1.finishReason);
      completed := Commit(fullText, needContinue, second);
    }

    /** Lines 207-223 of `main`: record the first-pass text as the assistant
        entry and, when the first pass stopped on its budget, run the second
        pass on the transcript that ends with it and extend that same entry. */
    method Commit(fullText: string, needContinue: bool, second: Response) returns (completed: bool)
      modifies this
      ensures messages == old(messages) + [Message(Assistant,
        if needContinue && !Raises(second) then fullText + ChannelText(Delivered(second), AnswerChannel)
        else fullText)]
      ensures requests == old(requests)
        + (if needContinue then [Request(old(messages) + [Message(Assistant, fullText)], maxTokens, true)] else [])
      ensures completed <==> !(needContinue && Raises(second))
    {
      if needContinue {
        messages := messages + [Message(Assistant, fullText)];
        requests := requests + [Request(messages, maxTokens, true)];
        var additional := AnswerPass(second);
        if Raises(second) {
          return false;
        }
        // Line 220: the provisional entry is extended in place.
        var last := |messages| - 1;
        messages := messages[last := messages[last].(content := messages[last].content + additional)];
      } else {
        messages := messages + [Message(Assistant, fullText)];
      }
      return true;
    }

    /** One iteration of the input loop of `main` after `input()` returned `line`. */
    method HandleLine(line: string, first: Response, second: Response) returns (next: Next)
      modifies this
      ensures !ParseLine(line).Submit? ==> unchanged(this)
      ensures ParseLine(line) == Quit ==> next == Exit
      ensures ParseLine(line) == Blank ==> next == AwaitInput
      ensures ParseLine(line).Submit? ==>
        var text := ParseLine(line).text;
        && messages == old(messages) + TurnMessages(thinkingBudget, text, first, second)
        && requests == old(requests) + TurnRequests(thinkingBudget, maxTokens, old(messages), text, first)
        && next == (if Completes(thinkingBudget, first, second) then AwaitInput else Crash)
    {
      var cmd := ParseLine(line);
      if cmd == Quit {
        return Exit;
      }
      if cmd == Blank {
        return AwaitInput;
      }
      var completed, _ := Turn(cmd.text, first, second);
      next := if completed then AwaitInput else Crash;
    }
  }

  // ---------------------------------------------------------------------------
  // What a turn promises.
  // ---------------------------------------------------------------------------

  /** A completed turn appends exactly one user entry and then exactly one
      assistant entry; the transcript before it is a prefix of the one after. */
  lemma OneAssistantEntryPerTurn(thinkingBudget: int, before: seq<Message>, userInput: string,
                                 first: Response, second: Response)
    requires Completes(thinkingBudget, first, second)
    ensures var after := before + TurnMessages(thinkingBudget, userInput, first, second);
      && |after| == |before| + 2
      && after[..|before|] == before
      && after[|before|] == Message(User, userInput)
      && after[|before| + 1].role == Assistant
  {
    var after := before + TurnMessages(thinkingBudget, userInput, first, second);
    assert after[..|before|] == before;
  }

  /** With a zero budget the reply is the in-order join of the non-empty answer
      fragments; reasoning fragments play no part. */
  lemma ZeroBudgetReply(first: Response, second: Response)
    ensures Reply(0, first, second) == Concat(Fragments(Delivered(first), AnswerChannel))
  {
    FragmentsJoin(Delivered(first), AnswerChannel);
  }

  /** A turn that did not stop on its budget records the first pass verbatim:
      reasoning text then answer text, with no cue and no second call. */
  lemma NaturalStopReply(thinkingBudget: int, first: Response, second: Response)
    requires thinkingBudget != 0 && !Raises(first)
    requires !NeedContinue(LastFinish(Delivered(first)))
    ensures Reply(thinkingBudget, first, second)
         == ChannelText(Delivered(first), ReasoningChannel) + ChannelText(Delivered(first), AnswerChannel)
    ensures !Continues(thinkingBudget, first)
  {
  }

  /** The transcript sent with the second call already holds a closed thinking
      section: the first-pass text had a marker, or the cue supplied one. */
  lemma ContinuationStartsAfterMarker(thinkingBudget: int, first: Response)
    requires Continues(thinkingBudget, first)
    ensures Contains(Provisional(first), EndTag)
  {
  }

  /** In the transcript a continued turn leaves, the last entry is the
      assistant's: the provisional text sent with the second call, extended by
      the second pass's answer text with nothing dropped or repeated at the
      seam; the reasoning text of the first pass opens it. */
  lemma ContinuedReplySeam(thinkingBudget: int, before: seq<Message>, userInput: string,
                           first: Response, second: Response)
    requires Continues(thinkingBudget, first) && !Raises(second)
    ensures var after := before + TurnMessages(thinkingBudget, userInput, first, second);
      var entry := after[|after| - 1];
      var p := Provisional(first);
      && entry.role == Assistant
      && entry.content[..|p|] == p
      && entry.content[|p|..] == ChannelText(Delivered(second), AnswerChannel)
      && ChannelText(Delivered(first), ReasoningChannel) <= entry.content
  {
    var after := before + TurnMessages(thinkingBudget, userInput, first, second);
    var p := Provisional(first);
    var r := Reply(thinkingBudget, first, second);
    assert after[|after| - 1] == Message(Assistant, r);
    var t := ChannelText(Delivered(first), ReasoningChannel);
    assert t <= FirstPassText(Delivered(first)) <= p;
    assert r[..|t|] == p[..|t|];
  }

  /** When the budget ran out after the thinking had already closed, no cue is
      added: the provisional entry is the first pass verbatim, and the preview
      is the text the first pass produced after its last marker. */
  lemma BudgetStopAfterThinkingClosed(thinkingBudget: int, first: Response)
    requires Continues(thinkingBudget, first)
    requires Contains(FirstPassText(Delivered(first)), EndTag)
    ensures Provisional(first) == FirstPassText(Delivered(first))
    ensures Preview(first) == Split(FirstPassText(Delivered(first))).1
    ensures Split(FirstPassText(Delivered(first))).0 + Preview(first) == FirstPassText(Delivered(first))
  {
  }

  /** When the cue is injected, the first pass left no answer to preview:
      the text after the cue's marker is empty, so nothing is printed under
      "Assistant: " before the second pass. */
  lemma EarlyStopLeavesNoPreview(first: Response)
    requires !Raises(first)
    requires NeedsEarlyStop(LastFinish(Delivered(first)), FirstPassText(Delivered(first)))
    ensures Preview(first) == ""
  {
    var cs := Delivered(first);
    EarlyStopLeavesNoAnswer(LastFinish(cs), FirstPassText(cs));
  }
}
