/** The budget controller and early-stop injector of chat_cli.py: the two
    decisions taken after the first pass and the cue that closes the thinking. */
module Budget {
  import opened Segmenter
  import opened Stream

  /** `EARLY_STOPPING_TEXT`: a directive that ends with the boundary marker. */
  const EarlyStoppingText: string :=
    "\n\nConsidering the limited time by the user, I have to give the solution "
    + "based on the thinking directly now.\n</think>"

  /** The finish reason the client treats as "stopped by the token budget". */
  const MaxTokensReason: string := "max_tokens"

  /** `need_continue`: the first pass stopped on its budget. Only the exact
      reason string counts: no finish reason, or any other string, does not. */
  predicate NeedContinue(finishReason: Option<string>)
    ensures NeedContinue(finishReason) ==> finishReason.Some? && finishReason.value == MaxTokensReason
    ensures finishReason.None? ==> !NeedContinue(finishReason)
  {
    finishReason == Some(MaxTokensReason)
  }

  /** `needs_early_stop`: the first pass stopped on its budget and its text holds
      no marker anywhere, so the thinking was cut off before it closed. */
  predicate NeedsEarlyStop(finishReason: Option<string>, fullText: string)
    ensures NeedsEarlyStop(finishReason, fullText) ==> NeedContinue(finishReason)
  {
    finishReason == Some(MaxTokensReason) && !Contains(fullText, EndTag)
  }

  /** The first-pass text after the early-stop decision: the cue is appended
      exactly when the thinking was cut off. */
  function WithCue(finishReason: Option<string>, fullText: string): (text: string)
    ensures fullText <= text
    ensures NeedContinue(finishReason) ==> Contains(text, EndTag)
    ensures !NeedsEarlyStop(finishReason, text)
    ensures !NeedContinue(finishReason) ==> text == fullText
    ensures Contains(fullText, EndTag) ==> text == fullText
    ensures NeedsEarlyStop(finishReason, fullText) ==> text == fullText + EarlyStoppingText
  {
    if NeedsEarlyStop(finishReason, fullText) then
      CueClosesThinking(fullText);
      fullText + EarlyStoppingText
    else fullText
  }

  /** The budget tests look at the finish reason alone, compared with the exact
      string: a reason such as "length" or "MAX_TOKENS" leads to neither an
      early stop nor a continuation, and the early stop is the continuation
      test applied to a text without a marker. */
  lemma ExactReasonOnly(finishReason: Option<string>)
    ensures !NeedContinue(Some("length")) && !NeedContinue(Some("stop"))
    ensures !NeedContinue(Some("MAX_TOKENS"))
    ensures NeedContinue(finishReason) <==> NeedsEarlyStop(finishReason, "")
  {
    assert !Contains("", EndTag);
    assert "length" != MaxTokensReason by { assert |"length"| != |MaxTokensReason|; }
    assert "stop" != MaxTokensReason by { assert |"stop"| != |MaxTokensReason|; }
    assert "MAX_TOKENS" != MaxTokensReason by { assert "MAX_TOKENS"[0] != MaxTokensReason[0]; }
  }

  lemma CueEndsWithMarker()
    ensures EndsWith(EarlyStoppingText, EndTag)
  {
    assert EarlyStoppingText[|EarlyStoppingText| - |EndTag|..] == EndTag;
  }

  /** Whatever precedes it, the cue leaves a text that holds the marker, ends
      with it, and so splits into itself and an empty answer. */
  lemma CueClosesThinking(text: string)
    ensures Contains(text + EarlyStoppingText, EndTag)
    ensures EndsWith(text + EarlyStoppingText, EndTag)
    ensures Split(text + EarlyStoppingText) == (text + EarlyStoppingText, "")
  {
    var s := text + EarlyStoppingText;
    CueEndsWithMarker();
    var p := |s| - |EndTag|;
    assert s[p..] == EarlyStoppingText[|EarlyStoppingText| - |EndTag|..];
    assert OccursAt(s, EndTag, p);
    SplitEndingWithMarker(s);
  }

  /** After an early stop the answer part of the first-pass text is empty, and
      the decision would not fire a second time on the injected text. */
  lemma EarlyStopLeavesNoAnswer(finishReason: Option<string>, fullText: string)
    requires NeedsEarlyStop(finishReason, fullText)
    ensures Split(WithCue(finishReason, fullText)).1 == ""
    ensures !NeedsEarlyStop(finishReason, WithCue(finishReason, fullText))
  {
    CueClosesThinking(fullText);
  }
}
