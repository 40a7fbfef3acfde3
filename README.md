# Two-pass thinking-budget chat client, modelled in Dafny

`chat_cli.py` is a terminal chat client for a reasoning model served behind an
OpenAI-compatible streaming endpoint. Each user turn runs one of two paths:

- **Thinking-budget protocol.** A first pass is capped at the thinking budget.
  If that pass stopped on its budget before the model closed its thinking with
  `</think>`, an early-stopping cue is appended. A second pass is capped at the
  answer budget and continues the same assistant message.
- **Zero-budget bypass.** A budget of 0 sends one plain request with thinking
  disabled.

The model is split into four modules:

- `Segmenter` (`segmenter.dfy`) covers `split_thinking_and_answer` and the
  `str.rfind` it relies on. It also models the `in` test on strings, which
  `needs_early_stop` uses (line 194).
- `Stream` (`stream.dfy`) models the endpoint's response as the chunks it
  delivers. It covers the chunk loops of `stream_first_pass`,
  `stream_second_pass` and the zero-budget pass.
  - The loops are methods.
  - Each loop is proved against reference functions of the delivered chunks:
    `ChannelText` for the text of one channel and `LastFinish` for the finish
    reason.
- `Budget` (`budget.dfy`) covers `EARLY_STOPPING_TEXT`, `needs_early_stop`,
  `need_continue` and the cue injection.
- `Session` (`session.dfy`) covers one iteration of the input loop in `main`.
  - It reads and classifies a line.
  - For a submitted line it runs the turn on a `ChatSession` object, whose
    `messages` transcript is updated in place as the source does. The
    provisional assistant entry is appended first and later extended through
    `messages[-1]`.
  - `ChatSession` also keeps a log of every endpoint call: its messages, its
    token cap and whether thinking was on.
  - Spec functions give the entries and calls of a whole turn. The methods are
    proved against them, and lemmas state what a turn promises.

A call to the endpoint is given as a `Response`: either `Refused`, where the
call itself raises, or `Delivers(chunks, breaks)`, which delivers `chunks` and
then raises if `breaks` is set. The source catches no exception there, so a
raise ends `main` (`Next.Crash`). The user entry already appended stays in
`messages`; no rollback happens.

The early-stop and continue tests compare the finish reason with the literal
`"max_tokens"`, exactly as lines 194 and 208 do. An endpoint that reports budget
exhaustion as `"length"` therefore never triggers the second pass, and the model
keeps that behaviour.

## Model

| member | source | states |
|---|---|---|
| Segmenter.RFindUpTo | chat_cli.py:70 | the result is -1 or a position at most `i` where the pattern occurs, and no position above it up to `i` holds one |
| Segmenter.RFind | chat_cli.py:70 | `rfind` is -1 exactly when the pattern does not occur; otherwise it is an occurrence with no later occurrence |
| Segmenter.Contains | chat_cli.py:194 | Python's `in`: the empty pattern is in every text, and a contained pattern is no longer than the text |
| Segmenter.Split | chat_cli.py:64-74 | the two parts concatenate back to the input text |
| Segmenter.SplitAtMarker | chat_cli.py:66-74 | without a marker the text is all thinking and the answer is empty; with one, the thinking part ends with `</think>` and the answer part holds no marker |
| Segmenter.NoMarkerAfterCut | chat_cli.py:70-74 | nothing after the cut following the last marker contains a marker |
| Segmenter.LastMarkerAuthority | chat_cli.py:66-74 | when the last marker starts at `p`, the cut falls exactly at `p + 8`, whatever markers come earlier |
| Segmenter.EveryMarkerInThinking | chat_cli.py:70-74 | every marker occurrence lies entirely inside the thinking part |
| Segmenter.SplitIdempotent | chat_cli.py:64-74 | the thinking part splits into itself and an empty answer |
| Segmenter.SplitEndingWithMarker | chat_cli.py:70-74 | a text that ends with `</think>` has an empty answer part |
| Stream.LastFinishIsLast | chat_cli.py:31-55 | `finish_reason` ends as None exactly when no chunk carried one; otherwise it is the reason of a chunk after which none carried one |
| Stream.Concat | chat_cli.py:60 | `"".join` is empty exactly when every part is empty, and a single part joins to itself |
| Stream.ConcatAppend | chat_cli.py:60 | `"".join` distributes over list concatenation |
| Stream.FragmentsJoin | chat_cli.py:46-61 | joining the non-empty fragments a loop collects gives the channel's full text; skipping empty fragments changes nothing |
| Stream.FragmentsEmpty | chat_cli.py:41-58 | the collected list is empty exactly when the channel's text is empty |
| Stream.ChannelTextAppend | chat_cli.py:35-52 | a channel's text over consecutive runs of chunks is the concatenation of the runs' texts |
| Stream.ChannelTextOnlyReadsChannel | chat_cli.py:40-52 | a channel's text depends only on that channel's fields |
| Stream.FirstPass | chat_cli.py:29-61 | thinking text = reasoning-channel text; answer seed = content-channel text; full text = their concatenation; finish reason = last non-None reason; the live-printed text is the thinking text; the header is printed iff there is thinking text |
| Stream.AnswerPass | chat_cli.py:92-109 | the additional text is the content-channel text of the delivered chunks (the zero-budget loop at lines 172-178 accumulates the same text) |
| Budget.NeedContinue | chat_cli.py:208 | a continuation happens only on the exact reason `"max_tokens"`, never without a finish reason |
| Budget.ExactReasonOnly | chat_cli.py:194-208 | `"length"`, `"stop"` and `"MAX_TOKENS"` trigger no continuation; the continuation test is the early-stop test on a text without a marker |
| Budget.NeedsEarlyStop | chat_cli.py:194 | an early stop implies that a continuation follows |
| Budget.WithCue | chat_cli.py:194-198 | exactly `EarlyStoppingText` is added when the budget stopped an open thinking section; a text that already holds `</think>`, or a pass without a budget stop, is left unchanged; after a budget stop the result holds a marker and the early-stop test does not fire again on it |
| Budget.CueEndsWithMarker | chat_cli.py:6-9 | the cue ends with `</think>` |
| Budget.CueClosesThinking | chat_cli.py:6-9 | any text followed by the cue contains a marker, ends with one, and splits into itself and an empty answer |
| Budget.EarlyStopLeavesNoAnswer | chat_cli.py:194-201 | after an early stop the answer part of the cued text is empty |
| Session.LeadingSpaces | chat_cli.py:150 | the counted prefix is all whitespace and the next character is not |
| Session.TrailingSpaces | chat_cli.py:150 | the counted suffix is all whitespace and the character before it is not |
| Session.Strip | chat_cli.py:150 | the result neither starts nor ends with whitespace, and it occurs in the line between an all-whitespace prefix and suffix |
| Session.AllSpaceStripsToNothing | chat_cli.py:150-157 | a line that is whitespace throughout strips to nothing |
| Session.NothingLeftIsAllSpace | chat_cli.py:150-157 | a line that strips to nothing is whitespace throughout |
| Session.StripEmptyIffAllSpace | chat_cli.py:150-157 | a line strips to nothing exactly when it is whitespace throughout |
| Session.Lower | chat_cli.py:155 | the lowered text has the same length; every ASCII capital becomes its own lower-case letter; every other character is kept; no ASCII capital remains |
| Session.ExitInAnyCase | chat_cli.py:155 | `/EXIT` lowers to `/exit`, so by `ParseLine` a line stripping to it quits |
| Session.ParseLine | chat_cli.py:150-158 | Blank iff the line is all whitespace; Quit iff the stripped line lowers to `/exit`; a submitted text is the non-empty stripped line and is not `/exit` in any case |
| Session.TurnMessages | chat_cli.py:160-223 | a turn adds the user entry, then one assistant entry unless the first call raised |
| Session.TurnRequests | chat_cli.py:163-218 | the first call carries the transcript that ends with the user entry; thinking is on iff the budget is non-zero; a second call is made iff the turn continues |
| Session.Preview | chat_cli.py:201-204 | the printed answer is a suffix of the provisional text and holds no marker; it is empty when that text holds no marker |
| Session.PreviewAfterLastMarker | chat_cli.py:200-204 | when the provisional text holds a marker, what precedes the preview ends with `</think>`; with `Preview`'s clauses this makes the preview exactly the text after the last marker |
| Session.NaturalStopPreview | chat_cli.py:200-204 | when the first pass ends on its own, the preview is the first pass's text after its last marker, and empty when it closed no thinking |
| Session.ChatSession.constructor | chat_cli.py:145 | the transcript and the call log start empty |
| Session.ChatSession.Turn | chat_cli.py:160-223 | `messages` and the call log grow by exactly the turn's entries and calls; the turn completes iff no call raised; the answer preview is the text after the last marker |
| Session.ChatSession.DirectTurn | chat_cli.py:163-182 | one call at the answer budget with thinking off; its content text becomes the assistant entry unless the call raised |
| Session.ChatSession.ThinkingTurn | chat_cli.py:184-223 | the two-pass turn: first call at the thinking budget, cue decision, preview, commit |
| Session.ChatSession.Commit | chat_cli.py:207-223 | on a budget stop, the provisional entry is appended and sent, then extended in place by the second pass's text; otherwise the first-pass text is recorded |
| Session.ChatSession.HandleLine | chat_cli.py:150-223 | quit and blank lines change nothing; a submitted line runs a turn, and the loop goes on unless a call raised |
| Session.OneAssistantEntryPerTurn | chat_cli.py:160-223 | a completed turn appends exactly one user entry and then one assistant entry, keeping the earlier transcript as a prefix |
| Session.ZeroBudgetReply | chat_cli.py:172-180 | with budget 0 the reply is the in-order join of the non-empty content fragments |
| Session.NaturalStopReply | chat_cli.py:221-223 | a first pass that did not stop on its budget is recorded verbatim, with no cue and no second call |
| Session.ContinuationStartsAfterMarker | chat_cli.py:193-212 | the transcript sent with the second call already holds a closed thinking section |
| Session.ContinuedReplySeam | chat_cli.py:210-220 | in the transcript a continued turn leaves, the last entry is the assistant's: the provisional text sent with the second call, then the second pass's answer text, with nothing dropped or repeated at the seam; the first pass's reasoning text opens it |
| Session.BudgetStopAfterThinkingClosed | chat_cli.py:193-204 | a budget stop after `</think>` adds no cue: the provisional entry is the first pass verbatim and the preview is its text after the last marker |
| Session.EarlyStopLeavesNoPreview | chat_cli.py:194-204 | when the cue is injected, no answer preview is printed |

## Left out

- Console output is not modelled: the headers "Thinking: " and "Assistant: ", the newlines, the echo of the cue and the second pass's live printing. Kept: the first pass's live thinking text and its header flag (`Stream.FirstPass`), and the preview text (`Session.ChatSession.Turn`).
- The endpoint, the network and the OpenAI client are abstracted as `Response` values supplied by the caller. The model name, the host, the API key and `extra_body` beyond the thinking switch are not recorded.
- A chunk with an empty `choices` list, which would raise `IndexError`, is not modelled: every chunk has one choice.
- Argument parsing and its defaults are not modelled. Budget 8192 and max tokens 2048 are simply constructor arguments.
- The `while True` loop, `input()`, and end-of-file or Ctrl-C are not modelled. `Session.ChatSession.HandleLine` is one iteration, given the line that was read.
- `Session.ParseLine`: `str.lower()` is modelled only on ASCII capitals; the comparison with `/exit` still gives Python's answer. Under Python's full case mapping, a non-ASCII character lowers to something holding an ASCII character in two cases. The Kelvin sign lowers to `k`, which is not in `/exit`. `İ` (U+0130) lowers to `i` followed by U+0307, and U+0307 is not ASCII. Nothing lowers to `/`, so no non-ASCII line lowers to exactly `/exit`.
- Python builds a list of fragments and joins it. The loops model this as appending to a string; `Stream.FragmentsJoin` proves the two agree.
- The zero-budget loop (lines 172-178) reads the same field and accumulates the same text as the second pass, so `Stream.AnswerPass` models it.
- A second pass that also stops on its budget is not continued, as in the source; there is no third pass.
