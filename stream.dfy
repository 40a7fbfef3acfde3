/** The stream consumers of chat_cli.py: the chunk loops of `stream_first_pass`,
    `stream_second_pass` and the zero-budget pass in `main`. The endpoint's
    response is given as the sequence of chunks it delivers. */
module Stream {

  datatype Option<T> = None | Some(value: T)

  /** The part of one streamed chunk the client reads: `choices[0].delta`'s
      `reasoning_content` and `content`, and `choices[0].finish_reason`. */
  datatype Chunk = Chunk(reasoning: Option<string>, content: Option<string>, finish: Option<string>)

  /** What a call to the endpoint yields: either the call itself raises, or a
      stream delivers `chunks` and then, if `breaks`, raises instead of ending. */
  datatype Response = Refused | Delivers(chunks: seq<Chunk>, breaks: bool)

  datatype Channel = ReasoningChannel | AnswerChannel

  /** The result of the first pass: the full text, the finish reason and the
      two channel texts it is made of. */
  datatype FirstPassResult = FirstPassResult(
    fullText: string, finishReason: Option<string>, thinkingText: string, answerSeed: string)

  /** The chunks a response delivers before it ends or raises. */
  function Delivered(response: Response): seq<Chunk>
  {
    if response.Refused? then [] else response.chunks
  }

  /** The response raises an exception instead of ending normally. */
  predicate Raises(response: Response)
  {
    response.Refused? || response.breaks
  }

  /** Python's `x or ""` on an optional string. */
  function OrEmpty(o: Option<string>): string
  {
    if o.Some? then o.value else ""
  }

  /** The fragment a chunk carries on a channel, absent read as empty. */
  function Field(c: Chunk, ch: Channel): string
  {
    match ch
    case ReasoningChannel => OrEmpty(c.reasoning)
    case AnswerChannel => OrEmpty(c.content)
  }

  /** `"".join(parts)`: the join is empty exactly when every part is, and a
      single part joins to itself. */
  function Concat(parts: seq<string>): (r: string)
    ensures r == "" <==> forall k :: 0 <= k < |parts| ==> parts[k] == ""
    ensures |parts| == 1 ==> r == parts[0]
  {
    if parts == [] then "" else Concat(parts[..|parts| - 1]) + parts[|parts| - 1]
  }

  /** Reference definition of a channel's text: every chunk's fragment on that
      channel, in arrival order. */
  function ChannelText(cs: seq<Chunk>, ch: Channel): string
  {
    if cs == [] then "" else ChannelText(cs[..|cs| - 1], ch) + Field(cs[|cs| - 1], ch)
  }

  /** The list a loop accumulates: the non-empty fragments on a channel, in order. */
  function Fragments(cs: seq<Chunk>, ch: Channel): (fs: seq<string>)
  {
    if cs == [] then []
    else
      var f := Field(cs[|cs| - 1], ch);
      Fragments(cs[..|cs| - 1], ch) + (if f != "" then [f] else [])
  }

  /** The last finish reason that is not None, or None when no chunk has one. */
  function LastFinish(cs: seq<Chunk>): Option<string>
  {
    if cs == [] then None
    else if cs[|cs| - 1].finish.Some? then cs[|cs| - 1].finish
    else LastFinish(cs[..|cs| - 1])
  }

  /** `finish_reason` ends as None exactly when no chunk carried one, and
      otherwise as the reason of a chunk after which no chunk carried one. */
  lemma {:induction false} LastFinishIsLast(cs: seq<Chunk>)
    ensures LastFinish(cs).None? <==> forall k :: 0 <= k < |cs| ==> cs[k].finish.None?
    ensures LastFinish(cs).Some? ==>
      exists k :: 0 <= k < |cs| && cs[k].finish == LastFinish(cs) &&
                  forall m :: k < m < |cs| ==> cs[m].finish.None?
  {
    if cs != [] && cs[|cs| - 1].finish.None? {
      var init := cs[..|cs| - 1];
      LastFinishIsLast(init);
      assert forall k :: 0 <= k < |init| ==> init[k] == cs[k];
      if LastFinish(cs).Some? {
        var k :| 0 <= k < |init| && init[k].finish == LastFinish(init) &&
                 forall m :: k < m < |init| ==> init[m].finish.None?;
        assert cs[k].finish == LastFinish(cs);
      }
    }
  }

  /** The text of the first pass: the reasoning channel followed by the answer channel. */
  function FirstPassText(cs: seq<Chunk>): string
  {
    ChannelText(cs, ReasoningChannel) + ChannelText(cs, AnswerChannel)
  }

  lemma {:induction false} ConcatAppend(a: seq<string>, b: seq<string>)
    ensures Concat(a + b) == Concat(a) + Concat(b)
    decreases |b|
  {
    if b == [] {
      assert a + b == a;
    } else {
      var init := b[..|b| - 1];
      var ab := a + b;
      assert ab[..|ab| - 1] == a + init;
      assert ab[|ab| - 1] == b[|b| - 1];
      assert Concat(ab) == Concat(a + init) + b[|b| - 1];
      ConcatAppend(a, init);
      assert Concat(b) == Concat(init) + b[|b| - 1];
    }
  }

  /** Dropping empty fragments does not change the joined text, so the text a
      loop joins is the channel's reference text. */
  lemma {:induction false} FragmentsJoin(cs: seq<Chunk>, ch: Channel)
    ensures Concat(Fragments(cs, ch)) == ChannelText(cs, ch)
  {
    if cs != [] {
      var init := cs[..|cs| - 1];
      var f := Field(cs[|cs| - 1], ch);
      FragmentsJoin(init, ch);
      ConcatAppend(Fragments(init, ch), if f != "" then [f] else []);
    }
  }

  /** The accumulated list holds only non-empty fragments, so it is empty exactly
      when the channel carried no text: the header is printed iff there is text. */
  lemma {:induction false} FragmentsEmpty(cs: seq<Chunk>, ch: Channel)
    ensures Fragments(cs, ch) == [] <==> ChannelText(cs, ch) == ""
  {
    if cs != [] {
      var init := cs[..|cs| - 1];
      FragmentsEmpty(init, ch);
    }
  }

  /** A channel's text distributes over consecutive runs of chunks. */
  lemma {:induction false} ChannelTextAppend(a: seq<Chunk>, b: seq<Chunk>, ch: Channel)
    ensures ChannelText(a + b, ch) == ChannelText(a, ch) + ChannelText(b, ch)
    decreases |b|
  {
    if b == [] {
      assert a + b == a;
    } else {
      assert (a + b)[..|a + b| - 1] == a + b[..|b| - 1];
      ChannelTextAppend(a, b[..|b| - 1], ch);
    }
  }

  /** A channel's text depends on that channel alone: two streams that agree on
      one channel give the same text for it, whatever the other channel holds. */
  lemma {:induction false} ChannelTextOnlyReadsChannel(cs: seq<Chunk>, ds: seq<Chunk>, ch: Channel)
    requires |cs| == |ds|
    requires forall k :: 0 <= k < |cs| ==> Field(cs[k], ch) == Field(ds[k], ch)
    ensures ChannelText(cs, ch) == ChannelText(ds, ch)
  {
    if cs != [] {
      var n := |cs| - 1;
      assert forall k :: 0 <= k < n ==> cs[..n][k] == cs[k] && ds[..n][k] == ds[k];
      ChannelTextOnlyReadsChannel(cs[..n], ds[..n], ch);
    }
  }

  /** The accumulation loop of `stream_first_pass`. The lists the source
      joins at the end are kept as the strings they join to (`FragmentsJoin`
      relates the two); `live` is the text printed under "Thinking: " while
      the stream runs, and `headerShown` whether that header was printed. */
  method FirstPass(response: Response) returns (r: FirstPassResult, live: string, headerShown: bool)
    ensures r.thinkingText == ChannelText(Delivered(response), ReasoningChannel)
    ensures r.answerSeed == ChannelText(Delivered(response), AnswerChannel)
    ensures r.fullText == r.thinkingText + r.answerSeed
    ensures r.finishReason == LastFinish(Delivered(response))
    ensures live == r.thinkingText
    ensures headerShown <==> r.thinkingText != ""
  {
    var cs := Delivered(response);
    var thinking := "";
    var seed := "";
    var finish: Option<string> := None;
    live := "";
    headerShown := false;
    var i := 0;
    while i < |cs|
      invariant 0 <= i <= |cs|
      invariant thinking == ChannelText(cs[..i], ReasoningChannel)
      invariant seed == ChannelText(cs[..i], AnswerChannel)
      invariant finish == LastFinish(cs[..i])
      invariant live == thinking
      invariant headerShown <==> thinking != ""
    {
      assert cs[..i + 1][..i] == cs[..i];
      var rc := OrEmpty(cs[i].reasoning);
      if rc != "" {
        headerShown := true;
        live := live + rc;
        thinking := thinking + rc;
      }
      var c := OrEmpty(cs[i].content);
      if c != "" {
        seed := seed + c;
      }
      if cs[i].finish.Some? {
        finish := cs[i].finish;
      }
      i := i + 1;
    }
    assert cs[..i] == cs;
    r := FirstPassResult(thinking + seed, finish, thinking, seed);
  }

  /** The accumulation loop of `stream_second_pass`, and equally of the
      zero-budget branch of `main`: answer text only, each fragment printed as
      it arrives; reasoning fragments are ignored. */
  method AnswerPass(response: Response) returns (additional: string)
    ensures additional == ChannelText(Delivered(response), AnswerChannel)
  {
    var cs := Delivered(response);
    additional := "";
    var i := 0;
    while i < |cs|
      invariant 0 <= i <= |cs|
      invariant additional == ChannelText(cs[..i], AnswerChannel)
    {
      assert cs[..i + 1][..i] == cs[..i];
      var c := OrEmpty(cs[i].content);
      if c != "" {
        additional := additional + c;
      }
      i := i + 1;
    }
    assert cs[..i] == cs;
  }
}
