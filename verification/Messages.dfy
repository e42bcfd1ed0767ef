/** The conversation's neutral shapes and their estimated size. */
module Messages {
  import opened Wrappers
  import opened Text

  datatype ToolCall = ToolCall(id: Text, name: Text, arguments: Text)

  datatype ImageBlock = ImageBlock(mediaType: Text, dataBase64: Text)

  datatype Message =
    | System(content: Text)
    | User(content: Text)
    | Assistant(text: Option<Text>, toolCalls: seq<ToolCall>)
    | Tool(callId: Text, name: Text, output: Text, images: seq<ImageBlock>)

  datatype Usage = Usage(input: nat, output: nat, cacheRead: nat, cacheWrite: nat)

  datatype Stop = ModelFinished | MaxRequests | WallClock | NoProgress | ContextExhausted | ModelError

  datatype Response = Response(text: Option<Text>, toolCalls: seq<ToolCall>, usage: Usage, stop: Stop, latencyMs: nat)

  datatype ToolResult = ToolResult(callId: Text, name: Text, content: Text, images: seq<ImageBlock>, ok: bool)

  /** Identity of a call: its name and its raw arguments. */
  function Signature(c: ToolCall): Text { c.name + Bytes(" ") + c.arguments }

  // ----- Size -----

  /** Four bytes to the token, rounded down, plus one. */
  function EstimateTokens(t: Text): nat { |t| / 4 + 1 }

  function SignatureTokens(calls: seq<ToolCall>): nat
  {
    if calls == [] then 0 else EstimateTokens(Signature(calls[0])) + SignatureTokens(calls[1..])
  }

  function ImageTokens(images: seq<ImageBlock>): nat
  {
    if images == [] then 0 else |images[0].dataBase64| / 4 + ImageTokens(images[1..])
  }

  function MessageTokens(m: Message): nat
  {
    match m
    case System(content) => EstimateTokens(content)
    case User(content) => EstimateTokens(content)
    case Assistant(text, calls) => (if text.Some? then EstimateTokens(text.value) else 0) + SignatureTokens(calls)
    case Tool(_, name, output, images) => EstimateTokens(output) + EstimateTokens(name) + ImageTokens(images)
  }

  function Tokens(ms: seq<Message>): nat
  {
    if ms == [] then 0 else MessageTokens(ms[0]) + Tokens(ms[1..])
  }

  lemma {:induction false} TokensConcat(a: seq<Message>, b: seq<Message>)
    ensures Tokens(a + b) == Tokens(a) + Tokens(b)
  {
    if a == [] {
      assert a + b == b;
    } else {
      TokensConcat(a[1..], b);
      assert (a + b)[1..] == a[1..] + b;
    }
  }

  /** The size of everything but the message at `i`. */
  function TokensBut(ms: seq<Message>, i: nat): nat
    requires i < |ms|
  {
    Tokens(ms[..i]) + Tokens(ms[i + 1..])
  }

  lemma {:induction false} TokensAt(ms: seq<Message>, i: nat)
    requires i < |ms|
    ensures Tokens(ms) == TokensBut(ms, i) + MessageTokens(ms[i])
  {
    assert ms == ms[..i] + ([ms[i]] + ms[i + 1..]);
    TokensConcat(ms[..i], [ms[i]] + ms[i + 1..]);
    TokensConcat([ms[i]], ms[i + 1..]);
  }

  lemma {:induction false} TokensUpdate(ms: seq<Message>, i: nat, m: Message)
    requires i < |ms|
    ensures Tokens(ms[i := m]) == TokensBut(ms, i) + MessageTokens(m)
    ensures TokensBut(ms[i := m], i) == TokensBut(ms, i)
  {
    var after := ms[i := m];
    assert after[..i] == ms[..i] && after[i + 1..] == ms[i + 1..];
    TokensAt(after, i);
  }

  // ----- Squeezing one message -----

  /** The part of a message that compression may shorten. */
  function Body(m: Message): Option<Text>
  {
    match m
    case System(content) => Some(content)
    case User(content) => Some(content)
    case Assistant(text, _) => text
    case Tool(_, _, output, _) => Some(output)
  }

  /** The size of the part that compression leaves alone: call signatures, or a tool's name
      and images. */
  function FixedTokens(m: Message): nat
  {
    match m
    case System(_) => 0
    case User(_) => 0
    case Assistant(_, calls) => SignatureTokens(calls)
    case Tool(_, name, _, images) => EstimateTokens(name) + ImageTokens(images)
  }

  /** Bounds one message: its text is compressed, and a call or the identity of a result is
      kept whole. */
  function SqueezeMessage(m: Message, limit: nat): Message
  {
    match m
    case System(content) => User(CompressOutput(content, limit))
    case User(content) => User(CompressOutput(content, limit))
    case Assistant(text, calls) =>
      Assistant(if text.Some? then Some(CompressOutput(text.value, limit)) else None, calls)
    case Tool(id, name, output, images) => Tool(id, name, CompressOutput(output, limit), images)
  }

  /** Every text in the transcript is what a Rust `str` can be. */
  predicate Utf8(m: Message)
  {
    Body(m).Some? ==> WellFormed(Body(m).value)
  }

  predicate AllUtf8(ms: seq<Message>)
  {
    forall i :: 0 <= i < |ms| ==> Utf8(ms[i])
  }

  /** Texts short enough for a 64-bit length. */
  predicate Sized(m: Message)
  {
    Body(m).Some? ==> |Body(m).value| < Pow10(COUNT_DIGITS)
  }

  lemma {:induction false} SqueezeKeepsUtf8(m: Message, limit: nat)
    requires Utf8(m)
    ensures Utf8(SqueezeMessage(m, limit))
  {
    if Body(m).Some? {
      CompressOutputWellFormed(Body(m).value, limit);
    }
  }

  /** A squeeze to `4 * keep` bytes leaves at most `keep + 28` tokens beside the fixed part. */
  lemma {:induction false} SqueezeBound(m: Message, keep: nat)
    requires Sized(m)
    ensures MessageTokens(SqueezeMessage(m, 4 * keep)) <= keep + 28 + FixedTokens(m)
    ensures FixedTokens(SqueezeMessage(m, 4 * keep)) == FixedTokens(m)
    ensures 4 * keep + 109 < Pow10(COUNT_DIGITS) ==> Sized(SqueezeMessage(m, 4 * keep))
  {
    if Body(m).Some? {
      CompressOutputBound(Body(m).value, 4 * keep);
    }
  }

  /** A squeeze that does not change the size leaves no more than `keep` tokens of text only by
      having had nothing to cut: a cut text is always larger than `keep` tokens. */
  lemma {:induction false} SqueezeEitherKeepsOrExceeds(m: Message, keep: nat)
    requires Utf8(m)
    ensures var m' := SqueezeMessage(m, 4 * keep);
            if Body(m).Some? && |Body(m).value| > 4 * keep
            then MessageTokens(m') >= keep + 22 + FixedTokens(m)
            else MessageTokens(m') == MessageTokens(m)
  {
    if Body(m).Some? && |Body(m).value| > 4 * keep {
      CompressOutputLength(Body(m).value, 4 * keep);
    }
  }
}
