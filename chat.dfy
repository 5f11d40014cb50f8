/**
 * The chat relay (pages/api/chat.ts): the system-prompt default, the history
 * window that fits the model's token limit, the record logged for each exchange
 * and the byte concatenation that materialises the logged copy of the stream.
 *
 * Token counting is a parameter `count`: the tokenizer is not part of this model.
 */
module Chat {
  import opened Wrappers
  import opened Json
  import opened Identities

  /** Tokens kept free for the model's reply. */
  const Reserve: int := 1000

  datatype Role = User | Assistant | System

  datatype Message = Message(role: Role, content: string)

  /** The fields of the selected model that the relay and the dashboard use. */
  datatype Model = Model(id: string, name: string, tokenLimit: int)

  type Byte = bv8

  /** The system prompt sent: the caller's, unless it is absent or empty. */
  function PromptToSend(prompt: Option<string>, defaultPrompt: string): (p: string)
    ensures prompt.Some? && prompt.value != "" ==> p == prompt.value
    ensures prompt.None? || prompt.value == "" ==> p == defaultPrompt
  {
    if prompt.Some? && prompt.value != "" then prompt.value else defaultPrompt
  }

  /** Total tokens of the messages' contents. */
  function SumTokens(count: string -> nat, s: seq<Message>): nat {
    if s == [] then 0 else count(s[0].content) + SumTokens(count, s[1..])
  }

  /** The window `s`, sent with a system prompt of `promptTokens` tokens, leaves the reserve free. */
  predicate Fits(count: string -> nat, promptTokens: nat, s: seq<Message>, tokenLimit: int) {
    promptTokens + SumTokens(count, s) + Reserve <= tokenLimit
  }

  lemma {:induction false} SumTokensAppend(count: string -> nat, a: seq<Message>, b: seq<Message>)
    ensures SumTokens(count, a + b) == SumTokens(count, a) + SumTokens(count, b)
  {
    if a == [] {
      assert a + b == b;
    } else {
      assert (a + b)[1..] == a[1..] + b;
      SumTokensAppend(count, a[1..], b);
    }
  }

  /** Extending a suffix by the message just before it adds that message's tokens. */
  lemma SumTokensStep(count: string -> nat, messages: seq<Message>, i: nat)
    requires i < |messages|
    ensures SumTokens(count, messages[i..]) == count(messages[i].content) + SumTokens(count, messages[i + 1..])
  {
    assert messages[i..][1..] == messages[i + 1..];
  }

  /** A longer suffix never costs fewer tokens, so fitting suffixes are closed under shortening. */
  lemma SuffixFitsShorter(count: string -> nat, promptTokens: nat, messages: seq<Message>,
                          tokenLimit: int, j: nat, k: nat)
    requires j <= k <= |messages|
    requires Fits(count, promptTokens, messages[j..], tokenLimit)
    ensures Fits(count, promptTokens, messages[k..], tokenLimit)
  {
    assert messages[j..] == messages[j..k] + messages[k..];
    SumTokensAppend(count, messages[j..k], messages[k..]);
  }

  /**
   * The greedy window is the longest fitting suffix: when the window starts at
   * `start` and the message just before it does not fit, no longer suffix fits.
   */
  lemma WindowIsLongestFittingSuffix(count: string -> nat, promptTokens: nat,
                                     messages: seq<Message>, tokenLimit: int, start: nat)
    requires 0 < start <= |messages|
    requires !Fits(count, promptTokens, messages[start - 1..], tokenLimit)
    ensures forall j :: 0 <= j < start ==> !Fits(count, promptTokens, messages[j..], tokenLimit)
  {
    forall j | 0 <= j < start
      ensures !Fits(count, promptTokens, messages[j..], tokenLimit)
    {
      if Fits(count, promptTokens, messages[j..], tokenLimit) {
        SuffixFitsShorter(count, promptTokens, messages, tokenLimit, j, start - 1);
      }
    }
  }

  /**
   * The history loop of the relay: walk the messages newest first, stop at the
   * first one that would overflow the limit, and prepend each accepted one.
   * The result starts at index `start`.
   */
  method TakeFitting(count: string -> nat, promptTokens: nat, messages: seq<Message>, tokenLimit: int)
    returns (selected: seq<Message>, ghost start: nat)
    ensures start <= |messages| && selected == messages[start..]
    ensures selected != [] ==> Fits(count, promptTokens, selected, tokenLimit)
    ensures start > 0 ==> !Fits(count, promptTokens, messages[start - 1..], tokenLimit)
  {
    var tokenCount := promptTokens;
    selected := [];
    var i := |messages| - 1;
    while i >= 0
      invariant -1 <= i < |messages|
      invariant selected == messages[i + 1..]
      invariant tokenCount == promptTokens + SumTokens(count, selected)
      invariant selected != [] ==> Fits(count, promptTokens, selected, tokenLimit)
      decreases i
    {
      var message := messages[i];
      var tokens := count(message.content);
      SumTokensStep(count, messages, i);
      if tokenCount + tokens + Reserve > tokenLimit {
        return selected, i + 1;
      }
      tokenCount := tokenCount + tokens;
      selected := [message] + selected;
      assert selected == messages[i..];
      i := i - 1;
    }
    return selected, 0;
  }

  /**
   * The prompt default and the history window of the relay. The window is a
   * suffix of the messages that fits the budget, and the message before it
   * does not fit.
   */
  method SelectWindow(count: string -> nat, prompt: Option<string>, defaultPrompt: string,
                      messages: seq<Message>, tokenLimit: int)
    returns (promptToSend: string, selected: seq<Message>)
    ensures promptToSend == PromptToSend(prompt, defaultPrompt)
    // a contiguous suffix, in chronological order
    ensures |selected| <= |messages| && selected == messages[|messages| - |selected|..]
    // within budget whenever anything is selected
    ensures selected != [] ==> Fits(count, count(promptToSend), selected, tokenLimit)
    // stopped at the first overflow: the next older message does not fit
    ensures |selected| < |messages| ==>
              !Fits(count, count(promptToSend), messages[|messages| - |selected| - 1..], tokenLimit)
    // a newest message that does not fit alone leaves the window empty
    ensures (messages != [] && !Fits(count, count(promptToSend), messages[|messages| - 1..], tokenLimit))
              ==> selected == []
  {
    promptToSend := prompt.GetOr("");
    if promptToSend == "" {
      promptToSend := defaultPrompt;
    }
    ghost var start;
    selected, start := TakeFitting(count, count(promptToSend), messages, tokenLimit);
    assert start == |messages| - |selected|;
    if messages != [] && selected != [] {
      SuffixFitsShorter(count, count(promptToSend), messages, tokenLimit, start, |messages| - 1);
    }
  }

  /** The in-order concatenation of the chunks read from the stream. */
  function Concat(chunks: seq<seq<Byte>>): seq<Byte> {
    if chunks == [] then [] else Concat(chunks[..|chunks| - 1]) + chunks[|chunks| - 1]
  }

  /** The number of bytes in all the chunks together. */
  function TotalLength(chunks: seq<seq<Byte>>): nat {
    if chunks == [] then 0 else TotalLength(chunks[..|chunks| - 1]) + |chunks[|chunks| - 1]|
  }

  lemma {:induction false} ConcatLength(chunks: seq<seq<Byte>>)
    ensures |Concat(chunks)| == TotalLength(chunks)
  {
    if chunks != [] {
      ConcatLength(chunks[..|chunks| - 1]);
    }
  }

  lemma {:induction false} ConcatAppend(a: seq<seq<Byte>>, b: seq<seq<Byte>>)
    ensures Concat(a + b) == Concat(a) + Concat(b)
    decreases |b|
  {
    if b == [] {
      assert a + b == a;
    } else {
      var c := b[..|b| - 1];
      assert (a + b)[..|a + b| - 1] == a + c;
      ConcatAppend(a, c);
    }
  }

  /** Copy `chunk` into `buffer` at `pos`, leaving the bytes before and after it as they were. */
  method CopyAt(buffer: array<Byte>, pos: nat, chunk: seq<Byte>)
    requires pos + |chunk| <= buffer.Length
    modifies buffer
    ensures buffer[..pos + |chunk|] == old(buffer[..pos]) + chunk
    ensures buffer[pos + |chunk|..] == old(buffer[pos + |chunk|..])
  {
    for k := 0 to |chunk|
      invariant buffer[..pos + k] == old(buffer[..pos]) + chunk[..k]
      invariant buffer[pos + |chunk|..] == old(buffer[pos + |chunk|..])
    {
      buffer[pos + k] := chunk[k];
      assert chunk[..k + 1] == chunk[..k] + [chunk[k]];
    }
    assert chunk[..|chunk|] == chunk;
  }

  /**
   * The copy loop of `readStreamToString`: allocate a buffer of the summed
   * chunk lengths and copy each chunk in at the moving position `pos`.
   */
  method CollectBytes(chunks: seq<seq<Byte>>) returns (bytes: seq<Byte>)
    ensures |bytes| == TotalLength(chunks)
    ensures bytes == Concat(chunks)
  {
    var totalLength := TotalLength(chunks);
    ConcatLength(chunks);
    var allBytes := new Byte[totalLength];
    var pos := 0;
    for j := 0 to |chunks|
      invariant pos == TotalLength(chunks[..j]) <= totalLength
      invariant allBytes[..pos] == Concat(chunks[..j])
    {
      var chunk := chunks[j];
      assert chunks[..j + 1] == chunks[..j] + [chunk];
      ConcatAppend(chunks[..j + 1], chunks[j + 1..]);
      assert chunks[..j + 1] + chunks[j + 1..] == chunks;
      assert Concat(chunks[..j + 1]) == Concat(chunks[..j]) + chunk;
      ConcatLength(chunks[..j + 1]);
      CopyAt(allBytes, pos, chunk);
      pos := pos + |chunk|;
    }
    assert chunks[..|chunks|] == chunks;
    bytes := allBytes[..];
  }

  /** One entry of a chat record's `questionAnswerTuple`. */
  function Entry(kind: string, info: Value, message: string): Value {
    JObj(map["who" := JObj(map["kind" := JStr(kind), "info" := info]), "message" := JStr(message)])
  }

  /** The model's configuration as it is stored in a chat record. */
  function ModelJson(m: Model): Value {
    JObj(map["id" := JStr(m.id), "name" := JStr(m.name), "tokenLimit" := JNum(m.tokenLimit as real)])
  }

  /**
   * The document logged for one exchange: the user's turn (the content of the
   * last message of the unwindowed list) and the model's full answer. With no
   * messages, reading the last message's content throws and nothing is logged.
   */
  function LogDocument(uuid: string, identity: Option<Identity>, model: Model,
                       messages: seq<Message>, answer: string): (doc: Option<Value>)
    ensures doc.Some? <==> messages != []
    ensures doc.Some? ==> Prop(doc, "id") == Some(JStr(uuid))
    ensures doc.Some? ==> IsArray(Prop(doc, "questionAnswerTuple"))
                          && |Prop(doc, "questionAnswerTuple").value.items| == 2
  {
    if messages == [] then None
    else
      // an absent identity is stored as null here; the source stores `undefined`, which drops
      // the key, and either way the dashboard reads no user fields from it
      var userInfo := if identity.Some? then InfoJson(identity.value) else JNull;
      Some(JObj(map[
        "id" := JStr(uuid),
        "questionAnswerTuple" := JArr([
          Entry("user", userInfo, messages[|messages| - 1].content),
          Entry("llm", ModelJson(model), answer)])]))
  }
}
