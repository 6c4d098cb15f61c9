/**
 Helpers that turn chat messages into the request shapes an Anthropic (Claude)
 client sends, and that give the context-window size of each Claude model:

 - a fixed table from model name to context size, and its lookup;
 - the split of a conversation into a structured message list plus a separate
   system prompt;
 - the rendering of a conversation as one "Human:/Assistant:" prompt string.
 */
module AnthropicUtils {
  import opened ChatTypes

  /** What the helpers reject; the error text is not modelled. */
  datatype Error =
    | UnknownModel(name: string)     // a model name that is not in the table
    | EmptyInput                     // an empty conversation given to the prompt rendering
    | UnsupportedRole                // a FUNCTION turn given to the prompt rendering
    | UnknownRole(role: MessageRole) // a role the prompt rendering does not know

  datatype Result<T> = Ok(value: T) | Err(error: Error)

  const HumanPrefix: string := "\n\nHuman:"
  const AssistantPrefix: string := "\n\nAssistant:"

  // ---------------------------------------------------------------------------
  // Context-size lookup
  // ---------------------------------------------------------------------------

  /** Maximum context size, in tokens, of each known Claude model. */
  const ClaudeModels: map<string, nat> := map[
    "claude-instant-1" := 100000,
    "claude-instant-1.2" := 100000,
    "claude-2" := 100000,
    "claude-2.0" := 100000,
    "claude-2.1" := 200000,
    "claude-3-opus-20240229" := 180000,
    "claude-3-sonnet-20240229" := 180000,
    "claude-3-haiku-20240307" := 180000
  ]

  /** The context size of a model: its table entry, or an error naming it when
      the table has none. Every size is at least 100000 tokens. */
  function ModelNameToContextSize(modelname: string): (r: Result<nat>)
    ensures r.Ok? <==> modelname in ClaudeModels
    ensures r.Ok? ==> r.value == ClaudeModels[modelname] && r.value >= 100000
    ensures r.Err? ==> r.error == UnknownModel(modelname)
  {
    if modelname !in ClaudeModels then
      Err(UnknownModel(modelname))
    else
      Ok(ClaudeModels[modelname])
  }

  // ---------------------------------------------------------------------------
  // Structured messages with a separate system prompt
  // ---------------------------------------------------------------------------

  /** One entry of the structured message list: a role value and a content. */
  datatype AnthropicMessage = AnthropicMessage(role: string, content: string)

  /** The structured entry for a (non-SYSTEM) message. */
  function Entry(m: ChatMessage): AnthropicMessage {
    AnthropicMessage(RoleValue(m.role), m.content)
  }

  /** The entries of the non-SYSTEM messages of `s`, in order. */
  function NonSystemEntries(s: seq<ChatMessage>): (r: seq<AnthropicMessage>)
    ensures |r| <= |s|
  {
    if s == [] then []
    else (if s[0].role.System? then [] else [Entry(s[0])]) + NonSystemEntries(s[1..])
  }

  /** The content of the last SYSTEM message of `s`, or "" when there is none. */
  function LastSystemContent(s: seq<ChatMessage>): (r: string)
    ensures r == "" || exists k :: 0 <= k < |s| && s[k].role.System? && r == s[k].content
  {
    if s == [] then ""
    else if s[|s| - 1].role.System? then s[|s| - 1].content
    else LastSystemContent(s[..|s| - 1])
  }

  /** The number of SYSTEM messages in `s`. */
  function SystemCount(s: seq<ChatMessage>): (n: nat)
    ensures n <= |s|
  {
    if s == [] then 0 else (if s[0].role.System? then 1 else 0) + SystemCount(s[1..])
  }

  /** One pass over the conversation: SYSTEM contents overwrite the system
      prompt (the last one wins), every other message is appended as an entry. */
  method MessagesToAnthropicMessages(messages: seq<ChatMessage>)
    returns (anthropicMessages: seq<AnthropicMessage>, systemPrompt: string)
    ensures anthropicMessages == NonSystemEntries(messages)
    ensures systemPrompt == LastSystemContent(messages)
  {
    anthropicMessages := [];
    systemPrompt := "";
    for i := 0 to |messages|
      invariant anthropicMessages == NonSystemEntries(messages[..i])
      invariant systemPrompt == LastSystemContent(messages[..i])
    {
      var message := messages[i];
      assert messages[..i + 1] == messages[..i] + [message];
      assert (messages[..i] + [message])[..i] == messages[..i];
      NonSystemEntriesAppend(messages[..i], [message]);
      if message.role.System? {
        systemPrompt := message.content;
      } else {
        anthropicMessages := anthropicMessages + [Entry(message)];
      }
    }
    assert messages[..|messages|] == messages;
  }

  /** Splitting a concatenation splits each part: the entries keep input order. */
  lemma {:induction false} NonSystemEntriesAppend(a: seq<ChatMessage>, b: seq<ChatMessage>)
    ensures NonSystemEntries(a + b) == NonSystemEntries(a) + NonSystemEntries(b)
  {
    if a == [] {
      assert a + b == b;
    } else {
      assert (a + b)[1..] == a[1..] + b;
      NonSystemEntriesAppend(a[1..], b);
    }
  }

  /** There is one entry per non-SYSTEM message. */
  lemma {:induction false} NonSystemEntriesLength(s: seq<ChatMessage>)
    ensures |NonSystemEntries(s)| == |s| - SystemCount(s)
  {
    if s != [] {
      NonSystemEntriesLength(s[1..]);
    }
  }

  /** The non-SYSTEM message at index `i` lands at the position that counts the
      non-SYSTEM messages before it, unchanged apart from its role becoming its value. */
  lemma NonSystemEntriesPosition(s: seq<ChatMessage>, i: nat)
    requires i < |s| && !s[i].role.System?
    ensures i - SystemCount(s[..i]) < |NonSystemEntries(s)|
    ensures NonSystemEntries(s)[i - SystemCount(s[..i])] == Entry(s[i])
  {
    assert s == s[..i] + ([s[i]] + s[i + 1..]);
    NonSystemEntriesAppend(s[..i], [s[i]] + s[i + 1..]);
    NonSystemEntriesAppend([s[i]], s[i + 1..]);
    assert NonSystemEntries([s[i]]) == [Entry(s[i])];
    NonSystemEntriesLength(s[..i]);
  }

  /** An entry is in the list exactly when some non-SYSTEM message produced it;
      FUNCTION and other roles pass through. */
  lemma {:induction false} NonSystemEntriesMembership(s: seq<ChatMessage>, e: AnthropicMessage)
    ensures e in NonSystemEntries(s) <==> exists m :: m in s && !m.role.System? && e == Entry(m)
  {
    if s != [] {
      NonSystemEntriesMembership(s[1..], e);
      assert forall m :: m in s <==> m == s[0] || m in s[1..];
    }
  }

  /** With valid roles the structured list never holds a "system" entry. */
  lemma NoSystemEntry(s: seq<ChatMessage>)
    requires forall m :: m in s ==> m.role.Valid()
    ensures forall e :: e in NonSystemEntries(s) ==> e.role != "system"
  {
    forall e | e in NonSystemEntries(s)
      ensures e.role != "system"
    {
      NonSystemEntriesMembership(s, e);
      var m :| m in s && !m.role.System? && e == Entry(m);
      RoleValueInjective(m.role, System);
    }
  }

  /** The system prompt is the content of the last SYSTEM message. */
  lemma {:induction false} LastSystemContentWins(s: seq<ChatMessage>, j: nat)
    requires j < |s| && s[j].role.System?
    requires forall k :: j < k < |s| ==> !s[k].role.System?
    ensures LastSystemContent(s) == s[j].content
  {
    if j < |s| - 1 {
      LastSystemContentWins(s[..|s| - 1], j);
    }
  }

  /** Without a SYSTEM message the system prompt is empty. */
  lemma {:induction false} LastSystemContentNone(s: seq<ChatMessage>)
    requires forall k :: 0 <= k < |s| ==> !s[k].role.System?
    ensures LastSystemContent(s) == ""
  {
    if s != [] {
      LastSystemContentNone(s[..|s| - 1]);
    }
  }

  // ---------------------------------------------------------------------------
  // Prompt-string rendering
  // ---------------------------------------------------------------------------

  /** The roles the prompt rendering accepts. */
  predicate Supported(role: MessageRole) {
    role.User? || role.Assistant? || role.System?
  }

  predicate AllSupported(s: seq<ChatMessage>) {
    forall i :: 0 <= i < |s| ==> Supported(s[i].role)
  }

  /** One turn as prompt text: a Human or Assistant marker before the content,
      the bare content for SYSTEM; FUNCTION and unknown roles are rejected. */
  function MessageToPrompt(m: ChatMessage): (r: Result<string>)
    ensures r.Ok? <==> Supported(m.role)
    ensures m.role.User? ==> r.value == "\n\nHuman: " + m.content
    ensures m.role.Assistant? ==> r.value == "\n\nAssistant: " + m.content
    ensures m.role.System? ==> r.value == m.content
    ensures m.role.Function? ==> r.error == UnsupportedRole
    ensures m.role.Other? ==> r.error == UnknownRole(m.role)
  {
    match m.role
    case User => Ok(HumanPrefix + " " + m.content)
    case Assistant => Ok(AssistantPrefix + " " + m.content)
    case System => Ok(m.content)
    case Function => Err(UnsupportedRole)
    case Other(_) => Err(UnknownRole(m.role))
  }

  /** All turns rendered in order and joined with no separator; the first turn
      that cannot be rendered aborts the whole rendering with its error. */
  function RenderTurns(s: seq<ChatMessage>): (r: Result<string>)
    ensures r.Ok? <==> AllSupported(s)
    ensures r.Err? ==> r.error.UnsupportedRole? || r.error.UnknownRole?
  {
    if s == [] then Ok("")
    else
      match MessageToPrompt(s[0])
      case Err(e) => Err(e)
      case Ok(p) =>
        match RenderTurns(s[1..])
        case Err(e) => Err(e)
        case Ok(q) => Ok(p + q)
  }

  /** The synthetic empty ASSISTANT turn that makes the prompt end with a cue. */
  const AssistantCue: ChatMessage := ChatMessage(Assistant, "")

  /** The working copy that is rendered: the conversation itself when it ends
      with an ASSISTANT turn, otherwise the conversation plus an empty one. The
      caller's conversation is a value and stays as it was. */
  function EndWithAssistant(messages: seq<ChatMessage>): (turns: seq<ChatMessage>)
    requires messages != []
    ensures |messages| <= |turns| <= |messages| + 1
    ensures turns[..|messages|] == messages
    ensures turns[|turns| - 1].role.Assistant?
    ensures |turns| == |messages| + 1 <==> !messages[|messages| - 1].role.Assistant?
    ensures |turns| == |messages| + 1 ==> turns[|messages|] == AssistantCue
  {
    if messages[|messages| - 1].role != Assistant then messages + [AssistantCue] else messages
  }

  /** The whole conversation as one prompt. An empty conversation is rejected;
      one that does not end with an ASSISTANT turn gets an empty one appended. */
  function MessagesToAnthropicPrompt(messages: seq<ChatMessage>): (r: Result<string>)
    ensures r == Err(EmptyInput) <==> messages == []
    ensures r.Ok? <==> messages != [] && AllSupported(messages)
    ensures r.Err? && messages != [] ==> r.error.UnsupportedRole? || r.error.UnknownRole?
  {
    if |messages| == 0 then
      Err(EmptyInput)
    else
      var turns := EndWithAssistant(messages);
      assert AllSupported(turns) <==> AllSupported(messages) by {
        assert forall i :: 0 <= i < |messages| ==> turns[i] == turns[..|messages|][i];
      }
      RenderTurns(turns)
  }

  /** Rendering a concatenation renders each part: on success the two texts are
      joined, otherwise the first part's error wins over the second's. */
  lemma {:induction false} RenderTurnsAppend(a: seq<ChatMessage>, b: seq<ChatMessage>)
    ensures RenderTurns(a + b) ==
      if RenderTurns(a).Err? then RenderTurns(a)
      else if RenderTurns(b).Err? then RenderTurns(b)
      else Ok(RenderTurns(a).value + RenderTurns(b).value)
  {
    if a == [] {
      assert a + b == b;
      if RenderTurns(b).Ok? {
        assert "" + RenderTurns(b).value == RenderTurns(b).value;
      }
    } else {
      assert (a + b)[0] == a[0];
      assert (a + b)[1..] == a[1..] + b;
      RenderTurnsAppend(a[1..], b);
      if MessageToPrompt(a[0]).Ok? && RenderTurns(a[1..]).Ok? && RenderTurns(b).Ok? {
        var p, x, y := MessageToPrompt(a[0]).value, RenderTurns(a[1..]).value, RenderTurns(b).value;
        assert p + (x + y) == (p + x) + y;
      }
    }
  }

  /** Appending a renderable turn to a renderable conversation appends its text. */
  lemma RenderTurnsSnoc(a: seq<ChatMessage>, m: ChatMessage)
    requires AllSupported(a) && Supported(m.role)
    ensures RenderTurns(a + [m]) == Ok(RenderTurns(a).value + MessageToPrompt(m).value)
  {
    RenderTurnsAppend(a, [m]);
    RenderTurnsSingle(m);
  }

  /** A one-turn conversation renders as that turn. */
  lemma RenderTurnsSingle(m: ChatMessage)
    ensures RenderTurns([m]) == MessageToPrompt(m)
  {
    assert [m][1..] == [];
    if MessageToPrompt(m).Ok? {
      assert MessageToPrompt(m).value + "" == MessageToPrompt(m).value;
    }
  }

  /** The error of a failed rendering is that of the first turn it cannot render. */
  lemma {:induction false} RenderTurnsFirstError(s: seq<ChatMessage>, j: nat)
    requires j < |s| && !Supported(s[j].role)
    requires AllSupported(s[..j])
    ensures RenderTurns(s) == MessageToPrompt(s[j])
  {
    if j > 0 {
      assert s[1..][..j - 1] == s[1..j];
      RenderTurnsFirstError(s[1..], j - 1);
    }
  }

  /** The appended cue renders as a bare Assistant marker. */
  lemma AssistantCueText()
    ensures MessageToPrompt(AssistantCue) == Ok("\n\nAssistant: ")
  {
    assert MessageToPrompt(AssistantCue).value == "\n\nAssistant: " + "";
    assert "\n\nAssistant: " + "" == "\n\nAssistant: ";
  }

  /** A rejected non-empty conversation fails with the error of its first turn
      that cannot be rendered. */
  lemma PromptFirstError(messages: seq<ChatMessage>, j: nat)
    requires j < |messages| && !Supported(messages[j].role)
    requires AllSupported(messages[..j])
    ensures MessagesToAnthropicPrompt(messages) == MessageToPrompt(messages[j])
  {
    var turns := EndWithAssistant(messages);
    assert turns[..j] == messages[..j];
    RenderTurnsFirstError(turns, j);
  }

  /** A successful prompt is the rendered conversation followed by an empty
      Assistant turn unless the conversation already ends with an ASSISTANT turn. */
  lemma PromptLayout(messages: seq<ChatMessage>)
    requires messages != [] && AllSupported(messages)
    ensures RenderTurns(messages).Ok?
    ensures MessagesToAnthropicPrompt(messages) == Ok(RenderTurns(messages).value +
      if messages[|messages| - 1].role.Assistant? then "" else "\n\nAssistant: ")
  {
    var turns := EndWithAssistant(messages);
    var body := RenderTurns(messages);
    assert MessagesToAnthropicPrompt(messages) == RenderTurns(turns);
    if !messages[|messages| - 1].role.Assistant? {
      assert turns == messages + [AssistantCue];
      RenderTurnsSnoc(messages, AssistantCue);
      AssistantCueText();
    } else {
      assert turns == messages;
      assert body.value + "" == body.value;
    }
  }

  /** A successful prompt always ends with an Assistant turn: the last message's
      own turn when it is an ASSISTANT message, an empty one otherwise. */
  lemma PromptEndsWithAssistantTurn(messages: seq<ChatMessage>)
    requires MessagesToAnthropicPrompt(messages).Ok?
    ensures var p := MessagesToAnthropicPrompt(messages).value;
            var last := messages[|messages| - 1];
            var tail := "\n\nAssistant: " + if last.role.Assistant? then last.content else "";
            |tail| <= |p| && p[|p| - |tail|..] == tail
  {
    var last := messages[|messages| - 1];
    PromptLayout(messages);
    if last.role.Assistant? {
      var init := messages[..|messages| - 1];
      assert messages == init + [last];
      RenderTurnsSnoc(init, last);
    }
  }

  /** Examples: a known model and an unknown one. */
  lemma ContextSizeExamples()
    ensures ModelNameToContextSize("claude-2.1") == Ok(200000)
    ensures ModelNameToContextSize("not-a-model") == Err(UnknownModel("not-a-model"))
  {
  }

  /** Examples: the empty conversation, and one with a system prompt. */
  lemma AnthropicMessagesExamples()
    ensures NonSystemEntries([]) == [] && LastSystemContent([]) == ""
    ensures var s := [ChatMessage(System, "s"), ChatMessage(User, "u"), ChatMessage(Assistant, "a")];
            NonSystemEntries(s) == [AnthropicMessage("user", "u"), AnthropicMessage("assistant", "a")]
            && LastSystemContent(s) == "s"
  {
    var s := [ChatMessage(System, "s"), ChatMessage(User, "u"), ChatMessage(Assistant, "a")];
    assert s[..2][..1] == [ChatMessage(System, "s")];
  }

  /** Examples: an empty conversation, a cue appended after a Human turn, none
      after an Assistant turn, and a rejected FUNCTION turn. */
  lemma PromptExamples()
    ensures MessagesToAnthropicPrompt([]) == Err(EmptyInput)
    ensures MessagesToAnthropicPrompt([ChatMessage(User, "hi")]) == Ok("\n\nHuman: hi\n\nAssistant: ")
    ensures MessagesToAnthropicPrompt([ChatMessage(User, "hi"), ChatMessage(Assistant, "yo")])
            == Ok("\n\nHuman: hi\n\nAssistant: yo")
    ensures MessagesToAnthropicPrompt([ChatMessage(Function, "x")]) == Err(UnsupportedRole)
  {
    var hi, yo := ChatMessage(User, "hi"), ChatMessage(Assistant, "yo");
    PromptLayout([hi]);
    RenderTurnsSingle(hi);
    assert "\n\nHuman: " + "hi" + "\n\nAssistant: " == "\n\nHuman: hi\n\nAssistant: ";
    PromptLayout([hi, yo]);
    assert [hi, yo] == [hi] + [yo];
    RenderTurnsSnoc([hi], yo);
    assert "\n\nHuman: " + "hi" + ("\n\nAssistant: " + "yo") + "" == "\n\nHuman: hi\n\nAssistant: yo";
    var f := ChatMessage(Function, "x");
    assert EndWithAssistant([f]) == [f, AssistantCue];
    RenderTurnsFirstError([f, AssistantCue], 0);
  }
}
