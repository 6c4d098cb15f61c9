# Anthropic message helpers

A Dafny model of the helper module that the LlamaIndex Anthropic integration
uses to talk to Claude models (`llama_index/llms/anthropic/utils.py`). The
module does three things:

- **Context-size lookup.** A fixed table `CLAUDE_MODELS` maps each known Claude
  model name to its context window in tokens. A name outside the table is an
  error.
- **Structured messages.** `messages_to_anthropic_messages` walks a
  conversation once. It pulls the SYSTEM turns out into a separate system prompt,
  where the last one wins. Every other turn becomes a `{role, content}` entry,
  in input order.
- **Prompt string.** `messages_to_anthropic_prompt` renders a conversation as
  one `"\n\nHuman: …\n\nAssistant: …"` text. An empty conversation is rejected.
  If the conversation does not end with an ASSISTANT turn, an empty ASSISTANT
  turn is appended. A FUNCTION turn, or a turn with any other role, aborts the
  whole rendering.

Files:

- `chat_types.dfy` (module `ChatTypes`) holds the two fields of the client
  library's `ChatMessage` that the helpers read. It also holds `MessageRole`
  with its `.value`: the lower-case name of each of the four named members. The role type has an `Other(name)` member. It
  stands for the library's further enumeration members, so the "unknown role"
  branch can be reached.
- `anthropic_utils.dfy` (module `AnthropicUtils`) holds the module itself.
  - The table and its lookup are a `map` and a function.
  - The structured split is a method with a loop, like the source's `for` loop.
    It is proved against two specification functions: `NonSystemEntries`
    (filter and map, in order) and `LastSystemContent` (last SYSTEM content,
    or `""`).
  - The prompt rendering is a set of pure functions, like the source's list
    comprehension and `"".join`.

Errors are the variants of `Error`:

- `UnknownModel(name)` carries the offending name.
- `EmptyInput` is an empty conversation.
- `UnsupportedRole` is a FUNCTION turn.
- `UnknownRole(role)` carries the unknown role.

A rendering that fails returns only the error, never a partial string. When
several turns cannot be rendered, the first one decides the error, because the
list comprehension raises at the first bad turn. Conversations are values, so
the caller's sequence is never modified; the appended turn exists only in the
working copy `EndWithAssistant`.

## Model

| member | source | states |
|---|---|---|
| ChatTypes.RoleValue | llama-index-integrations/llms/llama-index-llms-anthropic/llama_index/llms/anthropic/utils.py:39 | the value of a role: "system", "user", "assistant", "function", or an extra member's own name |
| ChatTypes.RoleValueInjective | llama-index-integrations/llms/llama-index-llms-anthropic/llama_index/llms/anthropic/utils.py:39 | two valid roles have the same value exactly when they are the same role, so an entry's role string identifies the role |
| AnthropicUtils.ModelNameToContextSize | llama-index-integrations/llms/llama-index-llms-anthropic/llama_index/llms/anthropic/utils.py:8-27 | succeeds exactly when the name is a key of the table; then it returns that key's value, which is at least 100000; otherwise it fails with UnknownModel carrying the name |
| AnthropicUtils.NonSystemEntries | llama-index-integrations/llms/llama-index-llms-anthropic/llama_index/llms/anthropic/utils.py:35-40 | the structured list is never longer than the conversation |
| AnthropicUtils.LastSystemContent | llama-index-integrations/llms/llama-index-llms-anthropic/llama_index/llms/anthropic/utils.py:34-37 | the system prompt is "" or the content of some SYSTEM turn of the conversation |
| AnthropicUtils.MessagesToAnthropicMessages | llama-index-integrations/llms/llama-index-llms-anthropic/llama_index/llms/anthropic/utils.py:30-41 | the loop returns exactly the non-SYSTEM entries in input order and the last SYSTEM content ("" if none); no input is rejected |
| AnthropicUtils.NonSystemEntriesAppend | llama-index-integrations/llms/llama-index-llms-anthropic/llama_index/llms/anthropic/utils.py:35-40 | the entries of a concatenated conversation are the entries of the first part followed by those of the second, so the input order is kept |
| AnthropicUtils.NonSystemEntriesLength | llama-index-integrations/llms/llama-index-llms-anthropic/llama_index/llms/anthropic/utils.py:35-40 | the list has one entry per non-SYSTEM turn: its length is the conversation's length minus the number of SYSTEM turns |
| AnthropicUtils.NonSystemEntriesPosition | llama-index-integrations/llms/llama-index-llms-anthropic/llama_index/llms/anthropic/utils.py:35-40 | the non-SYSTEM turn at index i becomes the entry at index i minus the number of SYSTEM turns before it, with the role's value and the same content |
| AnthropicUtils.NonSystemEntriesMembership | llama-index-integrations/llms/llama-index-llms-anthropic/llama_index/llms/anthropic/utils.py:35-40 | an entry is in the list exactly when some non-SYSTEM turn, FUNCTION and extra roles included, produces it |
| AnthropicUtils.NoSystemEntry | llama-index-integrations/llms/llama-index-llms-anthropic/llama_index/llms/anthropic/utils.py:36-40 | with valid roles, no entry of the structured list has the role "system" |
| AnthropicUtils.LastSystemContentWins | llama-index-integrations/llms/llama-index-llms-anthropic/llama_index/llms/anthropic/utils.py:34-37 | if several SYSTEM turns occur, the system prompt is the content of the last one |
| AnthropicUtils.LastSystemContentNone | llama-index-integrations/llms/llama-index-llms-anthropic/llama_index/llms/anthropic/utils.py:34 | without a SYSTEM turn the system prompt is "" |
| AnthropicUtils.MessageToPrompt | llama-index-integrations/llms/llama-index-llms-anthropic/llama_index/llms/anthropic/utils.py:45-57 | succeeds exactly for USER, ASSISTANT and SYSTEM; USER gives "\n\nHuman: " + content, ASSISTANT gives "\n\nAssistant: " + content, SYSTEM gives the bare content; FUNCTION fails with UnsupportedRole, any other role with UnknownRole(role) |
| AnthropicUtils.RenderTurns | llama-index-integrations/llms/llama-index-llms-anthropic/llama_index/llms/anthropic/utils.py:71-72 | rendering all turns succeeds exactly when every turn has a supported role; a failure is always UnsupportedRole or UnknownRole |
| AnthropicUtils.RenderTurnsAppend | llama-index-integrations/llms/llama-index-llms-anthropic/llama_index/llms/anthropic/utils.py:71-72 | rendering a concatenation joins the two renderings in order; the first part's error wins over the second's |
| AnthropicUtils.RenderTurnsSnoc | llama-index-integrations/llms/llama-index-llms-anthropic/llama_index/llms/anthropic/utils.py:71-72 | appending a supported turn to a renderable conversation appends that turn's text |
| AnthropicUtils.RenderTurnsSingle | llama-index-integrations/llms/llama-index-llms-anthropic/llama_index/llms/anthropic/utils.py:71-72 | a one-turn conversation renders as that turn alone |
| AnthropicUtils.RenderTurnsFirstError | llama-index-integrations/llms/llama-index-llms-anthropic/llama_index/llms/anthropic/utils.py:45-72 | when turn j is the first unsupported turn, the whole rendering fails with turn j's error |
| AnthropicUtils.EndWithAssistant | llama-index-integrations/llms/llama-index-llms-anthropic/llama_index/llms/anthropic/utils.py:64-69 | the working copy starts with the whole conversation and ends with an ASSISTANT turn; it is one turn longer, that turn being an empty ASSISTANT turn, exactly when the conversation does not end with ASSISTANT |
| AnthropicUtils.MessagesToAnthropicPrompt | llama-index-integrations/llms/llama-index-llms-anthropic/llama_index/llms/anthropic/utils.py:60-72 | fails with EmptyInput exactly for the empty conversation; succeeds exactly for a non-empty conversation whose turns all have supported roles; a rejected non-empty conversation fails with UnsupportedRole or UnknownRole |
| AnthropicUtils.PromptFirstError | llama-index-integrations/llms/llama-index-llms-anthropic/llama_index/llms/anthropic/utils.py:45-72 | when turn j is the first turn with an unsupported role, the whole prompt fails with turn j's error: UnsupportedRole for FUNCTION, UnknownRole(role) otherwise |
| AnthropicUtils.AssistantCueText | llama-index-integrations/llms/llama-index-llms-anthropic/llama_index/llms/anthropic/utils.py:64-69 | the appended empty ASSISTANT turn renders as "\n\nAssistant: " |
| AnthropicUtils.PromptLayout | llama-index-integrations/llms/llama-index-llms-anthropic/llama_index/llms/anthropic/utils.py:64-72 | a successful prompt is the in-order rendering of the conversation, followed by "\n\nAssistant: " exactly when the last turn is not ASSISTANT |
| AnthropicUtils.PromptEndsWithAssistantTurn | llama-index-integrations/llms/llama-index-llms-anthropic/llama_index/llms/anthropic/utils.py:64-72 | a successful prompt ends with "\n\nAssistant: " followed by the last turn's content if that turn is ASSISTANT, or by nothing otherwise |
| AnthropicUtils.ContextSizeExamples | llama-index-integrations/llms/llama-index-llms-anthropic/llama_index/llms/anthropic/utils.py:8-27 | "claude-2.1" has 200000 tokens; "not-a-model" fails with UnknownModel("not-a-model") |
| AnthropicUtils.AnthropicMessagesExamples | llama-index-integrations/llms/llama-index-llms-anthropic/llama_index/llms/anthropic/utils.py:30-41 | the empty conversation gives ([], ""); [SYSTEM s, USER u, ASSISTANT a] gives ([user u, assistant a], "s") |
| AnthropicUtils.PromptExamples | llama-index-integrations/llms/llama-index-llms-anthropic/llama_index/llms/anthropic/utils.py:60-72 | [] fails with EmptyInput; [USER hi] gives "\n\nHuman: hi\n\nAssistant: "; [USER hi, ASSISTANT yo] gives "\n\nHuman: hi\n\nAssistant: yo"; [FUNCTION x] fails with UnsupportedRole |

## Left out

- Error message text is not modelled. This includes the comma-joined list of known model names in the UnknownModel message. Errors are datatype variants; UnknownModel and UnknownRole carry the offending name or role.
- The client library's `ChatMessage` and `MessageRole` are foreign code. Only `role` and `content` are kept. Content is a string; the library also allows a missing or non-string content, which the f-strings would format as text.
- The FUNCTION-role error message formats the enumeration member. That detail is not modelled; the variant carries nothing.
- The Bedrock caller named in the comment on line 44 is not part of this model. Neither is any network client that sends these outputs (I/O).
- Python dictionaries keep insertion order. The model does not: the table is a Dafny `map`. That order only affects the error text.
- The structured entries are Python dictionaries `{"role": …, "content": …}`, although the function is annotated as returning `ChatMessage`s. They are modelled as the record `AnthropicMessage(role, content)`.
- ChatTypes.RoleValue: its contract only pins down the value of an extra role. The four named values are given by its definition, and RoleValueInjective states what the model relies on.
