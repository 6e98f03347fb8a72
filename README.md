# Conversation sessions over a text-generation backend

A Dafny model of the session core of the CLI chat program:

- `AIService` is a node of a conversation chain. Each node owns its own messages and links to its parent.
- A node's history is its parent's history, recursively, followed by its own messages.
- `register_message` appends a role-tagged message and drops `None` content. `asked`, `answered` and `commanded` are its `user`, `assistant` and `system` forms.
- `initAIService` picks a streamer class from the configuration's `internalprovider` value.
- `LitGPTBasicStreamer` is the LitGPT-backed streamer:
  - `ask` creates a child node that carries the question and shares the parent's loaded model.
  - Calling a node returns a generator. On its first pull, the generator builds a role-marked text prompt from the whole history, runs the model, and stores and registers the answer. It then hands out the answer one character per pull.

Files:

- `wrappers.dfy`: `Option` (Python's `None`) and `Result` (a raised exception).
- `service.dfy`: module `Service`. Contains `Message`, `Register` and the class `AIService`, plus the chain-wide reference definitions `ConcatOwn` and `TotalOwn`. Also has the provider dispatch `InitAIService`.
- `litgpt_streamer.dfy`: module `LitGPTStreamer`. Contains the prompt format (`Line`, `PromptBody`, `MessagesToPrompt`) and the stand-in model handle `LLM`. Also holds the class `LitGPTBasicStreamer` and the generator object `AnswerStream`, whose `Next` is one pull. `Advance` is a pull inside the character loop, `Collect` pulls until the end, and `Drain` consumes a fresh stream completely.
- `chat.dfy`: module `Chat`. Client uses in the style of the chat script: one turn, two sibling turns, calling a node twice, and a three-message conversation.

Encoding choices:

- **Node fields.** `AIService.parent` is a constant, because no code reassigns it. `messages` is a mutable `seq<Message>`.
- **Ancestor chain.** The ghost constant `Chain` lists a node's ancestors, root first. `WellFormed()` says the chain is acyclic and agrees with the parent links. It mentions only constant fields, so once the constructor establishes it, it holds for the node's whole life. This gives the recursive history function `InheritMessageList` its termination measure and its `reads` frame.
- **Subclass by composition.** `LitGPTBasicStreamer` subclasses `AIService`. Dafny here has no class inheritance, so the streamer holds its AIService part as the constant `base`.
- **Runtime class of the parent.** The constructor's `parent` argument is the datatype `Parent`. Its variants are no parent, a plain `AIService`, or a `LitGPTBasicStreamer`. This is the class test `isinstance(parent, LitGPTBasicStreamer)` in the source.
- **The model.** `LLM.load` is modelled by `LLM.Load`. What the loaded model generates for a prompt is the uninterpreted function `generate: string -> string`. It is fixed when the handle is loaded and supplied by whoever builds a root streamer.
- **The generator.** `Call()` creates an `AnswerStream` and changes nothing else, as calling a Python generator function runs none of its body. `Next()` is one pull.
- **Configuration.** A configuration is a `map<string, Option<string>>`. `None` stands for a JSON `null`. This matters because `ask` passes `{"modelpath": self.modelname}` even when the model name is `None`.

Behaviour kept exactly as the code has it:

- A question or answer that is `None` is not registered. The empty string is registered.
- No call rejects an empty question.
- The answer is stored and registered on the first pull, before the first character is handed out.
- A stream that is abandoned after its first pull has still committed its answer.
- Calling a node a second time generates again from the now longer history and registers another assistant message. There is no replay of a stored answer.
- `initAIService` raises a `KeyError` when `internalprovider` is absent. It returns `None` for an unknown provider.

## Model

| member | source | states |
|---|---|---|
| `Service.Register` | NutsAndBolts/CLIGPTOOPChat.py/Services/service.py:35-41 | `None` content leaves the list unchanged. Any other content, the empty string included, adds exactly one `{role, content}` entry at the end and keeps every earlier entry. |
| `Service.AIService.constructor` | NutsAndBolts/CLIGPTOOPChat.py/Services/service.py:9-11 | The new node has the given parent and no own messages. Its ancestor chain is the parent's chain followed by the parent, so the chain stays acyclic. |
| `Service.AIService.HistoryAlongChain` | NutsAndBolts/CLIGPTOOPChat.py/Services/service.py:15-23 | The recursive history is the own messages of every node from the root down to this one, concatenated root first. |
| `Service.AIService.HistoryExtendsAncestor` | NutsAndBolts/CLIGPTOOPChat.py/Services/service.py:15-23 | `InheritMessageList` (the model of `inheritmessagelist`): every ancestor's history is a prefix of the node's history. Turns registered below a node never change what that node sees. |
| `Service.AIService.HistoryLayout` | NutsAndBolts/CLIGPTOOPChat.py/Services/service.py:17-23 | The history's length is the sum of the own-message counts along the chain. The k-th node's messages fill the segment right after those of the nodes above it, in their own order. |
| `Service.ConcatOwnSegment` | NutsAndBolts/CLIGPTOOPChat.py/Services/service.py:17-23 | In a root-first concatenation of own-message lists, node k's list appears in full and in order at offset "total of the nodes before k". |
| `Service.AIService.MessageList` | NutsAndBolts/CLIGPTOOPChat.py/Services/service.py:25-29 | The returned list is what the chain walk yields, which is the root-first concatenation along the chain. With no parent it is the node's own messages. It always ends with those own messages. |
| `Service.AIService.RegisterMessage` | NutsAndBolts/CLIGPTOOPChat.py/Services/service.py:35-41 | The own messages become `Register(old, role, content)`. The full history grows by the same entry at its tip. Every ancestor's messages are unchanged. `local` has no effect. |
| `Service.AIService.Asked` | NutsAndBolts/CLIGPTOOPChat.py/Services/service.py:43-44 | Registers the question with role `user`; `None` registers nothing. |
| `Service.AIService.Answered` | NutsAndBolts/CLIGPTOOPChat.py/Services/service.py:46-47 | Registers the answer with role `assistant`; `None` registers nothing. |
| `Service.AIService.Commanded` | NutsAndBolts/CLIGPTOOPChat.py/Services/service.py:49-50 | Registers the text with role `system`; `None` registers nothing. |
| `Service.InitAIService` | NutsAndBolts/CLIGPTOOPChat.py/Services/service.py:78-86 | A KeyError exactly when `internalprovider` is absent. A variant exactly when the value is that variant's name (`ollama`, `litellm`, `litgpt`). `None` exactly when the key is present with any other value, `null` included. |
| `LitGPTStreamer.Line` | NutsAndBolts/CLIGPTOOPChat.py/Services/litgpt_streamer.py:87-92 | A message contributes no text exactly when its role is none of `system`, `user`, `assistant`. |
| `LitGPTStreamer.MessagesToPrompt` | NutsAndBolts/CLIGPTOOPChat.py/Services/litgpt_streamer.py:81-95 | The prompt always ends with the cue `"[ASSISTANT] "`, preceded by the in-order lines of the messages. An empty list gives exactly the cue. |
| `LitGPTStreamer.ModelName` | NutsAndBolts/CLIGPTOOPChat.py/Services/litgpt_streamer.py:32 | With a `modelpath` key, its value is the name, even when that value is `null`. Otherwise the name is the `model` value. With neither key present, it is `None`. |
| `LitGPTStreamer.ChildConfigKeepsModel` | NutsAndBolts/CLIGPTOOPChat.py/Services/litgpt_streamer.py:50-51 | The one-key configuration `ask` passes to a child, `{"modelpath": name}`, reads back as the same model name. |
| `LitGPTStreamer.PromptBodyEmpty` | NutsAndBolts/CLIGPTOOPChat.py/Services/litgpt_streamer.py:82-93 | `PromptBody`, the prompt without its cue, is empty exactly when no message has one of the three rendered roles. |
| `LitGPTStreamer.PromptBodyAppend` | NutsAndBolts/CLIGPTOOPChat.py/Services/litgpt_streamer.py:82-93 | The prompt body is compositional: the body of `a + b` is the body of `a` followed by the body of `b`. |
| `LitGPTStreamer.KnownOnly` | NutsAndBolts/CLIGPTOOPChat.py/Services/litgpt_streamer.py:87-92 | A message is in the result exactly when it is in the input and has a rendered role. Every kept message has such a role, and the list never grows. |
| `LitGPTStreamer.KnownOnlyAppend` | NutsAndBolts/CLIGPTOOPChat.py/Services/litgpt_streamer.py:87-92 | Filtering distributes over concatenation, so the kept messages stay in their original relative order. |
| `LitGPTStreamer.PromptSkipsUnknownRoles` | NutsAndBolts/CLIGPTOOPChat.py/Services/litgpt_streamer.py:87-92 | Removing the messages with an unknown role does not change the prompt body. |
| `LitGPTStreamer.PromptOfHistory` | NutsAndBolts/CLIGPTOOPChat.py/Services/litgpt_streamer.py:63-64 | The prompt built from a node's history renders the own messages of every ancestor, root first, then the node's own messages, then the cue. |
| `LitGPTStreamer.LitGPTBasicStreamer.constructor` | NutsAndBolts/CLIGPTOOPChat.py/Services/litgpt_streamer.py:28-44 | A fresh node: `lazy` is true, `answer` is `""`, no own messages, and the model name is `modelpath`, else `model`, else `None`. A node whose parent is a LitGPT streamer reuses that parent's handle. Otherwise a new handle is loaded for the model name. |
| `LitGPTStreamer.LitGPTBasicStreamer.Ask` | NutsAndBolts/CLIGPTOOPChat.py/Services/litgpt_streamer.py:49-55 | A fresh child whose parent is this node and whose own messages are exactly `[user: q]` (empty for `None`). Its history is this node's history plus that entry. It has the same model name and the same handle, and this node is not changed. |
| `LitGPTStreamer.LitGPTBasicStreamer.Call` | NutsAndBolts/CLIGPTOOPChat.py/Services/litgpt_streamer.py:60 | Only creates a not-yet-started stream on this node; nothing else changes. |
| `LitGPTStreamer.LitGPTBasicStreamer.Generate` | NutsAndBolts/CLIGPTOOPChat.py/Services/litgpt_streamer.py:61-72 | `lazy` becomes false. The text is the model's output for the prompt of the full history at that moment. `answer` is that text. Exactly one assistant message with it is appended at the tip of the history. |
| `LitGPTStreamer.AnswerStream.Next` | NutsAndBolts/CLIGPTOOPChat.py/Services/litgpt_streamer.py:60-76 | The first pull commits as `Generate` does, then returns the first character. Every later pull leaves the node untouched and returns the next character, or `None` once the text is exhausted. |
| `LitGPTStreamer.AnswerStream.Advance` | NutsAndBolts/CLIGPTOOPChat.py/Services/litgpt_streamer.py:75-76 | A pull inside the character loop hands out the character at the current position and advances by one, or returns `None` at the end; nothing else changes. |
| `LitGPTStreamer.AnswerStream.Collect` | NutsAndBolts/CLIGPTOOPChat.py/Services/litgpt_streamer.py:75-76 | Pulling until exhaustion yields exactly the characters not yet handed out, in order, and leaves the stream at its end. |
| `LitGPTStreamer.Drain` | NutsAndBolts/CLIGPTOOPChat.py/Services/litgpt_streamer.py:71-76 | Draining a fresh stream gives one chunk per character of the generated text, in order. Their concatenation equals the stored `answer`, and it is the text registered as the single new assistant message. The stream ends started and exhausted: its position is the text's length. |
| `Chat.ChatTurn` | NutsAndBolts/CLIGPTOOPChat.py/chat.py:35-38 | One ask-and-drain turn: the child's history is the parent's history, then the question, then the answer generated from exactly that question-extended history. The parent is untouched. |
| `Chat.Branch` | NutsAndBolts/CLIGPTOOPChat.py/Services/service.py:9-11 | Two children of one node each see the shared history and their own turn, and not their sibling's, even after both turns have run. |
| `Chat.CallTwice` | NutsAndBolts/CLIGPTOOPChat.py/Services/litgpt_streamer.py:60-76 | A second call generates again from a prompt that already holds the first answer. Both answers are registered, and `answer` holds the second. |
| `Chat.Greeting` | NutsAndBolts/CLIGPTOOPChat.py/chat.py:28-50 | Root with no messages, a model answering "Hello", then `ask("Hi")`, drain, `ask("Who are you?")`. The grandchild's history is exactly `[user: Hi, assistant: Hello, user: Who are you?]` and it is still lazy. |

## Left out

- `LLM.load` and `llm.generate` belong to the foreign `litgpt` library. A loaded handle is modelled as an object carrying the model name and an uninterpreted `generate` function, and the failures of loading or generating are not modelled.
- The dynamic imports and the `servicesrelative` switch in `initAIService` and the module header are module plumbing.
- The Ollama and Litellm streamers are not part of this model. `InitAIService` therefore returns which streamer class would be constructed, not a constructed object.
- Configuration values other than strings and `null` (numbers, nested objects) are not represented.
- Message content is a string. The source formats any object through an f-string.
- `inheritmessagelist` is a lazy generator. The model gives the whole sequence it yields. Since `messagelist` drains it at once, no interleaving is observable.
- `filename.py` is not part of this model: it is configuration-file discovery on the real filesystem.
- The console I/O of `chat.py` and of the `__main__` harness in `litgpt_streamer.py` is left out. Their ask-and-stream flow is modelled by `Chat.ChatTurn` and `Chat.Greeting`.
- The web editor under `SnippetsCode/` is not part of this model. It combines a Flask endpoint, foreign markdown and highlighting libraries, and browser UI code.
- The nesting depth of a chain is not modelled. In the source each level of `inheritmessagelist` is a nested generator, so a chain deeper than Python's recursion limit (about a thousand asks) raises `RecursionError`. `InheritMessageList` returns the full history at any depth.
- Python generators can be suspended and resumed across threads. Like the source, the model gives no locking. Two streams on one node may interleave; the last committed text is what `answer` holds.
