/** The LitGPT-backed streamer: a conversation node that shares one loaded
    model across its descendants, flattens the history into a role-tagged
    text prompt, and hands the answer out one character per pull. */
module LitGPTStreamer {
  import opened Wrappers
  import opened Service

  /** The marker that ends every prompt, inviting the model to answer. */
  const AssistantCue := "[ASSISTANT] "

  /** `modelconf.get("modelpath", modelconf.get("model"))`: `modelpath`
      wins whenever the key is present, even with a null value. */
  function ModelName(conf: Config): (name: Option<string>)
    ensures "modelpath" in conf ==> name == conf["modelpath"]
    ensures "modelpath" !in conf && "model" in conf ==> name == conf["model"]
    ensures "modelpath" !in conf && "model" !in conf ==> name == None
  {
    if "modelpath" in conf then conf["modelpath"]
    else if "model" in conf then conf["model"]
    else None
  }

  /** The configuration `ask` hands to a child names the same model again. */
  lemma ChildConfigKeepsModel(name: Option<string>)
    ensures ModelName(map["modelpath" := name]) == name
  {
  }

  /** The roles `_messages_to_prompt` renders; any other role is skipped. */
  predicate KnownRole(role: string)
  {
    role == SystemRole || role == UserRole || role == AssistantRole
  }

  /** The prompt line of one message. */
  function Line(m: Message): (line: string)
    ensures !KnownRole(m.role) <==> line == []
  {
    if m.role == SystemRole then "[SYSTEM] " + m.content + "\n"
    else if m.role == UserRole then "[USER] " + m.content + "\n"
    else if m.role == AssistantRole then "[ASSISTANT] " + m.content + "\n"
    else ""
  }

  /** The prompt without its closing cue: the lines of `ms`, in order. */
  function PromptBody(ms: seq<Message>): string
  {
    if ms == [] then "" else Line(ms[0]) + PromptBody(ms[1..])
  }

  /** The body is empty exactly when no message has a role that is rendered. */
  lemma {:induction false} PromptBodyEmpty(ms: seq<Message>)
    ensures PromptBody(ms) == [] <==> forall i :: 0 <= i < |ms| ==> !KnownRole(ms[i].role)
    decreases |ms|
  {
    if ms != [] {
      PromptBodyEmpty(ms[1..]);
      assert forall i :: 1 <= i < |ms| ==> ms[i] == ms[1..][i - 1];
    }
  }

  /** `_messages_to_prompt`. */
  function MessagesToPrompt(ms: seq<Message>): (p: string)
    ensures |p| >= |AssistantCue| && p[|p| - |AssistantCue|..] == AssistantCue
    ensures p[..|p| - |AssistantCue|] == PromptBody(ms)
    ensures ms == [] ==> p == AssistantCue
  {
    PromptBody(ms) + AssistantCue
  }

  /** The prompt body is compositional. */
  lemma {:induction false} PromptBodyAppend(a: seq<Message>, b: seq<Message>)
    ensures PromptBody(a + b) == PromptBody(a) + PromptBody(b)
    decreases |a|
  {
    if a == [] {
      assert a + b == b;
    } else {
      assert (a + b)[1..] == a[1..] + b;
      PromptBodyAppend(a[1..], b);
    }
  }

  /** The messages whose role `_messages_to_prompt` renders. */
  function KnownOnly(ms: seq<Message>): (r: seq<Message>)
    ensures forall i :: 0 <= i < |r| ==> KnownRole(r[i].role)
    ensures forall m :: m in r <==> m in ms && KnownRole(m.role)
    ensures |r| <= |ms|
  {
    if ms == [] then []
    else if KnownRole(ms[0].role) then [ms[0]] + KnownOnly(ms[1..])
    else KnownOnly(ms[1..])
  }

  /** Filtering keeps the relative order: it distributes over concatenation. */
  lemma {:induction false} KnownOnlyAppend(a: seq<Message>, b: seq<Message>)
    ensures KnownOnly(a + b) == KnownOnly(a) + KnownOnly(b)
    decreases |a|
  {
    if a == [] {
      assert a + b == b;
    } else {
      assert (a + b)[0] == a[0];
      assert (a + b)[1..] == a[1..] + b;
      KnownOnlyAppend(a[1..], b);
    }
  }

  /** Messages with an unknown role contribute nothing to the prompt. */
  lemma {:induction false} PromptSkipsUnknownRoles(ms: seq<Message>)
    ensures PromptBody(ms) == PromptBody(KnownOnly(ms))
    decreases |ms|
  {
    if ms != [] {
      PromptSkipsUnknownRoles(ms[1..]);
      if KnownRole(ms[0].role) {
        assert ([ms[0]] + KnownOnly(ms[1..]))[1..] == KnownOnly(ms[1..]);
      }
    }
  }

  /** The prompt bodies of the own messages of `nodes`, in order. */
  function ChainBodies(nodes: seq<AIService>): string
    reads nodes
  {
    if nodes == [] then "" else ChainBodies(nodes[..|nodes| - 1]) + PromptBody(nodes[|nodes| - 1].messages)
  }

  lemma {:induction false} PromptBodyOfConcatOwn(nodes: seq<AIService>)
    ensures PromptBody(ConcatOwn(nodes)) == ChainBodies(nodes)
    decreases |nodes|
  {
    if nodes != [] {
      var init := nodes[..|nodes| - 1];
      PromptBodyOfConcatOwn(init);
      PromptBodyAppend(ConcatOwn(init), nodes[|nodes| - 1].messages);
    }
  }

  /** The prompt built from a node's history renders every ancestor's own
      messages, root first, then the node's own, then the cue. */
  lemma PromptOfHistory(n: AIService)
    requires n.WellFormed()
    ensures MessagesToPrompt(n.InheritMessageList()) == ChainBodies(n.Chain + [n]) + AssistantCue
  {
    n.HistoryAlongChain();
    PromptBodyOfConcatOwn(n.Chain + [n]);
  }

  /** Stand-in for the handle `LLM.load(modelname)` returns; what the loaded
      model generates for a prompt is the uninterpreted `generate`. */
  class LLM {
    const modelname: Option<string>
    const generate: string -> string

    constructor Load(modelname: Option<string>, generate: string -> string)
      ensures this.modelname == modelname && this.generate == generate
    {
      this.modelname := modelname;
      this.generate := generate;
    }
  }

  /** The `parent` argument of the constructor, with its runtime class. */
  datatype Parent = NoParent | ServiceParent(service: AIService) | StreamerParent(streamer: LitGPTBasicStreamer)

  /** The AIService node the parent argument designates. */
  function ParentNode(p: Parent): AIService?
  {
    match p
    case NoParent => null
    case ServiceParent(s) => s
    case StreamerParent(st) => st.base
  }

  /** `LitGPTBasicStreamer`, a subclass of `AIService`; its AIService part
      (parent link and own messages) is `base`. */
  class LitGPTBasicStreamer {
    const base: AIService
    const modelname: Option<string>
    var lazy: bool
    var answer: string
    const llm: LLM

    /** Depends only on constant fields, so it is kept by every method. */
    ghost predicate Valid()
    {
      base.WellFormed()
    }

    /** `__init__`: only a node whose parent is not a LitGPT streamer loads
        a model (with behaviour `generate`); otherwise the parent's handle
        is reused. */
    constructor (modelconf: Config, parent: Parent, generate: string -> string)
      requires ParentNode(parent) != null ==> ParentNode(parent).WellFormed()
      ensures Valid() && fresh(base)
      ensures base.parent == ParentNode(parent) && base.messages == []
      ensures modelname == ModelName(modelconf) && lazy && answer == ""
      ensures parent.StreamerParent? ==> llm == parent.streamer.llm
      ensures !parent.StreamerParent? ==> fresh(llm) && llm.modelname == modelname && llm.generate == generate
    {
      base := new AIService(ParentNode(parent));
      modelname := ModelName(modelconf);
      lazy := true;
      answer := "";
      if parent.StreamerParent? {
        llm := parent.streamer.llm;
      } else {
        llm := new LLM.Load(ModelName(modelconf), generate);
      }
    }

    /** `ask`: a new child whose own messages are the question (none for
        `None`); the child shares this node's model and model name, and this
        node is not changed. */
    method Ask(question: Option<string>, local: bool) returns (child: LitGPTBasicStreamer)
      requires Valid()
      ensures fresh(child) && fresh(child.base) && child.Valid()
      ensures child.base.parent == base
      ensures child.base.messages == Register([], UserRole, question)
      ensures child.base.InheritMessageList() == Register(base.InheritMessageList(), UserRole, question)
      ensures child.modelname == modelname && child.llm == llm
      ensures child.lazy && child.answer == ""
    {
      child := new LitGPTBasicStreamer(map["modelpath" := modelname], StreamerParent(this), llm.generate);
      child.base.Asked(question, local);
    }

    /** The body of `__call__` up to its loop, run on the generator's first
        pull: clears `lazy`, builds the prompt from the full history as it is
        now, generates, stores the answer and registers it. */
    method Generate() returns (text: string)
      requires Valid()
      modifies this`lazy, this`answer, base`messages
      ensures text == llm.generate(MessagesToPrompt(old(base.InheritMessageList())))
      ensures !lazy && answer == text
      ensures base.messages == old(base.messages) + [Message(AssistantRole, text)]
      ensures base.InheritMessageList() == old(base.InheritMessageList()) + [Message(AssistantRole, text)]
    {
      ghost var h0 := base.InheritMessageList();
      lazy := false;
      assert base.InheritMessageList() == h0;
      var messages := base.MessageList();
      var prompt := MessagesToPrompt(messages);
      text := llm.generate(prompt);
      answer := text;
      assert base.InheritMessageList() == h0;
      base.Answered(Some(answer), false);
    }

    /** `__call__`: creates the generator; nothing runs until the first pull. */
    method Call() returns (stream: AnswerStream)
      requires Valid()
      ensures fresh(stream) && stream.Valid()
      ensures stream.owner == this && !stream.started
    {
      stream := new AnswerStream(this);
    }
  }

  /** The generator object `__call__` returns. Before the first pull it has
      not started; afterwards `text` is the generated answer and `pos` the
      number of characters handed out. */
  class AnswerStream {
    const owner: LitGPTBasicStreamer
    var started: bool
    var text: string
    var pos: nat

    ghost predicate Valid()
      reads this
    {
      owner.Valid() && pos <= |text| && (!started ==> pos == 0 && text == "")
    }

    constructor (owner: LitGPTBasicStreamer)
      requires owner.Valid()
      ensures this.owner == owner && !started && Valid()
    {
      this.owner := owner;
      started := false;
      text := "";
      pos := 0;
    }

    /** One pull of the generator. The first pull clears `lazy`, generates
        from the prompt of the full history as it is now, stores the answer
        and registers it as an assistant message, all before the first
        character is handed out. Every pull hands out the next character,
        or `None` once the text is exhausted. */
    method Next() returns (chunk: Option<char>)
      requires Valid()
      modifies this, owner`lazy, owner`answer, owner.base`messages
      ensures Valid() && started
      ensures !old(started) ==>
        text == owner.llm.generate(MessagesToPrompt(old(owner.base.InheritMessageList()))) &&
        !owner.lazy && owner.answer == text &&
        owner.base.messages == old(owner.base.messages) + [Message(AssistantRole, text)] &&
        owner.base.InheritMessageList() == old(owner.base.InheritMessageList()) + [Message(AssistantRole, text)]
      ensures old(started) ==>
        text == old(text) && unchanged(owner, owner.base)
      ensures old(pos) < |text| ==> chunk == Some(text[old(pos)]) && pos == old(pos) + 1
      ensures old(pos) >= |text| ==> chunk == None && pos == old(pos)
    {
      if !started {
        text := owner.Generate();
        started := true;
      }
      chunk := Advance();
    }

    /** Pulls until the stream is exhausted, joining the chunks: exactly
        the characters not yet handed out, in order. */
    method Collect() returns (out: string)
      requires Valid() && started
      modifies this`pos
      ensures Valid() && pos == |text|
      ensures out == text[old(pos)..]
    {
      ghost var from := pos;
      out := "";
      var chunk := Advance();
      while chunk.Some?
        invariant Valid() && from <= pos
        invariant chunk.Some? ==> from < pos && out == text[from..pos - 1] && chunk.value == text[pos - 1]
        invariant chunk.None? ==> pos == |text| && out == text[from..]
        decreases |text| - pos + (if chunk.Some? then 1 else 0)
      {
        out := out + [chunk.value];
        chunk := Advance();
      }
    }

    /** A pull once the body has reached its loop `for ch in text: yield ch`:
        hands out the next character and changes nothing else. */
    method Advance() returns (chunk: Option<char>)
      requires Valid() && started
      modifies this`pos
      ensures Valid()
      ensures old(pos) < |text| ==> chunk == Some(text[old(pos)]) && pos == old(pos) + 1
      ensures old(pos) >= |text| ==> chunk == None && pos == old(pos)
    {
      if pos < |text| {
        chunk := Some(text[pos]);
        pos := pos + 1;
      } else {
        chunk := None;
      }
    }
  }

  /** Pulls a fresh stream until it is exhausted, joining the chunks, as
      `for ch in child(): ...` does: the first pull commits the answer and
      yields its first character, `Collect` pulls the rest. The chunks are
      the generated text one character each, in order, and the text is the
      stored answer. */
  method Drain(stream: AnswerStream) returns (out: string)
    requires stream.Valid() && !stream.started
    modifies stream, stream.owner`lazy, stream.owner`answer, stream.owner.base`messages
    ensures stream.Valid() && stream.started && stream.pos == |stream.text|
    ensures out == stream.text && out == stream.owner.answer && !stream.owner.lazy
    ensures out == stream.owner.llm.generate(MessagesToPrompt(old(stream.owner.base.InheritMessageList())))
    ensures stream.owner.base.messages == old(stream.owner.base.messages) + [Message(AssistantRole, out)]
    ensures stream.owner.base.InheritMessageList() == old(stream.owner.base.InheritMessageList()) + [Message(AssistantRole, out)]
  {
    var first := stream.Next();
    var rest := stream.Collect();
    out := if first.Some? then [first.value] + rest else "";
  }
}
