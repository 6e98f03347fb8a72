/** The session core shared by every streamer: a node of a conversation chain
    that owns its own messages and reads its ancestors' through its parent link,
    and the dispatch from a model configuration to a streamer variant. */
module Service {
  import opened Wrappers

  /** One registered utterance: `{"role": role, "content": content}`. */
  datatype Message = Message(role: string, content: string)

  const UserRole := "user"
  const AssistantRole := "assistant"
  const SystemRole := "system"

  /** The own-message list after `register_message(role, content)` on `ms`:
      `None` content is dropped, anything else (also "") is appended. */
  function Register(ms: seq<Message>, role: string, content: Option<string>): (r: seq<Message>)
    ensures content.None? ==> r == ms
    ensures content.Some? ==> |r| == |ms| + 1 && r[..|ms|] == ms
    ensures content.Some? ==> r[|ms|] == Message(role, content.value)
  {
    match content
    case None => ms
    case Some(c) => ms + [Message(role, c)]
  }

  /** A conversation node. The parent link is never reassigned after
      construction; only `messages` grows. */
  class AIService {
    const parent: AIService?
    var messages: seq<Message>
    /** The ancestors of this node, root first, ending with `parent`. */
    ghost const Chain: seq<AIService>
    /** The nodes whose messages the history reads: this node and its ancestors. */
    ghost const Repr: set<AIService>

    /** The chain is acyclic and every ancestor's Chain is a prefix of ours.
        It mentions only constant fields, so once established it holds forever. */
    ghost predicate WellFormed()
      decreases |Chain|
    {
      this !in Chain &&
      (parent == null ==> Chain == [] && Repr == {this}) &&
      (parent != null ==>
        Chain == parent.Chain + [parent] && this !in parent.Repr && Repr == parent.Repr + {this} &&
        parent.WellFormed())
    }

    constructor (parent: AIService?)
      requires parent != null ==> parent.WellFormed()
      ensures this.parent == parent && messages == []
      ensures Chain == if parent == null then [] else parent.Chain + [parent]
      ensures Repr == if parent == null then {this} else parent.Repr + {this}
      ensures WellFormed()
    {
      this.parent := parent;
      messages := [];
      Chain := if parent == null then [] else parent.Chain + [parent];
      Repr := if parent == null then {this} else parent.Repr + {this};
    }

    /** What `inheritmessagelist` yields: the parent's history, recursively,
        followed by this node's own messages. */
    function InheritMessageList(): (h: seq<Message>)
      requires WellFormed()
      reads Repr
      decreases |Chain|
    {
      if parent == null then messages else parent.InheritMessageList() + messages
    }

    /** The history is the own messages of every node on the chain, root first. */
    lemma {:induction false} HistoryAlongChain()
      requires WellFormed()
      ensures InheritMessageList() == ConcatOwn(Chain + [this])
      decreases |Chain|
    {
      if parent != null {
        parent.HistoryAlongChain();
        assert Chain + [this] == (parent.Chain + [parent]) + [this];
        assert (Chain + [this])[..|Chain|] == parent.Chain + [parent];
      }
    }

    /** A node's history extends the history of each of its ancestors:
        answers registered further down the chain never show up above it. */
    lemma {:induction false} HistoryExtendsAncestor(k: nat)
      requires WellFormed() && k < |Chain|
      ensures Chain[k].WellFormed()
      ensures |Chain[k].InheritMessageList()| <= |InheritMessageList()|
      ensures InheritMessageList()[..|Chain[k].InheritMessageList()|] == Chain[k].InheritMessageList()
      decreases |Chain|
    {
      var h := parent.InheritMessageList();
      assert InheritMessageList()[..|h|] == h;
      if k < |parent.Chain| {
        assert Chain[k] == parent.Chain[k];
        parent.HistoryExtendsAncestor(k);
      }
    }

    /** The history's length is the sum of the own-message counts along the
        chain, and node k's messages occupy their own segment, root first. */
    lemma HistoryLayout(k: nat)
      requires WellFormed() && k <= |Chain|
      ensures |InheritMessageList()| == TotalOwn(Chain + [this])
      ensures TotalOwn((Chain + [this])[..k]) <= TotalOwn((Chain + [this])[..k + 1]) <= |InheritMessageList()|
      ensures InheritMessageList()[TotalOwn((Chain + [this])[..k])..TotalOwn((Chain + [this])[..k + 1])]
              == (Chain + [this])[k].messages
    {
      HistoryAlongChain();
      ConcatOwnLength(Chain + [this]);
      ConcatOwnSegment(Chain + [this], k);
    }

    /** `messagelist`: the generator's output collected into a fresh list. */
    method MessageList() returns (ms: seq<Message>)
      requires WellFormed()
      ensures ms == InheritMessageList()
      ensures ms == ConcatOwn(Chain + [this])
      ensures parent == null ==> ms == messages
      ensures parent != null ==> |ms| == |parent.InheritMessageList()| + |messages|
      ensures ms[|ms| - |messages|..] == messages
    {
      ms := InheritMessageList();
      HistoryAlongChain();
    }

    /** `register_message`: appends unless the content is `None`; the `local`
        flag is accepted and has no effect. Ancestors are left untouched. */
    method RegisterMessage(role: string, content: Option<string>, local: bool)
      requires WellFormed()
      modifies this`messages
      ensures messages == Register(old(messages), role, content)
      ensures InheritMessageList() == Register(old(InheritMessageList()), role, content)
      ensures forall n :: n in Chain ==> n.messages == old(n.messages)
    {
      if content.None? {
        return;
      }
      messages := messages + [Message(role, content.value)];
    }

    /** `asked`: registers a `user` message. */
    method Asked(question: Option<string>, local: bool)
      requires WellFormed()
      modifies this`messages
      ensures messages == Register(old(messages), UserRole, question)
      ensures InheritMessageList() == Register(old(InheritMessageList()), UserRole, question)
    {
      RegisterMessage(UserRole, question, local);
    }

    /** `answered`: registers an `assistant` message. */
    method Answered(answer: Option<string>, local: bool)
      requires WellFormed()
      modifies this`messages
      ensures messages == Register(old(messages), AssistantRole, answer)
      ensures InheritMessageList() == Register(old(InheritMessageList()), AssistantRole, answer)
    {
      RegisterMessage(AssistantRole, answer, local);
    }

    /** `commanded`: registers a `system` message. */
    method Commanded(answer: Option<string>, local: bool)
      requires WellFormed()
      modifies this`messages
      ensures messages == Register(old(messages), SystemRole, answer)
      ensures InheritMessageList() == Register(old(InheritMessageList()), SystemRole, answer)
    {
      RegisterMessage(SystemRole, answer, local);
    }
  }

  /** The own messages of `nodes`, concatenated in the order of `nodes`. */
  function ConcatOwn(nodes: seq<AIService>): seq<Message>
    reads nodes
  {
    if nodes == [] then [] else ConcatOwn(nodes[..|nodes| - 1]) + nodes[|nodes| - 1].messages
  }

  /** The number of own messages along `nodes`. */
  function TotalOwn(nodes: seq<AIService>): nat
    reads nodes
  {
    if nodes == [] then 0 else TotalOwn(nodes[..|nodes| - 1]) + |nodes[|nodes| - 1].messages|
  }

  lemma {:induction false} ConcatOwnLength(nodes: seq<AIService>)
    ensures |ConcatOwn(nodes)| == TotalOwn(nodes)
    decreases |nodes|
  {
    if nodes != [] {
      ConcatOwnLength(nodes[..|nodes| - 1]);
    }
  }

  lemma {:induction false} ConcatOwnAppend(a: seq<AIService>, b: seq<AIService>)
    ensures ConcatOwn(a + b) == ConcatOwn(a) + ConcatOwn(b)
    decreases |b|
  {
    if b == [] {
      assert a + b == a;
    } else {
      assert (a + b)[..|a + b| - 1] == a + b[..|b| - 1];
      ConcatOwnAppend(a, b[..|b| - 1]);
    }
  }

  /** Node k's own messages sit, in full and in order, right after those of
      the nodes before it. */
  lemma ConcatOwnSegment(nodes: seq<AIService>, k: nat)
    requires k < |nodes|
    ensures TotalOwn(nodes[..k]) <= TotalOwn(nodes[..k + 1]) <= |ConcatOwn(nodes)|
    ensures ConcatOwn(nodes)[TotalOwn(nodes[..k])..TotalOwn(nodes[..k + 1])] == nodes[k].messages
  {
    assert nodes == nodes[..k + 1] + nodes[k + 1..];
    ConcatOwnAppend(nodes[..k + 1], nodes[k + 1..]);
    assert nodes[..k + 1][..k] == nodes[..k];
    ConcatOwnLength(nodes[..k]);
    ConcatOwnLength(nodes[..k + 1]);
  }

  /** The streamer classes `initAIService` can construct. */
  datatype Provider = Ollama | Litellm | LitGPT

  /** A model configuration as read from JSON; `None` stands for a JSON null. */
  type Config = map<string, Option<string>>

  /** What `modelconf[key]` raises when the key is absent. */
  datatype ConfigError = KeyError(key: string)

  /** The `internalprovider` value that selects each variant. */
  function ProviderName(p: Provider): string
  {
    match p
    case Ollama => "ollama"
    case Litellm => "litellm"
    case LitGPT => "litgpt"
  }

  /** `initAIService` as a dispatch: the variant to construct, `None` for an
      unrecognised provider, and a KeyError when the key is missing. */
  function InitAIService(conf: Config): (r: Result<Option<Provider>, ConfigError>)
    ensures r.Failure? <==> "internalprovider" !in conf
    ensures r.Failure? ==> r.error == KeyError("internalprovider")
    ensures forall p :: r == Success(Some(p)) <==>
      "internalprovider" in conf && conf["internalprovider"] == Some(ProviderName(p))
    ensures r == Success(None) <==>
      "internalprovider" in conf && forall p :: conf["internalprovider"] != Some(ProviderName(p))
  {
    if "internalprovider" !in conf then Failure(KeyError("internalprovider"))
    else
      var v := conf["internalprovider"];
      if v == Some("ollama") then Success(Some(Ollama))
      else if v == Some("litellm") then Success(Some(Litellm))
      else if v == Some("litgpt") then Success(Some(LitGPT))
      else Success(None)
  }
}
