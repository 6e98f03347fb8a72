/** Client-side uses of the streamer, as the chat script drives it: ask on the
    current node, drain the answer stream, continue from the child. */
module Chat {
  import opened Wrappers
  import opened Service
  import opened LitGPTStreamer

  /** One turn: `streamer = streamer.ask(question)` followed by draining
      `streamer()`. The child's history is the parent's followed by the
      question and the generated answer; the parent and its ancestors are
      not changed. */
  method ChatTurn(s: LitGPTBasicStreamer, question: Option<string>) returns (child: LitGPTBasicStreamer, answer: string)
    requires s.Valid()
    ensures fresh(child) && child.Valid() && child.base.parent == s.base && child.llm == s.llm
    ensures answer == s.llm.generate(MessagesToPrompt(Register(s.base.InheritMessageList(), UserRole, question)))
    ensures child.answer == answer && !child.lazy
    ensures child.base.messages == Register([], UserRole, question) + [Message(AssistantRole, answer)]
    ensures child.base.InheritMessageList() == s.base.InheritMessageList() + child.base.messages
  {
    ghost var shared := s.base.InheritMessageList();
    child := s.Ask(question, false);
    ghost var asked := child.base.InheritMessageList();
    assert asked == Register(shared, UserRole, question);
    var stream := child.Call();
    assert child.base.InheritMessageList() == asked && s.base.InheritMessageList() == shared;
    answer := Drain(stream);
    assert s.base.InheritMessageList() == shared;
  }

  /** Two turns asked on the same node: each child sees the shared history
      and its own turn, never the sibling's, also after both have run. */
  method Branch(s: LitGPTBasicStreamer, q1: Option<string>, q2: Option<string>)
    returns (c1: LitGPTBasicStreamer, a1: string, c2: LitGPTBasicStreamer, a2: string)
    requires s.Valid()
    ensures c1.Valid() && c2.Valid() && c1 != c2
    ensures c1.base.InheritMessageList() == s.base.InheritMessageList() + Register([], UserRole, q1) + [Message(AssistantRole, a1)]
    ensures c2.base.InheritMessageList() == s.base.InheritMessageList() + Register([], UserRole, q2) + [Message(AssistantRole, a2)]
    ensures a1 == s.llm.generate(MessagesToPrompt(Register(s.base.InheritMessageList(), UserRole, q1)))
    ensures a2 == s.llm.generate(MessagesToPrompt(Register(s.base.InheritMessageList(), UserRole, q2)))
  {
    ghost var shared := s.base.InheritMessageList();
    c1, a1 := ChatTurn(s, q1);
    ghost var first := c1.base.InheritMessageList();
    assert first == shared + Register([], UserRole, q1) + [Message(AssistantRole, a1)];
    c2, a2 := ChatTurn(s, q2);
    assert c1.base.InheritMessageList() == first;
  }

  /** Calling the same node twice runs the model twice: the second prompt
      already holds the first answer, and both answers are registered. */
  method CallTwice(node: LitGPTBasicStreamer) returns (a1: string, a2: string)
    requires node.Valid()
    modifies node`lazy, node`answer, node.base`messages
    ensures a1 == node.llm.generate(MessagesToPrompt(old(node.base.InheritMessageList())))
    ensures a2 == node.llm.generate(MessagesToPrompt(old(node.base.InheritMessageList()) + [Message(AssistantRole, a1)]))
    ensures node.base.messages == old(node.base.messages) + [Message(AssistantRole, a1), Message(AssistantRole, a2)]
    ensures node.answer == a2
  {
    var first := node.Call();
    a1 := Drain(first);
    var second := node.Call();
    a2 := Drain(second);
  }

  /** A root with no messages, a model that always answers "Hello", two
      questions in a row: the grandchild's history is exactly the three
      messages of the conversation, in order. */
  method Greeting() returns (root: LitGPTBasicStreamer, first: LitGPTBasicStreamer, second: LitGPTBasicStreamer)
    ensures root.Valid() && first.Valid() && second.Valid()
    ensures root.base.InheritMessageList() == []
    ensures first.answer == "Hello"
    ensures first.base.InheritMessageList() == [Message("user", "Hi"), Message("assistant", "Hello")]
    ensures second.lazy
    ensures second.base.InheritMessageList() ==
      [Message("user", "Hi"), Message("assistant", "Hello"), Message("user", "Who are you?")]
  {
    var conf: Config := map["internalprovider" := Some("litgpt"), "model" := Some("Qwen/Qwen2.5-0.5B")];
    root := new LitGPTBasicStreamer(conf, NoParent, _ => "Hello");
    assert root.base.InheritMessageList() == [];
    var answer;
    first, answer := ChatTurn(root, Some("Hi"));
    assert answer == "Hello";
    ghost var history := first.base.InheritMessageList();
    assert history == [Message("user", "Hi"), Message("assistant", "Hello")];
    second := first.Ask(Some("Who are you?"), false);
    assert first.base.InheritMessageList() == history;
  }
}
