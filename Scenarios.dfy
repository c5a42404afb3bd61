/**
 * Concrete runs of the session: a fresh session seeded and rerun, two
 * answered prompts, and a prompt whose stream raises after one chunk.
 */
module Scenarios {
  import opened Messages
  import opened Streaming
  import opened Session

  lemma HelloReply()
    ensures Concat(["Hi", " there", "!"]) == "Hi there!"
    ensures Repaints(["Hi", " there", "!"]) == ["Hi\U{258C}", "Hi there\U{258C}", "Hi there!\U{258C}"]
  {
    var cs := ["Hi", " there", "!"];
    assert cs[..1] == ["Hi"] && cs[..2] == ["Hi", " there"] && cs[..3] == cs;
    assert ["Hi", " there"][..1] == ["Hi"];
    assert ["Hi"][..0] == [];
    assert Concat(cs[..1]) == "Hi" && Concat(cs[..2]) == "Hi there";
    var r := Repaints(cs);
    assert r[0] == "Hi\U{258C}" && r[1] == "Hi there\U{258C}" && r[2] == "Hi there!\U{258C}";
  }

  /** Seeding, a rerun, then two answered prompts: five entries, in order. */
  method TwoAnsweredPrompts()
  {
    var s := new Session();
    s.Init();
    assert s.messages == [Msg("system", "You are a helpful assistant.")];
    s.Init();
    assert s.messages == [Seed];

    HelloReply();
    var t1 := s.Submit(Some("Hello"), Stream(["Hi", " there", "!"], false));
    assert t1.Sent? && t1.reply.Finished?;
    assert t1.reply.response == "Hi there!";
    assert t1.reply.shown == ["Hi\U{258C}", "Hi there\U{258C}", "Hi there!\U{258C}", "Hi there!"];
    assert t1.request == [SystemMessage(Persona), HumanMessage("Hello")];

    var t2 := s.Submit(Some("Thanks"), Stream([], false));
    assert Concat([]) == "";
    assert s.messages == [Seed, Msg(UserRole, "Hello"), Msg(AssistantRole, "Hi there!"),
                          Msg(UserRole, "Thanks"), Msg(AssistantRole, "")];

    var t3 := s.Submit(Some(""), Stream(["ignored"], false));
    assert t3 == NoPrompt && |s.messages| == 5;
  }

  /** A stream that raises after one chunk leaves an unanswered user entry. */
  method FailingStream()
  {
    var s := new Session();
    s.Init();
    var t := s.Submit(Some("Explain X"), Stream(["Sure"], true));
    assert t.Sent? && t.reply.Raised?;
    assert s.messages == [Seed, Msg(UserRole, "Explain X")];
    assert Visible(s.messages) == [Msg(UserRole, "Explain X")];
  }

  /** A first run of the script on a fresh session whose stream ends normally. */
  method FirstRun()
  {
    var s := new Session();
    assert Concat(["a"]) == "a" by { assert ["a"][..0] == []; }
    var h, t := s.Run(Some("q"), Stream(["a"], false));
    assert h == [];
    assert t.Sent? && t.reply.Finished? && t.reply.response == "a";
    assert s.messages == [Seed, Msg(UserRole, "q"), Msg(AssistantRole, "a")];
  }

  /** A rerun after one answered prompt whose stream raises: only the prompt is added. */
  method RaisingRerun(s: Session)
    requires s.Valid() && s.present
    requires s.messages == [Seed, Msg(UserRole, "q"), Msg(AssistantRole, "a")]
    modifies s
  {
    var answered := [Msg(UserRole, "q"), Msg(AssistantRole, "a")];
    VisibleNoSystem(answered);
    assert [Seed] + answered == s.messages;
    VisibleAppend([Seed], answered);
    var h, t := s.Run(Some("r"), Stream(["b"], true));
    assert h == [Msg(UserRole, "q"), Msg(AssistantRole, "a")];
    assert t.Sent? && t.reply.Raised?;
    assert s.messages == [Seed, Msg(UserRole, "q"), Msg(AssistantRole, "a"), Msg(UserRole, "r")];
  }
}
