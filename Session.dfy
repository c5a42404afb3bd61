/**
 * One chat session: the transcript held in the session store, seeded once,
 * and the submit flow that appends the user's prompt, sends the projected
 * transcript to the provider, folds the streamed reply and commits it.
 */
module Session {
  import opened Messages
  import opened Streaming

  /**
   * One submitted prompt and, when its stream ended normally, the reply
   * committed for it.
   */
  datatype Exchange = Exchange(prompt: string, reply: Option<string>)

  /** The entries one exchange adds to the transcript. */
  function Entries(e: Exchange): (r: seq<Msg>)
    ensures |r| == if e.reply.Some? then 2 else 1
    ensures r[0] == Msg(UserRole, e.prompt)
    ensures e.reply.Some? ==> r[1] == Msg(AssistantRole, e.reply.value)
  {
    [Msg(UserRole, e.prompt)] + (if e.reply.Some? then [Msg(AssistantRole, e.reply.value)] else [])
  }

  /** The transcript after a run of exchanges: the seed, then each exchange's entries. */
  function Transcript(exchanges: seq<Exchange>): seq<Msg>
  {
    if exchanges == [] then [Seed]
    else Transcript(exchanges[..|exchanges| - 1]) + Entries(exchanges[|exchanges| - 1])
  }

  lemma TranscriptStep(exchanges: seq<Exchange>, e: Exchange)
    ensures Transcript(exchanges + [e]) == Transcript(exchanges) + Entries(e)
  {
    assert (exchanges + [e])[..|exchanges|] == exchanges;
  }

  function Answered(exchanges: seq<Exchange>): (n: nat)
    ensures n <= |exchanges|
  {
    if exchanges == [] then 0
    else Answered(exchanges[..|exchanges| - 1]) + (if exchanges[|exchanges| - 1].reply.Some? then 1 else 0)
  }

  /**
   * The transcript starts with the seed, holds only the three known roles,
   * and has one entry for the seed, one per prompt and one per committed reply.
   */
  lemma {:induction false} TranscriptShape(exchanges: seq<Exchange>)
    ensures |Transcript(exchanges)| == 1 + |exchanges| + Answered(exchanges)
    ensures Transcript(exchanges)[0] == Seed
    ensures AllKnown(Transcript(exchanges))
  {
    if exchanges != [] {
      TranscriptShape(exchanges[..|exchanges| - 1]);
    }
  }

  /**
   * When every stream ended normally, n exchanges give 1 + 2n entries: the
   * seed, then a user entry and an assistant entry per exchange, in order.
   */
  lemma {:induction false} AllAnsweredTranscript(exchanges: seq<Exchange>)
    requires forall k :: 0 <= k < |exchanges| ==> exchanges[k].reply.Some?
    ensures |Transcript(exchanges)| == 1 + 2 * |exchanges|
    ensures forall k :: 0 <= k < |exchanges| ==>
              Transcript(exchanges)[2 * k + 1] == Msg(UserRole, exchanges[k].prompt) &&
              Transcript(exchanges)[2 * k + 2] == Msg(AssistantRole, exchanges[k].reply.value)
  {
    if exchanges != [] {
      var init := exchanges[..|exchanges| - 1];
      AllAnsweredTranscript(init);
      var t := Transcript(exchanges);
      assert t == Transcript(init) + Entries(exchanges[|exchanges| - 1]);
      forall k | 0 <= k < |exchanges|
        ensures t[2 * k + 1] == Msg(UserRole, exchanges[k].prompt)
        ensures t[2 * k + 2] == Msg(AssistantRole, exchanges[k].reply.value)
      {
        if k < |init| {
          assert exchanges[k] == init[k];
        }
      }
    }
  }

  /**
   * Storing a prompt adds one user entry to the transcript, and the request
   * then sent ends with that prompt as a human message, after one message
   * per earlier entry.
   */
  lemma UserTurn(exchanges: seq<Exchange>, p: string)
    ensures Transcript(exchanges + [Exchange(p, None)]) == Transcript(exchanges) + [Msg(UserRole, p)]
    ensures Project(Transcript(exchanges) + [Msg(UserRole, p)]) == Project(Transcript(exchanges)) + [HumanMessage(p)]
    ensures |Project(Transcript(exchanges) + [Msg(UserRole, p)])| == |Transcript(exchanges)| + 1
  {
    var ms := Transcript(exchanges);
    TranscriptStep(exchanges, Exchange(p, None));
    TranscriptShape(exchanges);
    ProjectAppend(ms, [Msg(UserRole, p)]);
    assert [Msg(UserRole, p)][..0] == [];
    ProjectLength(ms);
  }

  /** Committing a reply adds a user entry and then an assistant entry. */
  lemma AnsweredTurn(exchanges: seq<Exchange>, p: string, reply: string)
    ensures Transcript(exchanges + [Exchange(p, Some(reply))])
         == Transcript(exchanges) + [Msg(UserRole, p)] + [Msg(AssistantRole, reply)]
  {
    TranscriptStep(exchanges, Exchange(p, Some(reply)));
  }

  /** The transcript once seeding has run: the stored one, or the seed alone. */
  function Seeded(present: bool, messages: seq<Msg>): seq<Msg>
  {
    if present then messages else [Seed]
  }

  /** What one run of the submit flow did. */
  datatype Turn =
    /** No prompt was entered: nothing was sent or stored. */
    | NoPrompt
    /** The request was sent and the stream consumed as `reply` says. */
    | Sent(request: seq<ProviderMsg>, reply: Reply)

  /** The per-user session store and the transcript it may hold. */
  class Session {
    /** Whether the store holds a "messages" key at all. */
    var present: bool
    /** The transcript stored under that key. */
    var messages: seq<Msg>
    /** The exchanges the transcript records. */
    ghost var exchanges: seq<Exchange>

    ghost predicate Valid()
      reads this
    {
      (present ==> messages == Transcript(exchanges)) &&
      (!present ==> messages == [] && exchanges == [])
    }

    /** A session whose store does not yet hold a transcript. */
    constructor ()
      ensures Valid() && !present
    {
      present := false;
      messages := [];
      exchanges := [];
    }

    /**
     * Seeds the transcript with the persona entry when the store has none;
     * on a rerun of the script an existing transcript is left untouched.
     */
    method Init()
      requires Valid()
      modifies this
      ensures Valid() && present
      ensures old(present) ==> messages == old(messages) && exchanges == old(exchanges)
      ensures !old(present) ==> messages == [Seed] && exchanges == []
      ensures messages == Seeded(old(present), old(messages))
    {
      if !present {
        messages := [Seed];
        present := true;
      }
    }

    /** Stores a prompt as a user entry; no reply is committed for it yet. */
    method StorePrompt(p: string)
      requires Valid() && present
      modifies this
      ensures Valid() && present
      ensures messages == old(messages) + [Msg(UserRole, p)]
      ensures exchanges == old(exchanges) + [Exchange(p, None)]
    {
      UserTurn(exchanges, p);
      messages := messages + [Msg(UserRole, p)];
      exchanges := exchanges + [Exchange(p, None)];
    }

    /** Commits the reply to the prompt stored last as an assistant entry. */
    method StoreReply(p: string, reply: string)
      requires Valid() && present
      requires |exchanges| > 0 && exchanges[|exchanges| - 1] == Exchange(p, None)
      modifies this
      ensures Valid() && present
      ensures messages == old(messages) + [Msg(AssistantRole, reply)]
      ensures exchanges == old(exchanges)[..|old(exchanges)| - 1] + [Exchange(p, Some(reply))]
    {
      var earlier := exchanges[..|exchanges| - 1];
      assert exchanges == earlier + [Exchange(p, None)];
      UserTurn(earlier, p);
      AnsweredTurn(earlier, p, reply);
      messages := messages + [Msg(AssistantRole, reply)];
      exchanges := earlier + [Exchange(p, Some(reply))];
    }

    /**
     * The submit flow for the chat input's value: nothing happens for an
     * absent or empty prompt; otherwise the prompt is stored as a user entry,
     * the whole transcript is projected into the request, the stream is
     * folded into the response, and only when the stream ends normally is
     * the response stored as an assistant entry.
     */
    method Submit(prompt: Option<string>, stream: Stream) returns (turn: Turn)
      requires Valid() && present
      modifies this
      ensures Valid() && present
      ensures turn.NoPrompt? <==> prompt == None || prompt == Some("")
      ensures turn.NoPrompt? ==> messages == old(messages) && exchanges == old(exchanges)
      ensures turn.Sent? ==>
                turn.request == Project(old(messages) + [Msg(UserRole, prompt.value)]) &&
                |turn.request| == |old(messages)| + 1 &&
                turn.request[|turn.request| - 1] == HumanMessage(prompt.value)
      ensures turn.Sent? && turn.reply.Finished? ==>
                messages == old(messages) + [Msg(UserRole, prompt.value), Msg(AssistantRole, turn.reply.response)] &&
                exchanges == old(exchanges) + [Exchange(prompt.value, Some(turn.reply.response))]
      ensures turn.Sent? && turn.reply.Raised? ==>
                messages == old(messages) + [Msg(UserRole, prompt.value)] &&
                exchanges == old(exchanges) + [Exchange(prompt.value, None)]
      ensures turn.Sent? ==>
                (turn.reply.Finished? <==> !stream.raises) &&
                (turn.reply.Finished? ==>
                   turn.reply.response == Concat(stream.chunks) &&
                   turn.reply.shown == Repaints(stream.chunks) + [turn.reply.response]) &&
                (turn.reply.Raised? ==> turn.reply.shown == Repaints(stream.chunks))
    {
      if prompt == None || prompt == Some("") {
        return NoPrompt;
      }
      var p := prompt.value;
      StorePrompt(p);
      var request := BuildProviderMessages(messages);
      UserTurn(old(exchanges), p);
      var reply := Consume(stream);
      if reply.Finished? {
        StoreReply(p, reply.response);
      }
      turn := Sent(request, reply);
    }

    /**
     * One run of the script: seed the transcript if needed, render the
     * history as it stands, then handle the chat input's value.
     */
    method Run(prompt: Option<string>, stream: Stream) returns (history: seq<Msg>, turn: Turn)
      requires Valid()
      modifies this
      ensures Valid() && present
      ensures turn.NoPrompt? <==> prompt == None || prompt == Some("")
      ensures history == Visible(Seeded(old(present), old(messages)))
      ensures turn.NoPrompt? ==> messages == Seeded(old(present), old(messages))
      ensures turn.Sent? ==>
                turn.request == Project(Seeded(old(present), old(messages)) + [Msg(UserRole, prompt.value)]) &&
                turn.request[|turn.request| - 1] == HumanMessage(prompt.value)
      ensures turn.Sent? ==>
                (turn.reply.Finished? <==> !stream.raises) &&
                (turn.reply.Finished? ==>
                   turn.reply.response == Concat(stream.chunks) &&
                   turn.reply.shown == Repaints(stream.chunks) + [turn.reply.response]) &&
                (turn.reply.Raised? ==> turn.reply.shown == Repaints(stream.chunks))
      ensures turn.Sent? && turn.reply.Finished? ==>
                messages == Seeded(old(present), old(messages))
                            + [Msg(UserRole, prompt.value), Msg(AssistantRole, turn.reply.response)] &&
                Visible(messages) == history + [Msg(UserRole, prompt.value), Msg(AssistantRole, turn.reply.response)]
      ensures turn.Sent? && turn.reply.Raised? ==>
                messages == Seeded(old(present), old(messages)) + [Msg(UserRole, prompt.value)] &&
                Visible(messages) == history + [Msg(UserRole, prompt.value)]
    {
      Init();
      history := Visible(messages);
      ghost var before := messages;
      turn := Submit(prompt, stream);
      if turn.Sent? && turn.reply.Finished? {
        VisibleAppend(before, [Msg(UserRole, prompt.value), Msg(AssistantRole, turn.reply.response)]);
        VisibleNoSystem([Msg(UserRole, prompt.value), Msg(AssistantRole, turn.reply.response)]);
      } else if turn.Sent? {
        VisibleAppend(before, [Msg(UserRole, prompt.value)]);
        VisibleNoSystem([Msg(UserRole, prompt.value)]);
      }
    }
  }
}
