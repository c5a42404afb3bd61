# Chat session transcript — a Dafny model

This project models the conversation logic of a small Streamlit chat front-end.
The front-end forwards each prompt to a hosted language model and streams the
reply back.

The model covers one browser session:

- The per-user session store may hold a `messages` transcript. A run of the
  script seeds it with one `system` entry carrying the persona
  "You are a helpful assistant.", but only when the store has no transcript yet.
  A rerun therefore never resets the history.
- The rendered history is the transcript without its `system` entries, in order.
- A non-empty prompt is stored as a `user` entry first. The whole transcript is
  then projected into the provider's message classes (human, AI, system), in
  order. An entry with any other role is dropped.
- The provider's stream of chunks is folded into a growing response. After
  every chunk the placeholder is repainted with the response followed by a
  `▌` cursor. When the stream ends normally, the placeholder is repainted
  once more without the cursor, and the response is stored as an
  `assistant` entry. When the stream raises, nothing more is stored.

Layout:

- `Messages.dfy` (module `Messages`) holds the transcript entry, the provider
  message kinds, the projection with its builder loop, and the rendered
  history.
- `Streaming.dfy` (module `Streaming`) holds the stream, the accumulation loop
  and the repaint sequence.
- `Session.dfy` (module `Session`) holds the `Session` class with the store's
  state (`present`, `messages`), `Init`, `Submit` and one whole script run
  (`Run`). A ghost list of exchanges records the prompts and their committed
  replies. `Valid()` ties `messages` to `Transcript(exchanges)`.
- `Scenarios.dfy` (module `Scenarios`) holds concrete runs: a seeding and a
  rerun, two answered prompts, an empty prompt, a stream that raises
  after one chunk, and two whole script runs through `Run`.

Points of the code that the model keeps exactly:

- The projection silently skips an entry whose role is not `user`,
  `assistant` or `system` (apps.py:66-72). `Project` does the same.
- A raising stream propagates its exception, so apps.py:84 is never reached.
  The model reports this as `Raised`, with the repaints made before the
  failure.
- The empty-prompt guard is the truthiness test at apps.py:58. Both an absent
  value and an empty string skip the submit flow.

## Model

| member | source | states |
|---|---|---|
| Messages.FromProvider | apps.py:67-72 | each provider message kind stands for a transcript entry of the matching role with the same content |
| Messages.ToProvider | apps.py:67-72 | an entry is converted exactly when its role is user, assistant or system, and the conversion reads back as the same entry |
| Messages.Unproject | apps.py:65-72 | reading a request back keeps its length |
| Messages.UnprojectAt | apps.py:65-72 | message i of a request reads back as entry i, by its kind |
| Messages.KnownOnly | apps.py:66-72 | the entries the projection keeps are no more than the input's and carry only the three known roles |
| Messages.KnownOnlyMembers | apps.py:66-72 | an entry is kept exactly when it is in the transcript and its role is one of the three |
| Messages.KnownOnlyAppend | apps.py:66-72 | dropping unknown roles works entry by entry over a concatenation |
| Messages.KnownOnlyAllKnown | apps.py:66-72 | a transcript holding only the three roles loses nothing |
| Messages.Project | apps.py:65-72 | the request has at most one message per transcript entry; its meaning is stated by ProjectRoundTrip and ProjectFaithful |
| Messages.ProjectAppend | apps.py:65-72 | the request for a concatenation is the two requests joined, in order |
| Messages.ProjectRoundTrip | apps.py:65-72 | reading the request back gives exactly the known-role entries, in order, with the same roles and contents |
| Messages.ProjectLength | apps.py:65-72 | on a transcript of the three roles the request has exactly one message per entry |
| Messages.ProjectFaithful | apps.py:65-72 | on a transcript of the three roles the request has one message per entry, each of the matching kind with the same content |
| Messages.BuildProviderMessages | apps.py:65-72 | the builder loop produces the projection, which reads back as the known-role entries |
| Messages.Visible | apps.py:48-53 | the rendered history is no longer than the transcript and holds no system entry |
| Messages.VisibleMembers | apps.py:48-53 | an entry is rendered exactly when it is in the transcript and its role is not system |
| Messages.VisibleAppend | apps.py:48-53 | the history of a concatenation is the two histories joined, in order |
| Messages.VisibleNoSystem | apps.py:48-53 | a transcript without system entries is rendered in full, in order |
| Streaming.Concat | apps.py:77-79 | the response after a run of chunks is their in-order concatenation; its properties are stated by ConcatAppend and ConcatPrefix |
| Streaming.ConcatAppend | apps.py:78-79 | folding two runs of chunks gives the two texts joined |
| Streaming.ConcatPrefix | apps.py:78-79 | the text after i chunks is a prefix of the text after any later chunk |
| Streaming.ConcatPrefixes | apps.py:78-79 | the text after chunk i is a prefix of the text after a later chunk j and of the final response |
| Streaming.Repaints | apps.py:78-80 | there is one repaint per chunk |
| Streaming.RepaintAt | apps.py:78-80 | the i-th repaint without its cursor is the text of the first i + 1 chunks |
| Streaming.RepaintsGrow | apps.py:77-81 | each repaint without its cursor is a prefix of every later one and of the final response |
| Streaming.Accumulate | apps.py:77-80 | the loop's response is the in-order concatenation of all chunks, with one repaint per chunk showing the text so far and the cursor |
| Streaming.Consume | apps.py:77-81 | a normal end yields the concatenation and a final repaint without cursor; a raising stream yields only the per-chunk repaints |
| Session.Transcript | apps.py:39-84 | the transcript after a run of exchanges is the seed followed by each exchange's entries; its shape is stated by TranscriptShape and AllAnsweredTranscript |
| Session.Entries | apps.py:60-84 | one exchange adds a user entry with the prompt, then an assistant entry with the reply only if one was committed |
| Session.TranscriptStep | apps.py:60-84 | each new exchange appends its entries and leaves all earlier entries unchanged |
| Session.TranscriptShape | apps.py:39-84 | the transcript starts with the seed, holds only the three roles, and has one entry for the seed, one per prompt and one per committed reply |
| Session.AllAnsweredTranscript | apps.py:58-84 | n answered prompts give 1 + 2n entries: the seed, then user and assistant entries alternating in submission order |
| Session.UserTurn | apps.py:60-72 | storing a prompt adds one user entry, and the request then ends with that prompt as a human message after one message per earlier entry |
| Session.AnsweredTurn | apps.py:60-84 | an answered prompt appends a user entry followed by an assistant entry |
| Session.Session.constructor | apps.py:39 | a new session store holds no transcript |
| Session.Session.Init | apps.py:39-43 | the first run seeds the transcript with exactly the persona system entry; a rerun leaves an existing transcript untouched |
| Session.Session.StorePrompt | apps.py:60 | the prompt becomes one new user entry at the end and every earlier entry is unchanged |
| Session.Session.StoreReply | apps.py:84 | the reply becomes one new assistant entry at the end, answering the prompt stored last |
| Session.Session.Submit | apps.py:58-84 | an absent or empty prompt changes nothing and sends nothing; otherwise the request is the projection of the transcript with the prompt appended; a normal end stores user and assistant entries and nothing else changes; a raising stream stores only the user entry |
| Session.Session.Run | apps.py:39-84 | one script run seeds if needed and renders the history as it then stood; an absent or empty prompt leaves the seeded transcript; otherwise the request is the projection of the seeded transcript with the prompt appended, a normal end stores the prompt and the concatenated chunks as user and assistant entries, a raising stream stores only the prompt, and the history grows by exactly the stored entries |
| Scenarios.TwoAnsweredPrompts | apps.py:39-84 | seeding, a rerun that keeps the seed, two answered prompts giving five entries in order, then an empty prompt that changes nothing |
| Scenarios.FailingStream | apps.py:58-84 | a stream that raises after "Sure" leaves the seed and the unanswered user entry, and the history shows only that entry |
| Scenarios.FirstRun | apps.py:39-84 | a first script run with chunk "a" renders an empty history and stores the prompt and "a" after the seed |
| Scenarios.RaisingRerun | apps.py:39-84 | a rerun whose stream raises renders the earlier exchange and adds only the new user entry |
| Scenarios.HelloReply | apps.py:77-81 | the chunks "Hi", " there", "!" give the response "Hi there!" with repaints "Hi▌", "Hi there▌", "Hi there!▌" |

## Left out

- The credential lookup and the stop on a missing key (apps.py:8-15) are framework I/O. `Session` assumes the script got past that guard.
- The page title and caption (apps.py:20-21) and the chat bubbles (apps.py:52-53, 61-62, 75-76) are rendering only. The model keeps the rendered history as a value and the repainted texts as a list.
- The client construction (apps.py:26-31) is left out. The model name and the 0.7 temperature are configuration that the logic never reads.
- The provider call `llm.stream` (apps.py:78) is a foreign network client. It becomes a caller-supplied `Stream`: the chunks it yields in order, and whether it raises after them.
- Streaming.Consume: a raised exception is reported as a `Raised` value. The model does not propagate it further up to the framework's error display.
- The unused `openai_model` session key (apps.py:36-37) is not read anywhere, so it is left out.
- Script reruns and overlapping submissions are managed by the framework. The model runs one submission at a time on one `Session` object. A rerun is a further call of `Init` or `Run`.
