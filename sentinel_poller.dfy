/** The mention loop of the analysing bot (SentinelAI/main.py:44-239): load the cursor,
    authenticate, then per poll fetch mentions newer than the cursor and handle them oldest to
    newest, persisting the cursor after each mention that gets through.

    Every outside call (the platform, the backend, the language model, randomness) is an input:
    a `Poll` per cycle and a `MentionEnv` per mention. The `while True` loop is modelled by the
    finite sequence of polls it has run so far. */
module SentinelPoller {
  import opened Wrappers
  import opened Sequences
  import opened Text
  import opened CursorStore
  import opened Platform
  import opened Resolver
  import opened Composer

  /** What the name `model` at SentinelAI/main.py:178 stands for. As written the name is never
      defined, so the test raises `NameError`, which only the outer handler at :235 catches.
      `Bound(configured)` is the evidently intended test: whether a Gemini client was set up. */
  datatype ModelName = Undefined | Bound(configured: bool)

  /** The reading of `model` the source as written has. */
  const AsWritten := Undefined

  /** The call to the backend: it raised (transport error, `raise_for_status`, bad JSON), or it
      returned a JSON object, whose values are kept as the text the prompt formats them to. */
  datatype BackendOutcome = BackendRaises | BackendReturns(body: map<string, string>)

  /** The stand-in analysis used when the backend call fails (SentinelAI/main.py:171-174). */
  const BackendErrorBody: map<string, string> := map["error" := BackendErrorText, "reasoning_summary" := BackendErrorSummary]
  const BackendErrorText := "Backend analysis failed or timed out."
  const BackendErrorSummary := "I was unable to reach the Sentinel backend to analyze this media. Please try again later."

  /** `live_feed_data` after the backend step. */
  function LiveFeedData(b: BackendOutcome): (d: map<string, string>)
    ensures b.BackendRaises? ==> d == BackendErrorBody
    ensures b.BackendReturns? ==> d == b.body
  {
    match b
    case BackendRaises => BackendErrorBody
    case BackendReturns(body) => body
  }

  /** The facts the prompt at SentinelAI/main.py:185-200 gives the language model (its fixed
      wording is not modelled). The four analysis values it quotes are read from `analysis` by
      `Fact`. */
  datatype Prompt = Prompt(
    question: string,
    authorName: string,
    authorUsername: string,
    postText: string,
    mediaCount: nat,
    analysis: BackendOutcome)

  /** The value the prompt shows for an analysis key the backend did not give. */
  function FactDefault(key: string): string {
    if key == "reasoning_summary" then "No summary provided" else "unknown"
  }

  /** The value the prompt quotes for `key`: `live_feed_data.get(key, default)`. */
  function Fact(p: Prompt, key: string): (r: string)
    ensures key in LiveFeedData(p.analysis) ==> r == LiveFeedData(p.analysis)[key]
    ensures key !in LiveFeedData(p.analysis) ==> r == FactDefault(key)
  {
    Get(LiveFeedData(p.analysis), key, FactDefault(key))
  }

  function BuildPrompt(ctx: Context, botUsername: string, backend: BackendOutcome): (p: Prompt)
    ensures p.question == CleanQuestion(ctx.question, botUsername)
    ensures p.postText == ctx.subject.text && p.mediaCount == |ctx.mediaUrls|
    ensures p.authorName == ctx.subject.authorName && p.authorUsername == ctx.subject.authorUsername
    ensures p.analysis == backend
  {
    Prompt(
      CleanQuestion(ctx.question, botUsername),
      ctx.subject.authorName,
      ctx.subject.authorUsername,
      ctx.subject.text,
      |ctx.mediaUrls|,
      backend)
  }

  /** When the backend call fails, the prompt reports every score as "unknown". */
  lemma BackendFailureScoresUnknown(ctx: Context, botUsername: string)
    ensures var p := BuildPrompt(ctx, botUsername, BackendRaises);
            && Fact(p, "risk_level") == "unknown" && Fact(p, "trust_score") == "unknown"
            && Fact(p, "ai_generated_score") == "unknown"
  {
    var d := LiveFeedData(BackendRaises);
    assert d.Keys == {"error", "reasoning_summary"};
    assert "risk_level" !in d && "trust_score" !in d && "ai_generated_score" !in d;
  }

  /** When the backend call fails, the prompt passes the stand-in summary on. */
  lemma BackendFailureSummary(ctx: Context, botUsername: string)
    ensures Fact(BuildPrompt(ctx, botUsername, BackendRaises), "reasoning_summary") == BackendErrorSummary
  {
  }

  /** When the backend answers, the prompt quotes each of its values it has, and the default for
      each it lacks. */
  lemma BackendAnswerPrompt(ctx: Context, botUsername: string, body: map<string, string>, key: string)
    ensures var p := BuildPrompt(ctx, botUsername, BackendReturns(body));
            && (key in body ==> Fact(p, key) == body[key])
            && (key !in body ==> Fact(p, key) == FactDefault(key))
  {
  }

  /** Everything the outside world decides while one mention is handled: the parent fetch, the
      backend call, the language-model call, the two random values, and whether posting the
      reply succeeds. */
  datatype MentionEnv = MentionEnv(
    parent: ParentFetch,
    backend: BackendOutcome,
    llm: LlmOutcome,
    suffix: Suffix,
    token: ErrToken,
    postSucceeds: bool)

  /** A fetched mention together with what happens while it is handled. */
  datatype Arrival = Arrival(mention: Mention, env: MentionEnv)

  /** What one poll of `get_users_mentions` does: raise, or return mentions newest first with
      the response's `includes`. A `None` data field is an empty list here. */
  datatype Poll = PollRaises | PollReturns(data: seq<Arrival>, includes: Includes)

  /** The outside effects of the loop, in order. */
  datatype Event =
    | Polled(since: Cursor)
    | BackendCalled(payload: Payload)
    | LlmAsked(prompt: Prompt)
    | ReplyPosted(reply: Reply, inReplyTo: TweetId, accepted: bool)
    | Saved(id: TweetId)

  /** A mention either gets through to the cursor update, or an exception escapes to the outer
      handler; either way the events it caused are kept. */
  datatype Handled = Finished(events: seq<Event>) | Raised(events: seq<Event>)

  predicate IsBookkeeping(e: Event) {
    e.Polled? || e.Saved?
  }

  /** Handling a mention never polls and never saves the cursor. */
  predicate Quiet(h: Handled) {
    forall i :: 0 <= i < |h.events| ==> !IsBookkeeping(h.events[i])
  }

  /** What every handled mention looks like from outside: it neither polls nor saves; it posts at
      most one reply, to the mention itself, within the post limit; and a finished mention ends
      with that reply while a raising one posts nothing. */
  predicate WellShaped(h: Handled, id: TweetId) {
    && Quiet(h)
    && (forall i :: 0 <= i < |h.events| && h.events[i].ReplyPosted? ==>
          h.Finished? && i == |h.events| - 1 && h.events[i].inReplyTo == id && Bounded(h.events[i].reply))
    && (h.Finished? ==> h.events != [] && h.events[|h.events| - 1].ReplyPosted?)
  }

  /** The events of a mention whose context was resolved and whose `model` test passed
      (SentinelAI/main.py:152-227): the backend call, the prompt when there is one, and the
      reply post, which is the only post. */
  function MentionEvents(payload: Payload, prompt: Option<Prompt>, reply: Reply, id: TweetId, accepted: bool): (evs: seq<Event>)
    ensures |evs| >= 2 && evs[0] == BackendCalled(payload)
    ensures evs[|evs| - 1] == ReplyPosted(reply, id, accepted)
    ensures forall i :: 0 <= i < |evs| - 1 ==> evs[i].BackendCalled? || evs[i].LlmAsked?
    ensures prompt.Some? <==> |evs| == 3
    ensures prompt.Some? ==> evs[1] == LlmAsked(prompt.value)
  {
    [BackendCalled(payload)] + (if prompt.Some? then [LlmAsked(prompt.value)] else []) + [ReplyPosted(reply, id, accepted)]
  }

  /** A mention's events are well shaped whenever its reply is bounded. */
  lemma MentionEventsWellShaped(payload: Payload, prompt: Option<Prompt>, reply: Reply, id: TweetId, accepted: bool)
    requires Bounded(reply)
    ensures WellShaped(Finished(MentionEvents(payload, prompt, reply, id, accepted)), id)
  {
  }

  /** A mention past context resolution, SentinelAI/main.py:152-231: the backend call, then the
      `model` test, which raises when `model` is undefined. */
  function HandleResolved(model: ModelName, botUsername: string, ctx: Context, env: MentionEnv, id: TweetId): (h: Handled)
    ensures h.Raised? <==> model.Undefined?
    ensures WellShaped(h, id)
    ensures h.events != [] && h.events[0] == BackendCalled(BuildPayload(ctx))
    ensures h.Finished? ==>
              h.events[|h.events| - 1] == ReplyPosted(Answer(model.configured, env.llm, env.suffix, env.token), id, env.postSucceeds)
  {
    match model
    case Undefined => Raised([BackendCalled(BuildPayload(ctx))])
    case Bound(configured) =>
      var prompt := if configured then Some(BuildPrompt(ctx, botUsername, env.backend)) else None;
      var reply := Answer(configured, env.llm, env.suffix, env.token);
      MentionEventsWellShaped(BuildPayload(ctx), prompt, reply, id, env.postSucceeds);
      Finished(MentionEvents(BuildPayload(ctx), prompt, reply, id, env.postSucceeds))
  }

  /** One mention, SentinelAI/main.py:99-231. Backend, language-model and posting failures are
      caught where they happen; a raising `get_tweet` and the undefined `model` are not. */
  function HandleMention(model: ModelName, botUsername: string, includes: Includes, a: Arrival): (h: Handled)
    ensures h.Raised? <==> model.Undefined? || (FirstReply(a.mention).Some? && a.env.parent.GetTweetRaises?)
    ensures WellShaped(h, a.mention.id)
    ensures ResolveContext(a.mention, includes, a.env.parent).None? ==> h.events == []
    ensures ResolveContext(a.mention, includes, a.env.parent).Some? ==>
              h.events != [] && h.events[0] == BackendCalled(BuildPayload(ResolveContext(a.mention, includes, a.env.parent).value))
    ensures h.Finished? ==>
              h.events[|h.events| - 1] == ReplyPosted(Answer(model.configured, a.env.llm, a.env.suffix, a.env.token), a.mention.id, a.env.postSucceeds)
  {
    match ResolveContext(a.mention, includes, a.env.parent)
    case None => Raised([])
    case Some(ctx) => HandleResolved(model, botUsername, ctx, a.env, a.mention.id)
  }

  /** The step the loop runs on each mention, given the bot's username and the poll's
      `includes`. */
  type Handler = (string, Includes, Arrival) -> Handled

  /** The step of the source: `HandleMention` under a reading of `model`. */
  function Handling(model: ModelName): Handler {
    (botUsername, includes, a) => HandleMention(model, botUsername, includes, a)
  }

  /** Every mention of `order` handled on its own, in order. */
  function HandleAll(handle: Handler, botUsername: string, includes: Includes, order: seq<Arrival>): (hs: seq<Handled>)
    ensures |hs| == |order|
    ensures forall i :: 0 <= i < |order| ==> hs[i] == handle(botUsername, includes, order[i])
  {
    seq(|order|, i requires 0 <= i < |order| => handle(botUsername, includes, order[i]))
  }

  /** The state the loop carries: the cursor variable, the cursor file, the effects so far, and
      whether an exception ended the current batch early. */
  datatype CycleState = CycleState(cursor: Cursor, file: CursorFile, events: seq<Event>, stopped: bool)

  /** The bookkeeping of the `for` loop at SentinelAI/main.py:95-236 over mentions in processing
      order, given how each was handled: after a finished mention its id becomes `last_tweet_id`
      and is saved (:229-231); the first mention that raised ends the batch (:235-236). */
  function Advance(cursor: Cursor, file: CursorFile, ids: seq<TweetId>, hs: seq<Handled>): CycleState
    requires |ids| == |hs|
    decreases |hs|
  {
    if hs == [] then CycleState(cursor, file, [], false)
    else match hs[0]
      case Raised(events) => CycleState(cursor, file, events, true)
      case Finished(events) =>
        var rest := Advance(At(ids[0]), SaveLastTweetId(ids[0]), ids[1..], hs[1..]);
        rest.(events := events + [Saved(ids[0])] + rest.events)
  }

  function Ids(order: seq<Arrival>): (r: seq<TweetId>)
    ensures |r| == |order| && forall i :: 0 <= i < |order| ==> r[i] == order[i].mention.id
  {
    seq(|order|, i requires 0 <= i < |order| => order[i].mention.id)
  }

  /** The `for mention in reversed(...)` loop over mentions already in processing order. */
  function HandleBatch(handle: Handler, botUsername: string, includes: Includes,
                       cursor: Cursor, file: CursorFile, order: seq<Arrival>): CycleState
  {
    Advance(cursor, file, Ids(order), HandleAll(handle, botUsername, includes, order))
  }

  /** One pass of the `while True` body, SentinelAI/main.py:74-236. */
  function PollCycle(handle: Handler, botUsername: string, cursor: Cursor, file: CursorFile, poll: Poll): (st: CycleState)
    ensures st.events != [] && st.events[0] == Polled(cursor)
  {
    match poll
    case PollRaises => CycleState(cursor, file, [Polled(cursor)], true)
    case PollReturns(data, includes) =>
      var st := HandleBatch(handle, botUsername, includes, cursor, file, Reverse(data));
      st.(events := [Polled(cursor)] + st.events)
  }

  /** `st` with `prefix` put in front of its events. */
  function After(prefix: seq<Event>, st: CycleState): CycleState {
    st.(events := prefix + st.events)
  }

  /** One step of `Advance`: handling the next mention and continuing from the state it leaves. */
  lemma {:induction false} AdvanceStep(cursor: Cursor, file: CursorFile, ids: seq<TweetId>, hs: seq<Handled>, i: nat,
                    c: Cursor, f: CursorFile, events: seq<Event>)
    requires |ids| == |hs| && i < |hs|
    ensures hs[i].Raised? ==> After(events, Advance(c, f, ids[i..], hs[i..])) == CycleState(c, f, events + hs[i].events, true)
    ensures hs[i].Finished? ==>
              After(events, Advance(c, f, ids[i..], hs[i..])) ==
              After(events + hs[i].events + [Saved(ids[i])], Advance(At(ids[i]), SaveLastTweetId(ids[i]), ids[i + 1..], hs[i + 1..]))
  {
    assert hs[i..][0] == hs[i] && hs[i..][1..] == hs[i + 1..];
    assert ids[i..][0] == ids[i] && ids[i..][1..] == ids[i + 1..];
  }

  /** The body of the `while True` loop: the loop over one batch with `last_tweet_id` updated
      and saved after each mention, and an escaping exception ending the batch. */
  method RunPoll(handle: Handler, botUsername: string, cursor0: Cursor, file0: CursorFile, poll: Poll)
    returns (st: CycleState)
    ensures st == PollCycle(handle, botUsername, cursor0, file0, poll)
  {
    if poll.PollRaises? {
      return CycleState(cursor0, file0, [Polled(cursor0)], true);
    }
    var includes := poll.includes;
    var order := Reverse(poll.data);
    ghost var ids := Ids(order);
    ghost var hs := HandleAll(handle, botUsername, includes, order);
    var cursor, file, events := cursor0, file0, [Polled(cursor0)];
    var i := 0;
    while i < |order|
      invariant 0 <= i <= |order|
      invariant PollCycle(handle, botUsername, cursor0, file0, poll) == After(events, Advance(cursor, file, ids[i..], hs[i..]))
    {
      var handled := handle(botUsername, includes, order[i]);
      AdvanceStep(cursor0, file0, ids, hs, i, cursor, file, events);
      if handled.Raised? {
        return CycleState(cursor, file, events + handled.events, true);
      }
      var id := order[i].mention.id;
      events := events + handled.events + [Saved(id)];
      cursor := At(id);
      file := SaveLastTweetId(id);
      i := i + 1;
    }
    assert hs[i..] == [];
    return CycleState(cursor, file, events, false);
  }

  /** The whole loop after authentication, over the polls run so far. */
  function PollAll(handle: Handler, botUsername: string, cursor: Cursor, file: CursorFile, polls: seq<Poll>): CycleState
    decreases |polls|
  {
    if polls == [] then CycleState(cursor, file, [], false)
    else
      var st := PollCycle(handle, botUsername, cursor, file, polls[0]);
      After(st.events, PollAll(handle, botUsername, st.cursor, st.file, polls[1..]))
  }

  /** One step of `PollAll`: running the next poll and continuing from the state it leaves. */
  lemma {:induction false} PollAllStep(handle: Handler, botUsername: string, cursor: Cursor, file: CursorFile,
                                       polls: seq<Poll>, n: nat, events: seq<Event>)
    requires n < |polls|
    ensures var st := PollCycle(handle, botUsername, cursor, file, polls[n]);
            After(events, PollAll(handle, botUsername, cursor, file, polls[n..])) ==
            After(events + st.events, PollAll(handle, botUsername, st.cursor, st.file, polls[n + 1..]))
  {
    assert polls[n..][0] == polls[n] && polls[n..][1..] == polls[n + 1..];
  }

  /** The result of `check_mentions_loop`: `authenticated` is false when `get_me()` returned no
      data and the function returned before polling. */
  datatype RunState = RunState(cursor: Cursor, file: CursorFile, events: seq<Event>, authenticated: bool)

  /** `check_mentions_loop`, SentinelAI/main.py:60-239: the cursor comes from the file, `me` is
      the data `get_me()` returned, and `polls` are the cycles run so far. */
  method CheckMentionsLoop(handle: Handler, file0: CursorFile, me: Option<User>, polls: seq<Poll>)
    returns (run: RunState)
    ensures me.None? ==> run == RunState(InitialCursor(file0), file0, [], false)
    ensures me.Some? ==>
              var st := PollAll(handle, me.value.username, InitialCursor(file0), file0, polls);
              run == RunState(st.cursor, st.file, st.events, true)
  {
    var cursor := InitialCursor(file0);
    if me.None? {
      return RunState(cursor, file0, [], false);
    }
    var bot := me.value.username;
    var file := file0;
    var events: seq<Event> := [];
    var n := 0;
    while n < |polls|
      invariant 0 <= n <= |polls|
      invariant PollAll(handle, bot, InitialCursor(file0), file0, polls) ==
                After(events, PollAll(handle, bot, cursor, file, polls[n..]))
    {
      PollAllStep(handle, bot, cursor, file, polls, n, events);
      var st := RunPoll(handle, bot, cursor, file, polls[n]);
      events := events + st.events;
      cursor, file := st.cursor, st.file;
      n := n + 1;
    }
    assert polls[n..] == [];
    return RunState(cursor, file, events, true);
  }

  // ---------------------------------------------------------------------------------------
  // Properties of the loop.

  /** The ids of the `Saved` events, in order: every value the cursor file was given. */
  function SavedIds(events: seq<Event>): seq<TweetId> {
    if events == [] then []
    else (if events[0].Saved? then [events[0].id] else []) + SavedIds(events[1..])
  }

  lemma {:induction false} SavedIdsAppend(a: seq<Event>, b: seq<Event>)
    ensures SavedIds(a + b) == SavedIds(a) + SavedIds(b)
  {
    if a == [] {
      assert a + b == b;
    } else {
      assert (a + b)[0] == a[0] && (a + b)[1..] == a[1..] + b;
      SavedIdsAppend(a[1..], b);
    }
  }

  lemma {:induction false} NoSavedIds(events: seq<Event>)
    requires forall i :: 0 <= i < |events| ==> !IsBookkeeping(events[i])
    ensures SavedIds(events) == []
  {
    if events != [] {
      NoSavedIds(events[1..]);
    }
  }

  /** Every reply in `evs` is at once followed by saving the id of the mention it answers, and
      is bounded (so its text fits in a post, by `BoundedReplyFits`). */
  predicate SavedAfterEachReply(evs: seq<Event>) {
    forall i :: 0 <= i < |evs| && evs[i].ReplyPosted? ==>
      i + 1 < |evs| && evs[i + 1] == Saved(evs[i].inReplyTo) && Bounded(evs[i].reply)
  }

  /** How many handled mentions at the front of `hs` finished. */
  function Finishing(hs: seq<Handled>): (k: nat)
    ensures k <= |hs|
    ensures forall i :: 0 <= i < k ==> hs[i].Finished?
    ensures k < |hs| ==> hs[k].Raised?
  {
    if hs == [] || hs[0].Raised? then 0 else 1 + Finishing(hs[1..])
  }

  /** Where the cursor ends after a batch: at the last mention that got through, or where it
      was when none did; the batch stops early exactly when some mention raised. */
  lemma {:induction false} AdvanceCursor(cursor: Cursor, file: CursorFile, ids: seq<TweetId>, hs: seq<Handled>)
    requires |ids| == |hs|
    ensures Advance(cursor, file, ids, hs).stopped <==> Finishing(hs) < |hs|
    ensures Finishing(hs) == 0 ==> Advance(cursor, file, ids, hs).cursor == cursor && Advance(cursor, file, ids, hs).file == file
    ensures Finishing(hs) > 0 ==>
              && Advance(cursor, file, ids, hs).cursor == At(ids[Finishing(hs) - 1])
              && Advance(cursor, file, ids, hs).file == SaveLastTweetId(ids[Finishing(hs) - 1])
    decreases |hs|
  {
    if hs != [] && hs[0].Finished? {
      AdvanceCursor(At(ids[0]), SaveLastTweetId(ids[0]), ids[1..], hs[1..]);
      assert Finishing(hs) == 1 + Finishing(hs[1..]);
    }
  }

  /** The events of a finished mention followed by its `Saved` event and what comes after:
      only the `Saved` event adds an id. */
  lemma {:induction false} SavedIdsAfterMention(own: seq<Event>, id: TweetId, rest: seq<Event>)
    requires forall i :: 0 <= i < |own| ==> !IsBookkeeping(own[i])
    ensures SavedIds(own + [Saved(id)] + rest) == [id] + SavedIds(rest)
  {
    NoSavedIds(own);
    SavedIdsAppend(own + [Saved(id)], rest);
    SavedIdsAppend(own, [Saved(id)]);
    assert SavedIds([Saved(id)]) == [id] by {
      assert [Saved(id)][1..] == [];
    }
  }

  /** Every handled mention of `hs` is quiet. */
  predicate AllQuiet(hs: seq<Handled>) {
    forall i :: 0 <= i < |hs| ==> Quiet(hs[i])
  }

  /** What the cursor file is given during a batch: the ids of the mentions that got through,
      in processing order, and nothing for the first mention that raised or any after it. */
  lemma {:induction false} AdvanceSavedIds(cursor: Cursor, file: CursorFile, ids: seq<TweetId>, hs: seq<Handled>)
    requires |ids| == |hs|
    requires AllQuiet(hs)
    ensures SavedIds(Advance(cursor, file, ids, hs).events) == ids[..Finishing(hs)]
    decreases |hs|
  {
    if hs != [] {
      assert Quiet(hs[0]);
      if hs[0].Raised? {
        NoSavedIds(hs[0].events);
      } else {
        assert AllQuiet(hs[1..]) by {
          forall i | 0 <= i < |hs[1..]| ensures Quiet(hs[1..][i]) {
            assert hs[1..][i] == hs[i + 1];
          }
        }
        AdvanceSavedIds(At(ids[0]), SaveLastTweetId(ids[0]), ids[1..], hs[1..]);
        var rest := Advance(At(ids[0]), SaveLastTweetId(ids[0]), ids[1..], hs[1..]);
        SavedIdsAfterMention(hs[0].events, ids[0], rest.events);
        var k := Finishing(hs);
        assert ids[..k] == [ids[0]] + ids[1..][..k - 1];
      }
    }
  }

  /** A batch in which no mention raises is handled to the end: every id is saved in order and
      the cursor ends at the last one. */
  lemma {:induction false} AdvanceAllFinished(cursor: Cursor, file: CursorFile, ids: seq<TweetId>, hs: seq<Handled>)
    returns (st: CycleState)
    requires |ids| == |hs|
    requires forall i :: 0 <= i < |hs| ==> hs[i].Finished? && Quiet(hs[i])
    ensures st == Advance(cursor, file, ids, hs)
    ensures !st.stopped && SavedIds(st.events) == ids
    ensures st.cursor == (if ids == [] then cursor else At(ids[|ids| - 1]))
    ensures st.file == (if ids == [] then file else SaveLastTweetId(ids[|ids| - 1]))
  {
    assert Finishing(hs) == |hs|;
    AdvanceCursor(cursor, file, ids, hs);
    AdvanceSavedIds(cursor, file, ids, hs);
    assert ids[..|hs|] == ids;
    st := Advance(cursor, file, ids, hs);
  }

  /** Every reply posted in a batch is followed at once by saving that mention's id: the
      cursor is persisted before the next mention is touched. Every posted reply fits in a post. */
  lemma {:induction false} AdvanceSavesRightAfterReply(cursor: Cursor, file: CursorFile, ids: seq<TweetId>, hs: seq<Handled>)
    requires |ids| == |hs|
    requires forall i :: 0 <= i < |hs| ==> WellShaped(hs[i], ids[i])
    ensures SavedAfterEachReply(Advance(cursor, file, ids, hs).events)
    decreases |hs|
  {
    if hs != [] {
      assert WellShaped(hs[0], ids[0]);
      if hs[0].Finished? {
        assert forall i :: 0 <= i < |hs[1..]| ==> WellShaped(hs[1..][i], ids[1..][i]) by {
          forall i | 0 <= i < |hs[1..]| ensures WellShaped(hs[1..][i], ids[1..][i]) {
            assert hs[1..][i] == hs[i + 1] && ids[1..][i] == ids[i + 1];
          }
        }
        AdvanceSavesRightAfterReply(At(ids[0]), SaveLastTweetId(ids[0]), ids[1..], hs[1..]);
        var rest := Advance(At(ids[0]), SaveLastTweetId(ids[0]), ids[1..], hs[1..]).events;
        var own := hs[0].events;
        var evs := own + [Saved(ids[0])] + rest;
        var n := |own|;
        assert evs[n] == Saved(ids[0]);
        forall i | 0 <= i < |evs| && evs[i].ReplyPosted?
          ensures i + 1 < |evs| && evs[i + 1] == Saved(evs[i].inReplyTo) && Bounded(evs[i].reply)
        {
          if i < n {
            assert evs[i] == own[i];
          } else {
            assert i > n;
            var j := i - n - 1;
            assert evs[i] == rest[j];
            assert rest[j].ReplyPosted?;
            assert j + 1 < |rest|;
            assert evs[i + 1] == rest[j + 1];
          }
        }
      }
    }
  }

  /** The handling of any batch is well shaped. */
  lemma {:induction false} HandledWellShaped(model: ModelName, botUsername: string, includes: Includes, order: seq<Arrival>)
    ensures var hs := HandleAll(Handling(model), botUsername, includes, order);
            var ids := Ids(order);
            forall i :: 0 <= i < |hs| ==> WellShaped(hs[i], ids[i])
  {
  }

  /** How many mentions of `order` are handled before the first whose exception escapes (all of
      them when none does). */
  function Reached(handle: Handler, botUsername: string, includes: Includes, order: seq<Arrival>): (k: nat)
    ensures k <= |order|
    ensures forall i :: 0 <= i < k ==> handle(botUsername, includes, order[i]).Finished?
    ensures k < |order| ==> handle(botUsername, includes, order[k]).Raised?
  {
    Finishing(HandleAll(handle, botUsername, includes, order))
  }

  /** The cursor after a batch, in terms of the mentions: it ends at the last mention handled
      before the first escaping exception, or stays where it was when the oldest one raised.
      Backend, language-model and posting failures do not appear here: they never stop a
      mention. */
  lemma {:induction false} BatchCursorIsLastFinished(handle: Handler, botUsername: string, includes: Includes,
                                                   cursor: Cursor, file: CursorFile, order: seq<Arrival>)
    ensures HandleBatch(handle, botUsername, includes, cursor, file, order).stopped <==>
            Reached(handle, botUsername, includes, order) < |order|
    ensures Reached(handle, botUsername, includes, order) == 0 ==>
              && HandleBatch(handle, botUsername, includes, cursor, file, order).cursor == cursor
              && HandleBatch(handle, botUsername, includes, cursor, file, order).file == file
    ensures Reached(handle, botUsername, includes, order) > 0 ==>
              var last := order[Reached(handle, botUsername, includes, order) - 1].mention.id;
              && HandleBatch(handle, botUsername, includes, cursor, file, order).cursor == At(last)
              && HandleBatch(handle, botUsername, includes, cursor, file, order).file == SaveLastTweetId(last)
  {
    AdvanceCursor(cursor, file, Ids(order), HandleAll(handle, botUsername, includes, order));
  }

  /** The ids saved during a batch are those of the mentions handled before the first escaping
      exception, oldest first. */
  lemma {:induction false} BatchSavesReached(model: ModelName, botUsername: string, includes: Includes,
                                           cursor: Cursor, file: CursorFile, order: seq<Arrival>)
    ensures SavedIds(HandleBatch(Handling(model), botUsername, includes, cursor, file, order).events) ==
            Ids(order[..Reached(Handling(model), botUsername, includes, order)])
  {
    var hs := HandleAll(Handling(model), botUsername, includes, order);
    var k := Finishing(hs);
    assert AllQuiet(hs) by {
      HandledWellShaped(model, botUsername, includes, order);
    }
    AdvanceSavedIds(cursor, file, Ids(order), hs);
    assert Ids(order)[..k] == Ids(order[..k]);
  }

  /** Every reply posted in a batch is followed at once by saving the id of the mention it
      answers, and is bounded. */
  lemma {:induction false} BatchSavesRightAfterReply(model: ModelName, botUsername: string, includes: Includes,
                                  cursor: Cursor, file: CursorFile, order: seq<Arrival>)
    ensures SavedAfterEachReply(HandleBatch(Handling(model), botUsername, includes, cursor, file, order).events)
  {
    HandledWellShaped(model, botUsername, includes, order);
    AdvanceSavesRightAfterReply(cursor, file, Ids(order), HandleAll(Handling(model), botUsername, includes, order));
  }

  /** Every text posted during a batch is non-empty and fits within the platform's
      280-character limit. */
  lemma {:induction false} BatchRepliesFitPost(model: ModelName, botUsername: string, includes: Includes,
                                             cursor: Cursor, file: CursorFile, order: seq<Arrival>)
    ensures var evs := HandleBatch(Handling(model), botUsername, includes, cursor, file, order).events;
            forall i :: 0 <= i < |evs| && evs[i].ReplyPosted? ==> 0 < |ReplyText(evs[i].reply)| <= PostLimit
  {
    BatchSavesRightAfterReply(model, botUsername, includes, cursor, file, order);
    var evs := HandleBatch(Handling(model), botUsername, includes, cursor, file, order).events;
    forall i | 0 <= i < |evs| && evs[i].ReplyPosted?
      ensures 0 < |ReplyText(evs[i].reply)| <= PostLimit
    {
      BoundedReplyFits(evs[i].reply);
    }
  }

  /** The finding at SentinelAI/main.py:178: as written, `model` is undefined, so every mention
      ends in the outer handler right after the backend call. Nothing is posted, nothing is
      saved, the cursor stays where it was, and the batch is dropped at its oldest mention. */
  lemma {:induction false} AsWrittenPollNeverAdvances(botUsername: string, cursor: Cursor, file: CursorFile, poll: Poll)
    ensures var st := PollCycle(Handling(AsWritten), botUsername, cursor, file, poll);
            && st.cursor == cursor && st.file == file
            && (forall i :: 0 <= i < |st.events| ==> !st.events[i].ReplyPosted? && !st.events[i].Saved?)
            && (forall i :: 1 <= i < |st.events| ==> !st.events[i].Polled?)
            && (poll.PollReturns? && poll.data != [] ==> st.stopped)
  {
    if poll.PollReturns? && poll.data != [] {
      var order := Reverse(poll.data);
      var hs := HandleAll(Handling(AsWritten), botUsername, poll.includes, order);
      assert hs[0].Raised?;
      assert WellShaped(hs[0], order[0].mention.id);
    }
  }

  /** Over any number of polls the as-written loop stays stuck: every poll asks for mentions
      since the cursor it started with, so the same mentions come back every time, and the
      cursor file is never written. */
  lemma {:induction false} AsWrittenLoopIsStuck(botUsername: string, cursor: Cursor, file: CursorFile, polls: seq<Poll>)
    ensures var st := PollAll(Handling(AsWritten), botUsername, cursor, file, polls);
            && st.cursor == cursor && st.file == file
            && forall i :: 0 <= i < |st.events| ==>
                 !st.events[i].ReplyPosted? && !st.events[i].Saved? && (st.events[i].Polled? ==> st.events[i].since == cursor)
    decreases |polls|
  {
    if polls != [] {
      AsWrittenPollNeverAdvances(botUsername, cursor, file, polls[0]);
      AsWrittenLoopIsStuck(botUsername, cursor, file, polls[1..]);
      var st := PollCycle(Handling(AsWritten), botUsername, cursor, file, polls[0]);
      var rest := PollAll(Handling(AsWritten), botUsername, cursor, file, polls[1..]);
      var evs := st.events + rest.events;
      forall i | 0 <= i < |evs|
        ensures !evs[i].ReplyPosted? && !evs[i].Saved? && (evs[i].Polled? ==> evs[i].since == cursor)
      {
        if i < |st.events| {
          assert evs[i] == st.events[i];
        } else {
          assert evs[i] == rest.events[i - |st.events|];
        }
      }
    }
  }

  /** No arrival of `order` makes `get_tweet` raise. */
  predicate ParentFetchesSucceed(order: seq<Arrival>) {
    forall i :: 0 <= i < |order| ==> !(FirstReply(order[i].mention).Some? && order[i].env.parent.GetTweetRaises?)
  }

  /** With `model` bound as intended, a batch whose parent fetches do not raise is handled to
      the end, whatever the backend, the language model and the posting do: every mention is
      saved, oldest to newest, and the cursor and the file end at the newest one. */
  lemma {:induction false} IntendedPollReachesNewest(configured: bool, botUsername: string, cursor: Cursor, file: CursorFile,
                                  data: seq<Arrival>, includes: Includes)
    requires ParentFetchesSucceed(data)
    ensures var st := PollCycle(Handling(Bound(configured)), botUsername, cursor, file, PollReturns(data, includes));
            && !st.stopped
            && SavedIds(st.events) == Ids(Reverse(data))
            && st.cursor == (if data == [] then cursor else At(data[0].mention.id))
            && st.file == (if data == [] then file else SaveLastTweetId(data[0].mention.id))
  {
    var model := Bound(configured);
    var order := Reverse(data);
    var hs := HandleAll(Handling(model), botUsername, includes, order);
    forall i | 0 <= i < |order|
      ensures hs[i].Finished?
    {
      assert order[i] == data[|data| - 1 - i];
    }
    HandledWellShaped(model, botUsername, includes, order);
    var st := AdvanceAllFinished(cursor, file, Ids(order), hs);
    assert PollCycle(Handling(model), botUsername, cursor, file, PollReturns(data, includes)) == st.(events := [Polled(cursor)] + st.events);
    SavedIdsAppend([Polled(cursor)], st.events);
  }
}
