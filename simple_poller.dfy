/** The mention loop of the plain bot (main.py:50-93): load the cursor, authenticate, then per
    poll fetch mentions newer than the cursor and answer each, oldest to newest, with the fixed
    text "yoo", persisting the cursor after each reply. Unlike the analysing bot, nothing is
    caught per mention: a failing post ends the batch in the outer handler before the cursor
    moves past that mention.

    The platform's answers are inputs: a `Poll` per cycle, and for each fetched mention whether
    posting the reply succeeds. The `while True` loop is modelled by the polls it has run. */
module SimplePoller {
  import opened Wrappers
  import opened Sequences
  import opened CursorStore
  import opened Platform

  /** The only reply this bot ever posts (main.py:78). */
  const Yoo := "yoo"

  /** A fetched mention: its id, and whether `create_tweet` succeeds when it is answered. */
  datatype Arrival = Arrival(id: TweetId, postSucceeds: bool)

  /** What one poll of `get_users_mentions` does: raise, or return mentions newest first. An
      absent or empty `data` is the empty list. */
  datatype Poll = PollRaises | PollReturns(data: seq<Arrival>)

  /** The outside effects of the loop, in order. */
  datatype Event =
    | Polled(since: Cursor)
    | ReplyPosted(text: string, inReplyTo: TweetId, accepted: bool)
    | Saved(id: TweetId)

  /** The cursor variable, the cursor file, the effects so far, and whether an exception ended
      the current batch early. */
  datatype CycleState = CycleState(cursor: Cursor, file: CursorFile, events: seq<Event>, stopped: bool)

  /** `st` with `prefix` put in front of its events. */
  function After(prefix: seq<Event>, st: CycleState): CycleState {
    st.(events := prefix + st.events)
  }

  /** The `for` loop at main.py:73-85 over mentions in processing order: each is answered; a
      successful reply moves the cursor to the mention and saves it; a failing one raises out
      of the loop with the cursor where it was. */
  function Batch(cursor: Cursor, file: CursorFile, order: seq<Arrival>): CycleState
    decreases |order|
  {
    if order == [] then CycleState(cursor, file, [], false)
    else
      var m := order[0];
      if !m.postSucceeds then CycleState(cursor, file, [ReplyPosted(Yoo, m.id, false)], true)
      else After([ReplyPosted(Yoo, m.id, true), Saved(m.id)], Batch(At(m.id), SaveLastTweetId(m.id), order[1..]))
  }

  /** One pass of the `while True` body, main.py:63-90. */
  function PollCycle(cursor: Cursor, file: CursorFile, poll: Poll): (st: CycleState)
    ensures st.events != [] && st.events[0] == Polled(cursor)
  {
    match poll
    case PollRaises => CycleState(cursor, file, [Polled(cursor)], true)
    case PollReturns(data) => After([Polled(cursor)], Batch(cursor, file, Reverse(data)))
  }

  /** One step of `Batch`: answering the next mention and continuing from the state it leaves. */
  lemma {:induction false} BatchStep(cursor: Cursor, file: CursorFile, order: seq<Arrival>, i: nat, events: seq<Event>)
    requires i < |order|
    ensures !order[i].postSucceeds ==>
              After(events, Batch(cursor, file, order[i..])) ==
              CycleState(cursor, file, events + [ReplyPosted(Yoo, order[i].id, false)], true)
    ensures order[i].postSucceeds ==>
              After(events, Batch(cursor, file, order[i..])) ==
              After(events + [ReplyPosted(Yoo, order[i].id, true), Saved(order[i].id)],
                    Batch(At(order[i].id), SaveLastTweetId(order[i].id), order[i + 1..]))
  {
    assert order[i..][0] == order[i] && order[i..][1..] == order[i + 1..];
  }

  /** The body of the `while True` loop: answer the batch oldest first, updating and saving
      `last_tweet_id` after each reply, until the batch ends or a post raises. */
  method RunPoll(cursor0: Cursor, file0: CursorFile, poll: Poll) returns (st: CycleState)
    ensures st == PollCycle(cursor0, file0, poll)
  {
    if poll.PollRaises? {
      return CycleState(cursor0, file0, [Polled(cursor0)], true);
    }
    var order := Reverse(poll.data);
    var cursor, file, events := cursor0, file0, [Polled(cursor0)];
    var i := 0;
    while i < |order|
      invariant 0 <= i <= |order|
      invariant PollCycle(cursor0, file0, poll) == After(events, Batch(cursor, file, order[i..]))
    {
      var m := order[i];
      BatchStep(cursor, file, order, i, events);
      if !m.postSucceeds {
        return CycleState(cursor, file, events + [ReplyPosted(Yoo, m.id, false)], true);
      }
      events := events + [ReplyPosted(Yoo, m.id, true), Saved(m.id)];
      cursor := At(m.id);
      file := SaveLastTweetId(m.id);
      i := i + 1;
    }
    assert order[i..] == [];
    return CycleState(cursor, file, events, false);
  }

  /** The whole loop after authentication, over the polls run so far. */
  function PollAll(cursor: Cursor, file: CursorFile, polls: seq<Poll>): CycleState
    decreases |polls|
  {
    if polls == [] then CycleState(cursor, file, [], false)
    else
      var st := PollCycle(cursor, file, polls[0]);
      After(st.events, PollAll(st.cursor, st.file, polls[1..]))
  }

  lemma {:induction false} PollAllStep(cursor: Cursor, file: CursorFile, polls: seq<Poll>, n: nat, events: seq<Event>)
    requires n < |polls|
    ensures var st := PollCycle(cursor, file, polls[n]);
            After(events, PollAll(cursor, file, polls[n..])) ==
            After(events + st.events, PollAll(st.cursor, st.file, polls[n + 1..]))
  {
    assert polls[n..][0] == polls[n] && polls[n..][1..] == polls[n + 1..];
  }

  /** The result of `check_mentions_loop`: `authenticated` is false when `get_me()` returned no
      data and the function returned before polling. */
  datatype RunState = RunState(cursor: Cursor, file: CursorFile, events: seq<Event>, authenticated: bool)

  /** `check_mentions_loop`, main.py:50-93: the cursor comes from the file, `me` is the data
      `get_me()` returned, and `polls` are the cycles run so far. Without `me` nothing is polled
      and the file is left as it was. */
  method CheckMentionsLoop(file0: CursorFile, me: Option<User>, polls: seq<Poll>) returns (run: RunState)
    ensures me.None? ==> run == RunState(InitialCursor(file0), file0, [], false)
    ensures me.Some? ==>
              var st := PollAll(InitialCursor(file0), file0, polls);
              run == RunState(st.cursor, st.file, st.events, true)
  {
    var cursor := InitialCursor(file0);
    if me.None? {
      return RunState(cursor, file0, [], false);
    }
    var file := file0;
    var events: seq<Event> := [];
    var n := 0;
    while n < |polls|
      invariant 0 <= n <= |polls|
      invariant PollAll(InitialCursor(file0), file0, polls) == After(events, PollAll(cursor, file, polls[n..]))
    {
      PollAllStep(cursor, file, polls, n, events);
      var st := RunPoll(cursor, file, polls[n]);
      events := events + st.events;
      cursor, file := st.cursor, st.file;
      n := n + 1;
    }
    assert polls[n..] == [];
    return RunState(cursor, file, events, true);
  }

  // ---------------------------------------------------------------------------------------
  // Properties of the loop.

  /** How many mentions at the front of `order` are answered successfully. */
  function Replied(order: seq<Arrival>): (k: nat)
    ensures k <= |order|
    ensures forall i :: 0 <= i < k ==> order[i].postSucceeds
    ensures k < |order| ==> !order[k].postSucceeds
  {
    if order == [] || !order[0].postSucceeds then 0 else 1 + Replied(order[1..])
  }

  function Ids(order: seq<Arrival>): (r: seq<TweetId>)
    ensures |r| == |order| && forall i :: 0 <= i < |order| ==> r[i] == order[i].id
  {
    seq(|order|, i requires 0 <= i < |order| => order[i].id)
  }

  lemma IdsCons(m: Arrival, rest: seq<Arrival>)
    ensures Ids([m] + rest) == [m.id] + Ids(rest)
  {
    assert Ids([m] + rest) == [m.id] + Ids(rest) by {
      forall i | 0 <= i < |rest| + 1 ensures Ids([m] + rest)[i] == ([m.id] + Ids(rest))[i] {
        if i > 0 {
          assert ([m] + rest)[i] == rest[i - 1];
        }
      }
    }
  }

  /** The ids of the `Saved` events, in order: every value the cursor file was given. */
  function SavedIds(events: seq<Event>): seq<TweetId> {
    if events == [] then []
    else (if events[0].Saved? then [events[0].id] else []) + SavedIds(events[1..])
  }

  /** The mentions answered, in the order the replies were attempted. */
  function AnsweredIds(events: seq<Event>): seq<TweetId> {
    if events == [] then []
    else (if events[0].ReplyPosted? then [events[0].inReplyTo] else []) + AnsweredIds(events[1..])
  }

  lemma {:induction false} SavedIdsAppend(a: seq<Event>, b: seq<Event>)
    ensures SavedIds(a + b) == SavedIds(a) + SavedIds(b)
  {
    if a == [] {
      assert a + b == b;
    } else {
      assert (a + b)[0] == a[0] && (a + b)[1..] == a[1..] + b;
      SavedIdsAppend(a[1..], b);
    }
  }

  lemma {:induction false} AnsweredIdsAppend(a: seq<Event>, b: seq<Event>)
    ensures AnsweredIds(a + b) == AnsweredIds(a) + AnsweredIds(b)
  {
    if a == [] {
      assert a + b == b;
    } else {
      assert (a + b)[0] == a[0] && (a + b)[1..] == a[1..] + b;
      AnsweredIdsAppend(a[1..], b);
    }
  }

  /** Where a batch leaves the cursor: at the last mention answered successfully, or where it
      was when the oldest post failed or the batch was empty; it stops early exactly when a
      post failed. */
  lemma {:induction false} BatchCursorIsLastReplied(cursor: Cursor, file: CursorFile, order: seq<Arrival>)
    ensures Batch(cursor, file, order).stopped <==> Replied(order) < |order|
    ensures Replied(order) == 0 ==> Batch(cursor, file, order).cursor == cursor && Batch(cursor, file, order).file == file
    ensures Replied(order) > 0 ==>
              && Batch(cursor, file, order).cursor == At(order[Replied(order) - 1].id)
              && Batch(cursor, file, order).file == SaveLastTweetId(order[Replied(order) - 1].id)
    decreases |order|
  {
    if order != [] && order[0].postSucceeds {
      BatchCursorIsLastReplied(At(order[0].id), SaveLastTweetId(order[0].id), order[1..]);
      assert Replied(order) == 1 + Replied(order[1..]);
    }
  }

  /** A successful reply and its save, followed by `rest`: one mention answered, one id saved. */
  lemma RepliedThen(id: TweetId, rest: seq<Event>)
    ensures SavedIds([ReplyPosted(Yoo, id, true), Saved(id)] + rest) == [id] + SavedIds(rest)
    ensures AnsweredIds([ReplyPosted(Yoo, id, true), Saved(id)] + rest) == [id] + AnsweredIds(rest)
  {
    var head := [ReplyPosted(Yoo, id, true), Saved(id)];
    SavedIdsAppend(head, rest);
    AnsweredIdsAppend(head, rest);
    assert head[1..] == [Saved(id)] && head[1..][1..] == [];
  }

  /** What a batch writes: every successfully answered mention is saved, in order, and nothing
      else. */
  lemma {:induction false} BatchSavesReplied(cursor: Cursor, file: CursorFile, order: seq<Arrival>)
    ensures SavedIds(Batch(cursor, file, order).events) == Ids(order[..Replied(order)])
    decreases |order|
  {
    if order != [] {
      var m := order[0];
      if !m.postSucceeds {
        assert [ReplyPosted(Yoo, m.id, false)][1..] == [];
      } else {
        var rest := Batch(At(m.id), SaveLastTweetId(m.id), order[1..]);
        BatchSavesReplied(At(m.id), SaveLastTweetId(m.id), order[1..]);
        RepliedThen(m.id, rest.events);
        var k := Replied(order);
        assert order[..k] == [m] + order[1..][..k - 1];
        IdsCons(m, order[1..][..k - 1]);
      }
    }
  }

  /** How many mentions at the front of `order` get a reply attempt: the successful ones and
      the first failing one. */
  function Attempted(order: seq<Arrival>): (n: nat)
    ensures n == if Replied(order) < |order| then Replied(order) + 1 else |order|
  {
    if order == [] then 0 else if !order[0].postSucceeds then 1 else 1 + Attempted(order[1..])
  }

  /** Whom a batch answers: the mentions answered successfully and then the one whose post
      failed, if any; later mentions are not touched and come back in the next poll. */
  lemma {:induction false} BatchAnswersInOrder(cursor: Cursor, file: CursorFile, order: seq<Arrival>)
    ensures AnsweredIds(Batch(cursor, file, order).events) == Ids(order[..Attempted(order)])
    decreases |order|
  {
    if order != [] {
      var m := order[0];
      if !m.postSucceeds {
        assert [ReplyPosted(Yoo, m.id, false)][1..] == [];
        assert order[..1] == [m];
      } else {
        var rest := Batch(At(m.id), SaveLastTweetId(m.id), order[1..]);
        BatchAnswersInOrder(At(m.id), SaveLastTweetId(m.id), order[1..]);
        RepliedThen(m.id, rest.events);
        var n := Attempted(order);
        assert order[..n] == [m] + order[1..][..n - 1];
        IdsCons(m, order[1..][..n - 1]);
      }
    }
  }

  /** Every reply of a batch is the fixed text "yoo", addressed to the mention it answers. */
  predicate AllYoo(events: seq<Event>) {
    forall i :: 0 <= i < |events| && events[i].ReplyPosted? ==> events[i].text == Yoo
  }

  lemma {:induction false} BatchRepliesYoo(cursor: Cursor, file: CursorFile, order: seq<Arrival>)
    ensures AllYoo(Batch(cursor, file, order).events)
    decreases |order|
  {
    if order != [] && order[0].postSucceeds {
      var m := order[0];
      BatchRepliesYoo(At(m.id), SaveLastTweetId(m.id), order[1..]);
      var rest := Batch(At(m.id), SaveLastTweetId(m.id), order[1..]).events;
      var evs := [ReplyPosted(Yoo, m.id, true), Saved(m.id)] + rest;
      forall i | 0 <= i < |evs| && evs[i].ReplyPosted? ensures evs[i].text == Yoo {
        if i >= 2 {
          assert evs[i] == rest[i - 2];
        }
      }
    }
  }

  /** A poll with no new mentions changes nothing. */
  lemma EmptyPollKeepsCursor(cursor: Cursor, file: CursorFile)
    ensures PollCycle(cursor, file, PollReturns([])) == CycleState(cursor, file, [Polled(cursor)], false)
  {
    assert Reverse<Arrival>([]) == [];
  }

  /** A poll processes the newest-first answer oldest first: when every post succeeds, the
      replies go out in reverse of the returned order, and the cursor ends at the newest. */
  lemma {:induction false} PollAnswersOldestFirst(cursor: Cursor, file: CursorFile, data: seq<Arrival>)
    requires forall i :: 0 <= i < |data| ==> data[i].postSucceeds
    ensures var st := PollCycle(cursor, file, PollReturns(data));
            && !st.stopped
            && AnsweredIds(st.events) == Ids(Reverse(data))
            && SavedIds(st.events) == Ids(Reverse(data))
            && st.cursor == (if data == [] then cursor else At(data[0].id))
  {
    var order := Reverse(data);
    forall i | 0 <= i < |order| ensures order[i].postSucceeds {
      assert order[i] == data[|data| - 1 - i];
    }
    assert Replied(order) == |order|;
    BatchCursorIsLastReplied(cursor, file, order);
    BatchSavesReplied(cursor, file, order);
    BatchAnswersInOrder(cursor, file, order);
    assert order[..|order|] == order;
    var st := Batch(cursor, file, order);
    AnsweredIdsAppend([Polled(cursor)], st.events);
    SavedIdsAppend([Polled(cursor)], st.events);
  }

  /** The difference from the analysing bot: a failing post leaves the cursor and the file where
      they were, so that mention and every later one of the batch come back in the next poll. */
  lemma FailedPostKeepsCursor(cursor: Cursor, file: CursorFile, m: Arrival, rest: seq<Arrival>)
    requires !m.postSucceeds
    ensures var st := Batch(cursor, file, [m] + rest);
            st.stopped && st.cursor == cursor && st.file == file && SavedIds(st.events) == []
  {
    assert ([m] + rest)[0] == m;
  }
}
