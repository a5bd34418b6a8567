# Sentinel in Dafny

Sentinel is a bot that answers mentions on X (Twitter). Someone tags it under a post, and it
answers with an analysis of that post's text and images. This project models four parts of it:

- **The two mention loops**:
  - `SentinelAI/main.py` is the analysing bot.
  - `main.py` is a plain bot that always answers "yoo".
  - Both keep a cursor, the id of the last mention handled, in a file. Each poll asks the
    platform for mentions newer than the cursor. Mentions are handled oldest to newest, and the
    cursor is saved after each one.
- **The context resolver** of the analysing bot. It decides which post to analyse: the parent
  of the first `replied_to` reference, or the mention itself. It also picks that post's author
  and the ordered list of its image URLs.
- **The reply composer** of the analysing bot. It cleans the user's question, cuts the
  language model's answer to 250 characters, and appends a random reference tag.
- **The classifier plumbing of the backend** (`backend/app/ml.py` and
  `backend/app/sentinel_tools.py`). This covers:
  - the first-match search for a "fake" probability in a classifier's output;
  - the neutral 0.5 used when a classifier fails;
  - the lazily loaded, cached models;
  - the EXIF tag filter;
  - the face-count conventions (0, -1, n);
  - the face-gated GAN detector;
  - the result dicts of the two image analyses.

Outside calls are inputs of the model: the platform, the backend, the language model,
randomness, downloads, and the ML and OpenCV libraries. For example, a poll either raises or
returns mentions, and a classifier run either raises or returns predictions. The mention loops
are methods over the sequence of polls run so far. Each is proved equal to a specification
function of those polls. Lemmas about those functions state where the cursor ends, which ids
are saved, and in what order. The model cache of `ml.py` is a class whose fields are the three
module globals.

Modules:

- `Wrappers`: `Option`.
- `Text`: Python's `str.strip`, `lower`, `in`, `replace` and `str(int)`.
- `Sequences`: `reversed` and first/last match.
- `CursorStore`: the cursor file.
- `Platform`: the API objects.
- `Resolver`, `Composer`, `SentinelPoller` and `SimplePoller`.
- `Ml`: `ml.py`.
- `SentinelTools`: `sentinel_tools.py`.

## Model

| member | source | states |
|---|---|---|
| Wrappers.Get | backend/app/sentinel_tools.py:99 | `dict.get(key, default)`: the stored value when the key is present, the default otherwise. |
| Text.Strip | SentinelAI/main.py:48 | `str.strip()`: the result has no whitespace at either end and is no longer than the input. It is empty exactly when the input is all whitespace, and equals the input when the input has none at its ends. |
| Text.StripIsSlice | SentinelAI/main.py:48 | The stripped text is a slice `s[a..b]` of the input with only whitespace before `a` and after `b`. |
| Text.StripCharacterised | SentinelAI/main.py:48 | Conversely, a non-blank slice without edge whitespace, with only whitespace around it, is exactly what `strip` returns. |
| Text.StripIdempotent | SentinelAI/main.py:48 | Stripping twice is the same as stripping once. |
| Text.TrimBoth | SentinelAI/main.py:48 | Trimming the end and then the start gives a text with no edge whitespace. It is empty iff the input is all whitespace. |
| Text.ContainsAt | backend/app/ml.py:83 | Python's substring test `fl in label` holds iff the needle occurs at some index of the text. |
| Text.Contains | backend/app/ml.py:83 | Python's `needle in hay`, by recursion on the text. It has no contract of its own; `Text.ContainsAt` proves it holds iff the needle occurs at some index. |
| Text.EmptyContainsOnlyEmpty | backend/app/ml.py:82 | The empty label contains only the empty string. |
| Text.LongerNeverContained | backend/app/ml.py:83 | A needle longer than the text is never contained in it. |
| Text.Lower | backend/app/ml.py:82 | `lower()` keeps the length of the label, maps each ASCII capital to its small letter (code point + 32), keeps every other character, and leaves no ASCII capital. |
| Text.RemoveAll | SentinelAI/main.py:181 | `str.replace(pat, "")` never lengthens the text, and leaves it unchanged when the pattern does not occur. |
| Text.RemoveAllFirstOccurrence | SentinelAI/main.py:181 | Scanning left to right: when `pat` first occurs right after `a`, the result is `a` followed by the removal applied to the text after that occurrence. |
| Text.Decimal | SentinelAI/main.py:57 | `str(id)` is a non-empty run of digits without a leading zero, except for 0 itself. |
| Text.DecimalRoundTrip | SentinelAI/main.py:57 | Reading back the decimal text of an id gives the id. |
| Text.DecimalHasNoSpace | SentinelAI/main.py:48 | A saved id has no whitespace to strip and is not blank. |
| CursorStore.LoadLastTweetId | SentinelAI/main.py:44-51 | A missing file gives None. Otherwise the result is None iff the content is all whitespace, and else it is `Strip` of the content: non-empty, without edge whitespace, no longer than the content. |
| CursorStore.LoadDropsSurroundingSpace | SentinelAI/main.py:46-48 | An id with whitespace around it in the file (a trailing newline, say) loads as exactly the id. |
| CursorStore.SaveLastTweetId | SentinelAI/main.py:54-57 | The file then exists and holds a non-empty run of digits. |
| CursorStore.InitialCursor | SentinelAI/main.py:62 | The loop starts unset exactly when loading gives None, and otherwise at the loaded text. |
| CursorStore.SaveThenLoad | SentinelAI/main.py:44-57 | Saving an id and loading it back gives its decimal text, whose value is the id. |
| CursorStore.StoredTextRoundTrip | main.py:34-41 | Loading a file that holds a non-empty text without edge whitespace gives exactly that text. |
| CursorStore.LoadIsIdempotent | main.py:34-47 | Saving what was loaded and loading again gives the same cursor. |
| Sequences.Reverse | SentinelAI/main.py:95 | `reversed`: the element at i is the one at the mirrored index. |
| Sequences.FirstIndex | SentinelAI/main.py:124 | `next(...)` over a list: the first index satisfying the test, or None when no element does. |
| Sequences.LastIndex | SentinelAI/main.py:92 | A dict built by id from a list keeps the last index satisfying the test, or None when no element does. |
| Resolver.CollectParentMedia | SentinelAI/main.py:130-136 | The loop that appends the parent's media URLs computes `ParentMediaUrls` of the media list. |
| Resolver.ParentContribution | SentinelAI/main.py:131-136 | One parent media object gives at most one URL: its `url` for a photo or GIF, its preview for a video iff the preview is truthy, nothing for any other type. |
| Resolver.ParentMediaUrls | SentinelAI/main.py:131-136 | The parent's media list gives at most one URL per object. |
| Resolver.AllStillsGiveUrls | SentinelAI/main.py:131-133 | When every object is a photo or GIF, the URLs are exactly their `url`s, one per object, in order. |
| Resolver.ParentMediaUrlsAppend | SentinelAI/main.py:131-136 | The URLs of two media lists put together are the URLs of the first, then those of the second. Attachment order is kept. |
| Resolver.ParentMediaUrlsBound | SentinelAI/main.py:131-136 | Each media object gives at most one URL. No URL comes from media that are neither still images nor videos. |
| Resolver.ParentPrimaryIsFirstStill | SentinelAI/main.py:131-133 | When the first contributing medium is a photo or GIF, the first URL is its `url`. |
| Resolver.CollectMentionMedia | SentinelAI/main.py:142-148 | The loop over the mention's media keys computes `MentionMediaUrls` of those keys. |
| Resolver.MentionContribution | SentinelAI/main.py:145-148 | One media object of the mention gives at most one URL: its `url` for a photo or GIF, its preview for a video iff the object has the attribute (a `None` preview included), nothing for any other type. |
| Resolver.KeyIndex | SentinelAI/main.py:143 | The media object chosen for a key is the first one carrying that key; None when no object carries it. |
| Resolver.MentionMediaUrls | SentinelAI/main.py:142-148 | The mention's media keys give at most one URL per key. |
| Resolver.MentionMediaUrlsAppend | SentinelAI/main.py:142-148 | The URLs of two key lists put together are those of the first, then those of the second. Key order is kept. |
| Resolver.UnknownKeysAreSkipped | SentinelAI/main.py:143-144 | A media key that matches no media object adds nothing. |
| Resolver.NoKeyNoIndex | SentinelAI/main.py:143 | A key that no media object carries has no match. |
| Resolver.MentionAuthor | SentinelAI/main.py:92-102 | With no users, or no user holding the author's id, the result is "unknown"/"Unknown". Otherwise it is the username and name of the last user with that id. |
| Resolver.ParentAuthor | SentinelAI/main.py:123-127 | The parent's author is the first user in the parent's includes with the parent's author id. When there is none, the fallback is kept. |
| Resolver.FirstReply | SentinelAI/main.py:105-109 | The reference chosen is a `replied_to` reference of the mention, at an index before which no reference is a reply: the first one. None is chosen only when there is no such reference. |
| Resolver.ResolveSubject | SentinelAI/main.py:99-137 | Resolution fails exactly when there is a reply reference and `get_tweet` raises. With parent data the subject is the parent's text, author and media. Otherwise it is the mention's text and author with no media. |
| Resolver.OnlyFirstReplyMatters | SentinelAI/main.py:137 | Because of the `break`, the subject depends only on the first reply reference. |
| Resolver.MediaUrls | SentinelAI/main.py:139-148 | The parent's URLs when there are any. Otherwise the mention's media keys are consulted, only when its attachments are truthy and the response includes media, and none are added otherwise. |
| Resolver.ResolveContext | SentinelAI/main.py:99-148 | No context exactly when `get_tweet` raises. Otherwise the question is the mention text, the subject is the resolved one, and the URLs are the subject's or the mention's own as `MediaUrls` decides. |
| Resolver.BuildPayload | SentinelAI/main.py:154-163 | The payload has `image_url` iff the URL list is non-empty, and then it is the first URL. The other fields are the subject's text, author and media list. |
| Composer.CleanQuestion | SentinelAI/main.py:181-183 | The question is never empty and has no edge whitespace. It is the default question when nothing but whitespace is left after removing the handle, and otherwise the stripped text left. It is the stripped question when the handle does not occur. |
| Composer.LeadingHandleIsCut | SentinelAI/main.py:181-183 | A question that starts with the bot's handle is cleaned as the text after the handle would be. |
| Composer.BareMentionAsksDefault | SentinelAI/main.py:181-183 | A mention holding only the bot's handle asks the default question. |
| Composer.HandleCanSurviveCleaning | SentinelAI/main.py:181 | One pass of `replace` can leave the handle in the question: "@@BotBot" cleans to "@Bot". |
| Composer.TruncateAnswer | SentinelAI/main.py:209-210 | At most 250 characters. A short answer is kept whole. A long one keeps its first 247 characters and ends in "...". |
| Composer.RefTag | SentinelAI/main.py:214 | The reference tag is 13 characters long. |
| Composer.ComposeReply | SentinelAI/main.py:205-214 | The reply is the stripped, cut answer followed by the 13-character tag of the suffix. It is at most 263 code points. |
| Composer.ShortAnswerKept | SentinelAI/main.py:209-214 | An answer of at most 250 characters after stripping appears whole before the tag. |
| Composer.DistinctSuffixesDistinctReplies | SentinelAI/main.py:212-214 | Different random suffixes always give different reply texts, whatever the answers. |
| Composer.ErrorReply | SentinelAI/main.py:217 | The error reply is the fixed head, then three decimal digits that read back as the token, then "]". |
| Composer.ReplyText | SentinelAI/main.py:177-222 | The posted text: the fixed apology, the composed reply, or the error reply. |
| Composer.Answer | SentinelAI/main.py:177-217 | The apology iff no client is configured. A composed reply iff an answer text came back. Otherwise the error notice with the drawn token. |
| Composer.BoundedReplyFits | SentinelAI/main.py:207-214 | A bounded reply is non-empty and at most 280 code points long. |
| Composer.EveryReplyFitsPost | SentinelAI/main.py:177-217 | Every reply the bot can decide on is non-empty and fits in a post of 280 code points. |
| SentinelPoller.LiveFeedData | SentinelAI/main.py:165-174 | The backend's JSON on success, and the fixed error body when the call raises. |
| SentinelPoller.Fact | SentinelAI/main.py:192-195 | A fact in the prompt is the backend's value for that key, or its default when the key is absent. |
| SentinelPoller.BuildPrompt | SentinelAI/main.py:181-200 | The prompt holds the cleaned question, the subject's text and author, the media count and the backend's analysis. |
| SentinelPoller.BackendFailureScoresUnknown | SentinelAI/main.py:169-195 | After a backend failure the risk level, trust score and AI score read "unknown". |
| SentinelPoller.BackendFailureSummary | SentinelAI/main.py:169-195 | After a backend failure the reasoning is the fixed "unable to reach" summary. |
| SentinelPoller.BackendAnswerPrompt | SentinelAI/main.py:165-195 | After a backend answer each fact is the answer's value, or its default when the key is missing. |
| SentinelPoller.MentionEvents | SentinelAI/main.py:152-227 | A handled mention calls the backend first. It asks the model only when a client is configured. It ends by posting a reply to that mention. |
| SentinelPoller.MentionEventsWellShaped | SentinelAI/main.py:152-227 | A handled mention's effects post one bounded reply, to that mention, and save nothing themselves. |
| SentinelPoller.HandleResolved | SentinelAI/main.py:152-231 | After resolution the mention raises iff `model` is undefined. A finished one posts the reply `Answer` decides, whatever the backend and posting do. |
| SentinelPoller.HandleMention | SentinelAI/main.py:98-231 | A mention escapes to the outer handler iff `model` is undefined or its parent fetch raises. Backend, model and posting failures are caught. A resolved mention first calls the backend with the payload built from its context; an unresolved one has no effect. |
| SentinelPoller.HandleAll | SentinelAI/main.py:95-231 | Each mention of the batch is handled on its own, in processing order. |
| SentinelPoller.Ids | SentinelAI/main.py:230 | The ids of the mentions, in the same order. |
| SentinelPoller.PollCycle | SentinelAI/main.py:75-236 | Every cycle starts by polling since the current cursor. |
| SentinelPoller.AdvanceStep | SentinelAI/main.py:229-236 | A raising mention ends the batch with the cursor unchanged. A finished one saves its id and continues from it. |
| SentinelPoller.Advance | SentinelAI/main.py:229-236 | The cursor bookkeeping over handled mentions; it has no contract of its own. `AdvanceCursor`, `AdvanceSavedIds` and `AdvanceAllFinished` state where the cursor ends and which ids are saved. |
| SentinelPoller.HandleBatch | SentinelAI/main.py:95-236 | A batch: each mention handled, then `Advance`. `BatchCursorIsLastFinished` and `BatchSavesReached` state its result. |
| SentinelPoller.RunPoll | SentinelAI/main.py:74-236 | The loop over one batch, with the cursor reassigned and saved per mention, computes `PollCycle`. |
| SentinelPoller.PollAllStep | SentinelAI/main.py:73-239 | Running the polls from the n-th one continues from the state the n-th cycle leaves. |
| SentinelPoller.PollAll | SentinelAI/main.py:73-239 | The cycles one after another, each from the state the previous one left. `PollAllStep` states the step, `AsWrittenLoopIsStuck` the result for the code as written. |
| SentinelPoller.CheckMentionsLoop | SentinelAI/main.py:60-239 | Without `get_me` data: no poll, no effect, cursor file untouched. Otherwise: the cursor loaded from the file, then the state `PollAll` gives for the polls run. |
| SentinelPoller.SavedIdsAppend | SentinelAI/main.py:231 | The ids saved over two runs of effects are those of the first, then those of the second. |
| SentinelPoller.NoSavedIds | SentinelAI/main.py:152-227 | Effects with no save record save no id. |
| SentinelPoller.Finishing | SentinelAI/main.py:95-236 | The number of mentions handled before the first escaping exception. |
| SentinelPoller.AdvanceCursor | SentinelAI/main.py:229-236 | The batch stops early iff some mention raised. The cursor and file end at the last finished mention, or stay unchanged when none finished. |
| SentinelPoller.SavedIdsAfterMention | SentinelAI/main.py:229-231 | The save after a mention's own effects records its id first. |
| SentinelPoller.AdvanceSavedIds | SentinelAI/main.py:229-236 | The ids saved are exactly those of the mentions before the first escaping exception, in order. |
| SentinelPoller.AdvanceAllFinished | SentinelAI/main.py:95-231 | When no mention raises, all ids are saved and the cursor and file end at the last one. |
| SentinelPoller.AdvanceSavesRightAfterReply | SentinelAI/main.py:219-231 | Every posted reply is bounded and is followed at once by saving the id it answered. |
| SentinelPoller.HandledWellShaped | SentinelAI/main.py:98-231 | Every mention's effects are well shaped for its own id. |
| SentinelPoller.Reached | SentinelAI/main.py:95-236 | How far a batch gets: all mentions before it finished, and the one at it raised. |
| SentinelPoller.BatchCursorIsLastFinished | SentinelAI/main.py:95-236 | After a batch the cursor and file hold the last mention reached, or are unchanged when the oldest raised. The batch stops early iff one raised. |
| SentinelPoller.BatchSavesReached | SentinelAI/main.py:95-236 | A batch saves exactly the ids of the mentions it reached, oldest first. |
| SentinelPoller.BatchSavesRightAfterReply | SentinelAI/main.py:219-231 | Within a batch, every reply is followed at once by saving its mention's id. |
| SentinelPoller.BatchRepliesFitPost | SentinelAI/main.py:219-224 | Every text posted during a batch is non-empty and at most 280 code points long. |
| SentinelPoller.AsWrittenPollNeverAdvances | SentinelAI/main.py:178 | As written, a poll posts nothing, saves nothing, keeps the cursor, and drops a non-empty batch at its oldest mention. |
| SentinelPoller.AsWrittenLoopIsStuck | SentinelAI/main.py:73-239 | As written, over any number of polls, every poll asks since the initial cursor and nothing is ever posted or saved. |
| SentinelPoller.IntendedPollReachesNewest | SentinelAI/main.py:95-231 | With `model` bound and no raising parent fetch, every mention is saved oldest first, and the cursor and file end at the newest. |
| SimplePoller.PollCycle | main.py:63-90 | Every cycle starts by polling since the current cursor. |
| SimplePoller.BatchStep | main.py:73-90 | A failing post ends the batch with the cursor unchanged. A successful one saves the id and continues from it. |
| SimplePoller.Batch | main.py:73-90 | A batch of the plain bot. `BatchCursorIsLastReplied`, `BatchSavesReplied` and `BatchAnswersInOrder` state its result. |
| SimplePoller.RunPoll | main.py:63-90 | The loop over one batch, with the cursor reassigned and saved per reply, computes `PollCycle`. |
| SimplePoller.PollAllStep | main.py:62-93 | Running the polls from the n-th one continues from the state the n-th cycle leaves. |
| SimplePoller.PollAll | main.py:62-93 | The cycles one after another. `PollAllStep` states the step. |
| SimplePoller.CheckMentionsLoop | main.py:50-93 | Without `get_me` data: no poll and no effect. Otherwise: the state `PollAll` gives from the loaded cursor. |
| SimplePoller.Replied | main.py:73-85 | The number of mentions whose post succeeds before the first failing one. |
| SimplePoller.Ids | main.py:84 | The ids of the mentions, in the same order. |
| SimplePoller.IdsCons | main.py:84 | The ids of a mention followed by others. |
| SimplePoller.SavedIdsAppend | main.py:85 | The ids saved over two runs of effects are those of the first, then the second. |
| SimplePoller.AnsweredIdsAppend | main.py:77-80 | The ids answered over two runs of effects are those of the first, then the second. |
| SimplePoller.BatchCursorIsLastReplied | main.py:73-90 | The batch stops early iff a post failed. The cursor and file end at the last replied mention, or are unchanged. |
| SimplePoller.RepliedThen | main.py:77-85 | A successful reply is followed by saving its id. |
| SimplePoller.BatchSavesReplied | main.py:73-90 | A batch saves exactly the ids of the replied mentions, oldest first. |
| SimplePoller.Attempted | main.py:73-90 | The mentions a post was attempted for: the replied ones plus the failing one. |
| SimplePoller.BatchAnswersInOrder | main.py:73-90 | Replies go to exactly the attempted mentions, in processing order. |
| SimplePoller.BatchRepliesYoo | main.py:77-80 | Every reply posted during a batch is the fixed text "yoo". |
| SimplePoller.EmptyPollKeepsCursor | main.py:71-87 | An empty poll changes neither the cursor nor the file. |
| SimplePoller.PollAnswersOldestFirst | main.py:73-85 | With every post succeeding, replies and saves go oldest first, and the cursor ends at the newest. |
| SimplePoller.FailedPostKeepsCursor | main.py:77-90 | A failing post keeps the cursor and file and saves nothing, so the mention comes back. |
| Ml.ScoreOf | backend/app/ml.py:84 | `float(item["score"])` gives a probability iff the item has a score, and raises `KeyError` otherwise. |
| Ml.LabelMatches | backend/app/ml.py:83 | `any(fl in label for fl in fake_labels)`, as an existential over the list; no contract of its own. |
| Ml.IsFake | backend/app/ml.py:82-83 | The label, lowercased and read as "" when missing, contains a fake label; no contract of its own. |
| Ml.ExtractFakeProb | backend/app/ml.py:79-85 | The search itself; no contract of its own. `ExtractIsFirstMatch` proves it equal to the score of the first matching item, or 0.0. |
| Ml.ExtractIsFirstMatch | backend/app/ml.py:79-85 | The extraction is the score of the first item whose lowercased label contains a fake label, or 0.0 when none does. |
| Ml.ExtractFirstMatch | backend/app/ml.py:81-84 | When item i is the first fake-labelled one, its score is what is returned. |
| Ml.ExtractNoMatch | backend/app/ml.py:85 | With no matching item, the empty list included, the result is 0.0. |
| Ml.MissingLabelNeverMatches | backend/app/ml.py:82 | A missing label reads as "" and never matches a non-empty fake label. |
| Ml.UpperCaseLabelsMatch | backend/app/ml.py:82-84 | Labels are compared lowercased: "FAKE" matches for the face detector. |
| Ml.FailureResult | backend/app/ml.py:101-103 | A failing detector gives fake_prob 0.5 and the error text, and no raw output. |
| Ml.ScoreWith | backend/app/ml.py:93-103 | The error key is present iff the pipeline raised or a matching item had no score, and then fake_prob is the neutral 0.5. Otherwise fake_prob is the extracted score and raw holds the output. |
| Ml.DetectorDictShape | backend/app/ml.py:100-103 | A detector dict holds exactly fake_prob and raw, or fake_prob and error. |
| Ml.CacheAfter | backend/app/ml.py:39-48 | A filled cache is kept. An empty one is filled exactly when construction succeeds. |
| Ml.CacheIsStable | backend/app/ml.py:31-36 | Once a model is cached, later calls change nothing. |
| Ml.Scored | backend/app/ml.py:88-103 | A failing load gives the failure dict. Otherwise the result is the dict of the run. |
| Ml.FailureIsNeutral | backend/app/ml.py:101-121 | A failing detector scores 0.5, never the no-match 0.0. |
| Ml.ConstructFresh | backend/app/ml.py:31-60 | A model constructed while its slot is empty was not constructed before. |
| Ml.Models.constructor | backend/app/ml.py:26-28 | The three caches start empty, and nothing has been constructed or run. |
| Ml.Models.GetClipModel | backend/app/ml.py:31-36 | Returns the cached model, or constructs and caches it. Other caches are unchanged. Each model is constructed at most once. |
| Ml.Models.GetSdxlPipeline | backend/app/ml.py:39-48 | The same for the diffusion detector. |
| Ml.Models.GetGanPipeline | backend/app/ml.py:51-60 | The same for the face-GAN detector. |
| Ml.Models.ScoreSdxl | backend/app/ml.py:88-103 | The dict is `Scored` with the diffusion labels. The diffusion detector is loaded at most once, and its run is recorded. |
| Ml.Models.ScoreGanFace | backend/app/ml.py:106-121 | The dict is `Scored` with the face labels. The face detector is loaded at most once, and its run is recorded. |
| SentinelTools.KeptTags | backend/app/sentinel_tools.py:38-40 | Exactly the tags not among the four excluded ones are kept, with their values. |
| SentinelTools.ExifResult | backend/app/sentinel_tools.py:35-44 | On failure the only key is "error". Otherwise an excluded tag is never present, and every other tag is present with its value. |
| SentinelTools.ExtractExif | backend/app/sentinel_tools.py:30-44 | The loop filling `result` one tag at a time computes `ExifResult`. |
| SentinelTools.DetectFaces | backend/app/sentinel_tools.py:46-73 | At least -1. A positive count only from a completed scan. 0 when the image does not decode or no face is found. -1 when decoding raises, the cascade is missing, or the scan raises. |
| SentinelTools.FaceGatedScore | backend/app/sentinel_tools.py:104-108 | The GAN score is the detector's fake_prob when faces > 0, and 0.0 otherwise. |
| SentinelTools.DetectorCalls | backend/app/sentinel_tools.py:148-150 | The diffusion detector always runs, and the GAN detector runs iff faces > 0. |
| SentinelTools.RunDetectors | backend/app/sentinel_tools.py:97-108 | The diffusion dict is `Scored` and the face count is `DetectFaces`. The GAN detector is loaded and run only when faces > 0. |
| SentinelTools.AnalyzeImageOrchestrated | backend/app/sentinel_tools.py:83-112 | The dict built step by step is `Orchestrated` of the download, EXIF, detector results and face count. Detectors run only after a successful download. |
| SentinelTools.AnalyzeImageParallel | backend/app/sentinel_tools.py:115-159 | The returned dict is `Parallel` of the checks. The GAN detector runs iff faces > 0. |
| SentinelTools.Orchestrated | backend/app/sentinel_tools.py:83-112 | The dict the orchestrated analysis returns; `OrchestratedShape` states its keys and values. |
| SentinelTools.Parallel | backend/app/sentinel_tools.py:115-159 | The dict the parallel analysis returns; `ParallelShape` and `AnalysesAgree` state its keys and how it agrees with the other. |
| SentinelTools.OrchestratedShape | backend/app/sentinel_tools.py:88-112 | A failed download gives only {"error"}. Otherwise exactly image_downloaded = True, exif_data, diffusion_score, num_faces and gan_score. |
| SentinelTools.ParallelShape | backend/app/sentinel_tools.py:153-159 | Exactly the keys exif_data, diffusion_score, diffusion_label, gan_score and num_faces. |
| SentinelTools.DiffusionLabelAlwaysUnknown | backend/app/sentinel_tools.py:145 | The diffusion label is always "unknown": a detector dict never has a label key. |
| SentinelTools.FailedScanSkipsGan | backend/app/sentinel_tools.py:148-151 | A failed face scan (-1) skips the GAN detector and scores 0.0. |
| SentinelTools.AnalysesAgree | backend/app/sentinel_tools.py:83-159 | After a download, both analyses report the same EXIF data, scores and face count. |
| SentinelTools.FailedDiffusionScoresNeutral | backend/app/sentinel_tools.py:144 | A failing diffusion run gives a diffusion score of 0.5. |

## Left out

- Network and platform I/O are outcomes passed in as inputs: tweepy calls, the `/live-feed`
  POST, image downloads, and the language-model call. What each returns or raises is a
  parameter (`Poll`, `MentionEnv`, `Download`, `Run`, `Load`, `ExifRead`, `FaceScan`).
- `fetch_image` and `get_clip_vector` (backend/app/ml.py:63-76) are network and embedding calls
  with no decision logic, so they are not modelled.
- The ML pipelines, the CLIP model, `exifread` and OpenCV are foreign libraries. Only what
  they return or raise is modelled.
- Concurrency is modelled as sequential composition: `asyncio.gather` and `to_thread` in
  `analyze_image_parallel`.
- `asyncio.sleep` between polls is not modelled. The `while True` loop is modelled by the
  finite sequence of polls run so far.
- Randomness is passed in: the 4-character suffix (`Suffix`, four characters of [a-z0-9]) and
  the error token (`ErrToken`, 100-999).
- The cursor file is modelled by its content or its absence. Read errors other than a missing
  file are not modelled, and neither is a write failing.
- Log and print lines are not modelled. `Ml.Models.constructed` records only constructions that
  succeeded. The "Loading" log line before a failing construction is not recorded.
- The prompt is a record of the facts it is formatted from. Its wording is not modelled.
- A `get_me` call that raises (SentinelAI/main.py:65, main.py:55) is modelled like one whose
  `data` is `None`: no poll and no effect. In the source the exception leaves
  `check_mentions_loop` instead of returning, which the model does not distinguish.
- Post length is counted in code points. X's own weighted count (some scripts and emoji count
  double, links count as 23) is not modelled, so "fits in a post" means at most 280 code points.
- The variable named `client` at
  SentinelAI/main.py:201 is the HTTP client bound at :153, not a language-model client. The
  model keeps the outcome of that call as an input, so an `AttributeError` there lands in the
  caught error-reply path, as it would in the source.
- Text.Lower: only ASCII letters are folded. Python's `lower()` also folds other letters.
- SentinelTools.ExtractExif: the EXIF values are kept as the strings `str(value)` gives. The
  stringification itself is not modelled.
- SentinelTools.AnalyzeImageParallel: `round(x, 4)` on the two scores is not modelled. Scores
  are exact reals.
- SentinelTools.AnalyzeImageOrchestrated: dict insertion order is not modelled. Dicts are maps.
- Ml.Models.GetClipModel: the model is an opaque instance number. Object identity beyond
  "the same instance is returned" is not modelled.

## Findings

| source | as written | input that shows it | evidently intended | confidence | as-written member | corrected member |
|---|---|---|---|---|---|---|
| SentinelAI/main.py:178 | `if model:` reads a name that is never defined. The test sits outside the inner `try`, so the `NameError` reaches the outer handler at :235 and skips the cursor save at :230-231. | Any poll that returns one mention: nothing is posted, the cursor stays, and the next poll fetches the same mention again, forever. | `model` names the configured language-model client. Every mention whose parent fetch does not raise is answered and saved, and the cursor ends at the newest mention. | not executed | SentinelPoller.AsWrittenLoopIsStuck | SentinelPoller.IntendedPollReachesNewest |
