/** The persisted mention cursor: `load_last_tweet_id` / `save_last_tweet_id`, identical in both
    bot scripts. Only the file's text is modelled, not the file system. */
module CursorStore {
  import opened Wrappers
  import opened Text

  /** Tweet ids are Python ints. */
  type TweetId = nat

  /** The state of `last_tweet_id.txt`: absent, or present with some text. */
  datatype CursorFile = Missing | Present(content: string)

  /** The loop's `last_tweet_id` variable: `None`, the string read from the file, or the int id
      of the last mention handled. */
  datatype Cursor = Unset | Loaded(text: string) | At(id: TweetId)

  /** `load_last_tweet_id`: the stripped file content, or `None` when the file is missing
      (`FileNotFoundError`) or holds only whitespace. */
  function LoadLastTweetId(f: CursorFile): (r: Option<string>)
    ensures f.Missing? ==> r == None
    ensures f.Present? ==> (r == None <==> AllSpace(f.content))
    ensures r.Some? ==> r.value != [] && NoEdgeSpace(r.value) && |r.value| <= |f.content|
    ensures f.Present? && f.content != [] && NoEdgeSpace(f.content) ==> r == Some(f.content)
    ensures f.Present? && !AllSpace(f.content) ==> r == Some(Strip(f.content))
  {
    match f
    case Missing => None
    case Present(content) =>
      var id := Strip(content);
      if id != [] then Some(id) else None
  }

  /** `save_last_tweet_id`: the file afterwards holds `str(tweet_id)`. */
  function SaveLastTweetId(id: TweetId): (f: CursorFile)
    ensures f.Present? && f.content != []
    ensures forall i :: 0 <= i < |f.content| ==> IsDigit(f.content[i])
  {
    Present(Decimal(id))
  }

  /** The cursor the loop starts from. */
  function InitialCursor(f: CursorFile): (c: Cursor)
    ensures c.Unset? <==> LoadLastTweetId(f).None?
    ensures c.Loaded? ==> c.text == LoadLastTweetId(f).value
  {
    match LoadLastTweetId(f)
    case None => Unset
    case Some(text) => Loaded(text)
  }

  /** Saving an id and loading it back gives the id's decimal text, which denotes the id. */
  lemma SaveThenLoad(id: TweetId)
    ensures LoadLastTweetId(SaveLastTweetId(id)) == Some(Decimal(id))
    ensures DecimalValue(LoadLastTweetId(SaveLastTweetId(id)).value) == id
  {
    DecimalHasNoSpace(id);
    DecimalRoundTrip(id);
  }

  /** Any non-empty text without whitespace at its ends survives a save and a load unchanged. */
  lemma StoredTextRoundTrip(text: string)
    requires text != [] && NoEdgeSpace(text)
    ensures LoadLastTweetId(Present(text)) == Some(text)
  {
  }

  /** Whitespace around an id in the file, a trailing newline included, is dropped on load. */
  lemma LoadDropsSurroundingSpace(before: string, id: string, after: string)
    requires id != [] && NoEdgeSpace(id)
    requires AllSpace(before) && AllSpace(after)
    ensures LoadLastTweetId(Present(before + id + after)) == Some(id)
  {
    var content := before + id + after;
    var a, b := |before|, |before| + |id|;
    assert content[a..b] == id && content[..a] == before && content[b..] == after;
    StripCharacterised(content, a, b);
  }

  /** Loading is stable: reloading the text that was loaded gives it back. */
  lemma LoadIsIdempotent(f: CursorFile)
    requires LoadLastTweetId(f).Some?
    ensures LoadLastTweetId(Present(LoadLastTweetId(f).value)) == LoadLastTweetId(f)
  {
  }
}
