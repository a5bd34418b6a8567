/** The slice of the X (Twitter) v2 API objects the bot reads: mentions, users, media and the
    `includes` block of a response. Field values that Python may hold as `None` are options. */
module Platform {
  import opened Wrappers
  import opened CursorStore

  /** A str-or-None value as Python holds it (a media `url` may be `None`). */
  type PyStr = Option<string>

  /** Python truthiness of a str-or-None value. */
  predicate Truthy(s: PyStr) {
    s.Some? && s.value != []
  }

  datatype User = User(id: nat, name: string, username: string)

  /** A media object. `hasPreviewAttr` says whether the object has a `preview_image_url`
      attribute at all (Python's `hasattr`); `previewImageUrl` is its value. */
  datatype Media = Media(
    mediaKey: string,
    mediaType: string,
    url: PyStr,
    previewImageUrl: PyStr,
    hasPreviewAttr: bool)

  /** One entry of `referenced_tweets`: its `type` ("replied_to", "quoted", ...) and target id. */
  datatype Ref = Ref(refType: string, id: TweetId)

  /** The `attachments` dict of a tweet: its `media_keys` entry if present, and whether it holds
      any other entry (which makes the dict non-empty, hence truthy). */
  datatype Attachments = Attachments(mediaKeys: Option<seq<string>>, otherFields: bool)

  /** Python truthiness of the attachments dict: it is non-empty. */
  predicate AttachmentsTruthy(a: Attachments) {
    a.mediaKeys.Some? || a.otherFields
  }

  datatype Mention = Mention(
    id: TweetId,
    text: string,
    authorId: Option<nat>,
    refs: Option<seq<Ref>>,
    attachments: Option<Attachments>)

  /** The `includes` dict of a response: its "users" and "media" entries when present. */
  datatype Includes = Includes(users: Option<seq<User>>, media: Option<seq<Media>>)

  /** The `data` of a fetched tweet. */
  datatype Tweet = Tweet(text: string, authorId: Option<nat>)

  /** What `get_tweet` does: raise, or return a response whose `data` may be `None`. */
  datatype ParentFetch = GetTweetRaises | GetTweetReturns(data: Option<Tweet>, includes: Includes)
}
