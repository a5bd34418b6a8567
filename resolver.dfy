/** Context and media resolution for one mention (SentinelAI/main.py, the body of the mention loop
    up to the backend call): which post is analysed, whose it is, and which media URLs go with it. */
module Resolver {
  import opened Wrappers
  import opened Platform
  import opened Sequences

  const ReplyType := "replied_to"

  predicate IsReply(r: Ref) {
    r.refType == ReplyType
  }

  /** `u.id == author_id`; an absent author id (`None`) matches no user. */
  predicate HasId(u: User, id: Option<nat>) {
    id == Some(u.id)
  }

  /** Photos and animated GIFs are analysed through their own `url`. */
  predicate IsStill(m: Media) {
    m.mediaType == "photo" || m.mediaType == "animated_gif"
  }

  /** What one media object of the parent tweet adds to `media_urls`: its `url` for a photo or
      GIF, its preview frame for a video when that is truthy, nothing otherwise. */
  function ParentContribution(m: Media): (r: seq<PyStr>)
    ensures |r| <= 1
    ensures IsStill(m) ==> r == [m.url]
    ensures m.mediaType == "video" ==> (r != [] <==> Truthy(m.previewImageUrl))
    ensures r != [] && !IsStill(m) ==> r == [m.previewImageUrl]
    ensures r != [] ==> IsStill(m) || m.mediaType == "video"
  {
    if IsStill(m) then [m.url]
    else if m.mediaType == "video" && Truthy(m.previewImageUrl) then [m.previewImageUrl]
    else []
  }

  /** What one media object attached to the mention adds: as for the parent, except that a
      video's preview value is appended whenever the object has the attribute at all, so a
      `None` preview is appended too. */
  function MentionContribution(m: Media): (r: seq<PyStr>)
    ensures |r| <= 1
    ensures IsStill(m) ==> r == [m.url]
    ensures m.mediaType == "video" ==> (r != [] <==> m.hasPreviewAttr)
    ensures r != [] && !IsStill(m) ==> r == [m.previewImageUrl]
    ensures r != [] ==> IsStill(m) || m.mediaType == "video"
  {
    if IsStill(m) then [m.url]
    else if m.mediaType == "video" && m.hasPreviewAttr then [m.previewImageUrl]
    else []
  }

  /** The URLs the parent's media list yields, in the list's order. */
  function ParentMediaUrls(media: seq<Media>): (r: seq<PyStr>)
    ensures |r| <= |media|
  {
    if media == [] then [] else ParentContribution(media[0]) + ParentMediaUrls(media[1..])
  }

  /** When every object is a photo or a GIF, the list is exactly their `url`s, one per object. */
  lemma {:induction false} AllStillsGiveUrls(media: seq<Media>)
    requires forall j :: 0 <= j < |media| ==> IsStill(media[j])
    ensures |ParentMediaUrls(media)| == |media|
    ensures forall k :: 0 <= k < |media| ==> ParentMediaUrls(media)[k] == media[k].url
  {
    if media != [] {
      AllStillsGiveUrls(media[1..]);
    }
  }

  /** Extraction distributes over concatenation: the order of the media is kept. */
  lemma {:induction false} ParentMediaUrlsAppend(a: seq<Media>, b: seq<Media>)
    ensures ParentMediaUrls(a + b) == ParentMediaUrls(a) + ParentMediaUrls(b)
  {
    if a == [] {
      assert a + b == b;
    } else {
      assert (a + b)[0] == a[0] && (a + b)[1..] == a[1..] + b;
      ParentMediaUrlsAppend(a[1..], b);
    }
  }

  /** At most one URL per media object, and none from media that are neither photo, GIF
      nor video. */
  lemma {:induction false} ParentMediaUrlsBound(media: seq<Media>)
    ensures |ParentMediaUrls(media)| <= |media|
    ensures (forall j :: 0 <= j < |media| ==> !IsStill(media[j]) && media[j].mediaType != "video")
            ==> ParentMediaUrls(media) == []
  {
    if media != [] {
      ParentMediaUrlsBound(media[1..]);
    }
  }

  /** The primary image of the parent is the URL of the first photo or GIF when no usable video
      comes before it. */
  lemma {:induction false} ParentPrimaryIsFirstStill(media: seq<Media>, i: nat)
    requires i < |media| && IsStill(media[i])
    requires forall j :: 0 <= j < i ==> ParentContribution(media[j]) == []
    ensures ParentMediaUrls(media) != [] && ParentMediaUrls(media)[0] == media[i].url
  {
    if i > 0 {
      ParentPrimaryIsFirstStill(media[1..], i - 1);
    }
  }

  /** Extending the list by one media object extends the URLs by its contribution. */
  lemma ParentMediaUrlsSnoc(media: seq<Media>, i: nat)
    requires i < |media|
    ensures ParentMediaUrls(media[..i + 1]) == ParentMediaUrls(media[..i]) + ParentContribution(media[i])
  {
    assert media[..i + 1] == media[..i] + [media[i]];
    ParentMediaUrlsAppend(media[..i], [media[i]]);
    assert [media[i]][1..] == [];
  }

  /** The loop at SentinelAI/main.py:131-136, appending to `media_urls` in place. */
  method CollectParentMedia(media: seq<Media>) returns (urls: seq<PyStr>)
    ensures urls == ParentMediaUrls(media)
  {
    urls := [];
    var i := 0;
    while i < |media|
      invariant 0 <= i <= |media|
      invariant urls == ParentMediaUrls(media[..i])
    {
      var m := media[i];
      ghost var before := urls;
      ParentMediaUrlsSnoc(media, i);
      if IsStill(m) {
        urls := urls + [m.url];
      } else if m.mediaType == "video" {
        if Truthy(m.previewImageUrl) {
          urls := urls + [m.previewImageUrl];
        }
      }
      assert urls == before + ParentContribution(m);
      i := i + 1;
    }
    assert media[..i] == media;
  }

  predicate HasKey(m: Media, key: string) {
    m.mediaKey == key
  }

  /** `next(media for media in ... if media.media_key == key)`: the first object with the key. */
  function KeyIndex(key: string, media: seq<Media>): (r: Option<nat>)
    ensures r.Some? ==> r.value < |media| && media[r.value].mediaKey == key
    ensures r.Some? ==> forall j :: 0 <= j < r.value ==> media[j].mediaKey != key
    ensures r.None? ==> forall j :: 0 <= j < |media| ==> media[j].mediaKey != key
  {
    FirstIndex(media, m => HasKey(m, key))
  }

  /** What one media key of the mention yields: the first media object with that key, if any,
      contributes as `MentionContribution` says; an unknown key yields nothing. */
  function KeyContribution(key: string, media: seq<Media>): seq<PyStr> {
    match KeyIndex(key, media)
    case None => []
    case Some(i) => MentionContribution(media[i])
  }

  /** The URLs the mention's `media_keys` yield, in key order. */
  function MentionMediaUrls(keys: seq<string>, media: seq<Media>): (r: seq<PyStr>)
    ensures |r| <= |keys|
  {
    if keys == [] then [] else KeyContribution(keys[0], media) + MentionMediaUrls(keys[1..], media)
  }

  lemma {:induction false} MentionMediaUrlsAppend(a: seq<string>, b: seq<string>, media: seq<Media>)
    ensures MentionMediaUrls(a + b, media) == MentionMediaUrls(a, media) + MentionMediaUrls(b, media)
  {
    if a == [] {
      assert a + b == b;
    } else {
      assert (a + b)[0] == a[0] && (a + b)[1..] == a[1..] + b;
      MentionMediaUrlsAppend(a[1..], b, media);
    }
  }

  /** A key that matches no media object is not found. */
  lemma NoKeyNoIndex(key: string, media: seq<Media>)
    requires forall j :: 0 <= j < |media| ==> media[j].mediaKey != key
    ensures KeyIndex(key, media).None?
  {
  }

  /** One key yields what its media object contributes. */
  lemma MentionMediaUrlsOne(key: string, media: seq<Media>)
    ensures MentionMediaUrls([key], media) == KeyContribution(key, media)
  {
    assert [key][1..] == [];
  }

  /** Extending the keys by one extends the URLs by that key's contribution. */
  lemma MentionMediaUrlsSnoc(keys: seq<string>, i: nat, media: seq<Media>)
    requires i < |keys|
    ensures MentionMediaUrls(keys[..i + 1], media) == MentionMediaUrls(keys[..i], media) + KeyContribution(keys[i], media)
  {
    assert keys[..i + 1] == keys[..i] + [keys[i]];
    MentionMediaUrlsAppend(keys[..i], [keys[i]], media);
    MentionMediaUrlsOne(keys[i], media);
  }

  /** A key that matches no media object contributes nothing, wherever it stands. */
  lemma {:induction false} UnknownKeysAreSkipped(a: seq<string>, key: string, b: seq<string>, media: seq<Media>)
    requires forall j :: 0 <= j < |media| ==> media[j].mediaKey != key
    ensures MentionMediaUrls(a + [key] + b, media) == MentionMediaUrls(a + b, media)
  {
    NoKeyNoIndex(key, media);
    MentionMediaUrlsOne(key, media);
    calc {
      MentionMediaUrls(a + [key] + b, media);
    == { MentionMediaUrlsAppend(a + [key], b, media); }
      MentionMediaUrls(a + [key], media) + MentionMediaUrls(b, media);
    == { MentionMediaUrlsAppend(a, [key], media); }
      MentionMediaUrls(a, media) + [] + MentionMediaUrls(b, media);
    == { assert MentionMediaUrls(a, media) + [] == MentionMediaUrls(a, media); }
      MentionMediaUrls(a, media) + MentionMediaUrls(b, media);
    == { MentionMediaUrlsAppend(a, b, media); }
      MentionMediaUrls(a + b, media);
    }
  }

  /** The loop at SentinelAI/main.py:142-148. */
  method CollectMentionMedia(keys: seq<string>, media: seq<Media>) returns (urls: seq<PyStr>)
    ensures urls == MentionMediaUrls(keys, media)
  {
    urls := [];
    var i := 0;
    while i < |keys|
      invariant 0 <= i <= |keys|
      invariant urls == MentionMediaUrls(keys[..i], media)
    {
      var key := keys[i];
      ghost var before := urls;
      var found := KeyIndex(key, media);
      if found.Some? {
        var m := media[found.value];
        if IsStill(m) {
          urls := urls + [m.url];
        } else if m.mediaType == "video" && m.hasPreviewAttr {
          urls := urls + [m.previewImageUrl];
        }
      }
      assert urls == before + KeyContribution(key, media);
      MentionMediaUrlsSnoc(keys, i, media);
      i := i + 1;
    }
    assert keys[..i] == keys;
  }

  /** The analysis subject: text, author handle and display name, and the parent's media. */
  datatype Subject = Subject(text: string, authorUsername: string, authorName: string, media: seq<PyStr>)

  /** `GetTweetRaised`: `get_tweet` raised, which nothing in the mention loop catches. */
  datatype Resolution = Resolved(subject: Subject) | GetTweetRaised

  /** The mention's author as found in the batch's `includes` (a dict keyed by user id, so the
      last user with that id), or "unknown" / "Unknown". */
  function MentionAuthor(mention: Mention, includes: Includes): (r: (string, string))
    ensures includes.users.None? ==> r == ("unknown", "Unknown")
    ensures var users := includes.users.GetOr([]);
            (forall j :: 0 <= j < |users| ==> !HasId(users[j], mention.authorId)) ==> r == ("unknown", "Unknown")
    ensures var users := includes.users.GetOr([]);
            forall i :: 0 <= i < |users| && HasId(users[i], mention.authorId) &&
                        (forall j :: i < j < |users| ==> !HasId(users[j], mention.authorId)) ==>
                          r == (users[i].username, users[i].name)
  {
    var users := includes.users.GetOr([]);
    match LastIndex(users, u => HasId(u, mention.authorId))
    case None => ("unknown", "Unknown")
    case Some(i) => (users[i].username, users[i].name)
  }

  /** SentinelAI/main.py:123-127: the handle and name of the first user in the parent
      response's `includes` whose id is the parent's author id; `fallback` (the values held so
      far) when there is no "users" entry or no such user. */
  function ParentAuthor(parentIncludes: Includes, tweet: Tweet, fallback: (string, string)): (r: (string, string))
    ensures parentIncludes.users.None? ==> r == fallback
    ensures parentIncludes.users.Some? ==>
              var users := parentIncludes.users.value;
              || (r == fallback && forall j :: 0 <= j < |users| ==> !HasId(users[j], tweet.authorId))
              || (exists i :: 0 <= i < |users| && HasId(users[i], tweet.authorId) && r == (users[i].username, users[i].name) &&
                   forall j :: 0 <= j < i ==> !HasId(users[j], tweet.authorId))
  {
    match parentIncludes.users
    case None => fallback
    case Some(users) =>
      match FirstIndex(users, u => HasId(u, tweet.authorId))
      case None => fallback
      case Some(i) => (users[i].username, users[i].name)
  }

  /** Only the first `replied_to` reference is ever looked at. */
  function FirstReply(mention: Mention): (r: Option<Ref>)
    ensures r.Some? ==> mention.refs.Some? && r.value in mention.refs.value && IsReply(r.value)
    ensures r.Some? ==> exists i :: 0 <= i < |mention.refs.value| && mention.refs.value[i] == r.value &&
                                      forall j :: 0 <= j < i ==> !IsReply(mention.refs.value[j])
    ensures r.None? && mention.refs.Some? ==> forall j :: 0 <= j < |mention.refs.value| ==> !IsReply(mention.refs.value[j])
  {
    match mention.refs
    case None => None
    case Some(refs) =>
      match FirstIndex(refs, IsReply)
      case None => None
      case Some(i) => Some(refs[i])
  }

  /** SentinelAI/main.py:99-137. The subject is the parent of the first `replied_to` reference
      when `get_tweet` returns data for it, else the mention itself; the author is the parent's
      author only when that user is among the response's `includes`. */
  function ResolveSubject(mention: Mention, includes: Includes, parent: ParentFetch): (r: Resolution)
    ensures r.GetTweetRaised? <==> FirstReply(mention).Some? && parent.GetTweetRaises?
    ensures r.Resolved? && !(FirstReply(mention).Some? && parent.GetTweetReturns? && parent.data.Some?) ==>
              r.subject == Subject(mention.text, MentionAuthor(mention, includes).0, MentionAuthor(mention, includes).1, [])
    ensures r.Resolved? && FirstReply(mention).Some? && parent.GetTweetReturns? && parent.data.Some? ==>
              && r.subject.text == parent.data.value.text
              && r.subject.media == (if parent.includes.media.Some? then ParentMediaUrls(parent.includes.media.value) else [])
              && (r.subject.authorUsername, r.subject.authorName) ==
                   ParentAuthor(parent.includes, parent.data.value, MentionAuthor(mention, includes))
  {
    var (username, name) := MentionAuthor(mention, includes);
    if FirstReply(mention).None? then
      Resolved(Subject(mention.text, username, name, []))
    else
      match parent
      case GetTweetRaises => GetTweetRaised
      case GetTweetReturns(data, parentIncludes) =>
        match data
        case None => Resolved(Subject(mention.text, username, name, []))
        case Some(tweet) =>
          var (username', name') := ParentAuthor(parentIncludes, tweet, (username, name));
          var media := if parentIncludes.media.Some? then ParentMediaUrls(parentIncludes.media.value) else [];
          Resolved(Subject(tweet.text, username', name', media))
  }

  /** References after the first `replied_to` one, and the non-reply ones before it, change
      nothing (the loop breaks after the first reply). */
  lemma OnlyFirstReplyMatters(mention: Mention, includes: Includes, parent: ParentFetch)
    requires FirstReply(mention).Some?
    ensures ResolveSubject(mention, includes, parent) ==
            ResolveSubject(mention.(refs := Some([FirstReply(mention).value])), includes, parent)
  {
    var m' := mention.(refs := Some([FirstReply(mention).value]));
    assert FirstIndex(m'.refs.value, IsReply) == Some(0);
  }

  /** SentinelAI/main.py:140-148: the mention's own attachments are consulted only when the
      subject brought no media, and only when the response `includes` has media. */
  function MediaUrls(subjectMedia: seq<PyStr>, mention: Mention, includes: Includes): (r: seq<PyStr>)
    ensures subjectMedia != [] ==> r == subjectMedia
    ensures subjectMedia == [] && !(mention.attachments.Some? && AttachmentsTruthy(mention.attachments.value)) ==> r == []
    ensures subjectMedia == [] && includes.media.None? ==> r == []
    ensures subjectMedia == [] && mention.attachments.Some? && AttachmentsTruthy(mention.attachments.value) && includes.media.Some? ==>
              r == MentionMediaUrls(mention.attachments.value.mediaKeys.GetOr([]), includes.media.value)
  {
    if subjectMedia == [] && mention.attachments.Some? && AttachmentsTruthy(mention.attachments.value) then
      if includes.media.Some? then
        MentionMediaUrls(mention.attachments.value.mediaKeys.GetOr([]), includes.media.value)
      else []
    else subjectMedia
  }

  /** Everything sent to the backend and given to the language model about one mention. */
  datatype Context = Context(question: string, subject: Subject, mediaUrls: seq<PyStr>)

  /** The whole resolution step; `None` when `get_tweet` raised. */
  function ResolveContext(mention: Mention, includes: Includes, parent: ParentFetch): (r: Option<Context>)
    ensures r.None? <==> FirstReply(mention).Some? && parent.GetTweetRaises?
    ensures r.Some? ==> r.value.question == mention.text
    ensures r.Some? ==> r.value.subject == ResolveSubject(mention, includes, parent).subject
    ensures r.Some? ==> r.value.mediaUrls == MediaUrls(r.value.subject.media, mention, includes)
  {
    match ResolveSubject(mention, includes, parent)
    case GetTweetRaised => None
    case Resolved(subject) => Some(Context(mention.text, subject, MediaUrls(subject.media, mention, includes)))
  }

  /** The JSON body posted to the backend. `imageUrl` is `None` when the key is absent. */
  datatype Payload = Payload(
    contentType: string,
    postText: string,
    profileUsername: string,
    profileDisplayName: string,
    mediaUrls: seq<PyStr>,
    imageUrl: Option<PyStr>)

  /** SentinelAI/main.py:154-163: `image_url` is present exactly when there is media, and is
      then the first URL. */
  function BuildPayload(ctx: Context): (p: Payload)
    ensures p.mediaUrls == ctx.mediaUrls && p.contentType == "post"
    ensures p.imageUrl.Some? <==> ctx.mediaUrls != []
    ensures p.imageUrl.Some? ==> p.imageUrl.value == p.mediaUrls[0]
    ensures p.postText == ctx.subject.text
    ensures p.profileUsername == ctx.subject.authorUsername && p.profileDisplayName == ctx.subject.authorName
  {
    var p := Payload("post", ctx.subject.text, ctx.subject.authorUsername, ctx.subject.authorName, ctx.mediaUrls, None);
    if |ctx.mediaUrls| > 0 then p.(imageUrl := Some(ctx.mediaUrls[0])) else p
  }
}
