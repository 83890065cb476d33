/** The video handlers of backend/controllers/videoController.js: fetching a
    video, the comment lifecycle on its embedded list, and the like and
    dislike counters. Each handler looks the video up by its external
    `videoId`; the clock reading `Date.now()` is the parameter `now`. */
module VideoController {
  import opened Js
  import opened Seqs
  import opened Http
  import opened VideoModel

  /** `comments.find` / `comments.findIndex` on `commentId`: the position of
      the first comment whose `commentId` matches. */
  function FindComment(cs: seq<Comment>, commentId: string): (r: Option<nat>)
    ensures r.Some? ==> r.value < |cs| && cs[r.value].commentId == commentId
    ensures r.Some? ==> forall j :: 0 <= j < r.value ==> cs[j].commentId != commentId
    ensures r.None? <==> forall j :: 0 <= j < |cs| ==> cs[j].commentId != commentId
  {
    FirstFrom(cs, (c: Comment) => c.commentId == commentId, 0)
  }

  /** The comment `postComment` builds: the decimal string of the clock
      reading `now` as its id, the author and text as given, and the second
      clock reading `stamp` as its timestamp. */
  function NewComment(now: nat, stamp: nat, userId: string, text: string): (c: Comment)
    ensures c.commentId == Decimal(now) && ParseDigits(c.commentId) == now
    ensures c.commentId != "" && AllDigits(c.commentId)
    ensures c.userId == userId && c.text == text && c.timestamp == stamp
    ensures userId != "" && text != "" ==> CommentAdmitted(c)
  {
    ParseDecimal(now);
    Comment(Decimal(now), userId, text, stamp)
  }

  /** The comment list after `comment.text = text` on the first match. */
  function EditFirst(cs: seq<Comment>, commentId: string, text: string): (r: seq<Comment>)
    ensures |r| == |cs|
    ensures FindComment(cs, commentId).None? ==> r == cs
    ensures forall j :: 0 <= j < |cs| && Some(j) != FindComment(cs, commentId) ==> r[j] == cs[j]
    ensures FindComment(cs, commentId).Some? ==>
      var i := FindComment(cs, commentId).value;
      r[i].text == text && r[i].commentId == cs[i].commentId
      && r[i].userId == cs[i].userId && r[i].timestamp == cs[i].timestamp
  {
    match FindComment(cs, commentId)
    case None => cs
    case Some(i) => cs[i := cs[i].(text := text)]
  }

  /** The comment list after `splice(findIndex(...), 1)`: the first match is
      gone, everything before it keeps its position and everything after it
      moves up by one. */
  function RemoveFirst(cs: seq<Comment>, commentId: string): (r: seq<Comment>)
    ensures FindComment(cs, commentId).None? ==> r == cs
    ensures FindComment(cs, commentId).Some? ==>
      var i := FindComment(cs, commentId).value;
      |r| == |cs| - 1
      && (forall j :: 0 <= j < i ==> r[j] == cs[j])
      && (forall j :: i <= j < |r| ==> r[j] == cs[j + 1])
      && multiset(r) + multiset{cs[i]} == multiset(cs)
  {
    match FindComment(cs, commentId)
    case None => cs
    case Some(i) =>
      assert cs == cs[..i] + [cs[i]] + cs[i + 1..];
      cs[..i] + cs[i + 1..]
  }

  /** `getVideoById`: the document with that `videoId`, or 404. */
  function GetVideoById(docs: seq<Video>, videoId: string): (r: Response<Video>)
    ensures r.Ok? || r == NotFound(VideoMissing)
    ensures r.Ok? ==> r.body in docs && r.body.videoId == videoId
    ensures r.NotFound? <==> forall j :: 0 <= j < |docs| ==> docs[j].videoId != videoId
  {
    match FindVideo(docs, videoId)
    case None => NotFound(VideoMissing)
    case Some(k) => Ok(docs[k])
  }

  /** Everything in the collection except `changed` is as it was. */
  twostate predicate OthersUnchanged(docs: seq<Video>, changed: Option<Video>)
    reads docs
  {
    forall v :: v in docs && Some(v) != changed ==> unchanged(v)
  }

  /** `postComment`: validation first, then the lookup, then one comment
      appended at the end. */
  method PostComment(store: VideoCollection, videoId: string, userId: Option<string>,
                     text: Option<string>, now: nat, stamp: nat) returns (r: Response<Comment>)
    requires store.Valid()
    modifies store.docs
    ensures store.Valid()
    ensures !Truthy(userId) || !Truthy(text) ==> r == BadRequest
    ensures Truthy(userId) && Truthy(text) && FindVideo(store.docs, videoId).None? ==>
      r == NotFound(VideoMissing)
    ensures r.Created? <==> Truthy(userId) && Truthy(text) && FindVideo(store.docs, videoId).Some?
    ensures r.Created? ==>
      var v := store.docs[FindVideo(store.docs, videoId).value];
      r.body == NewComment(now, stamp, userId.value, text.value)
      && v.comments == old(v.comments) + [r.body] && CountersUnchanged(v)
      && OthersUnchanged(store.docs, Some(v))
    ensures !r.Created? ==> OthersUnchanged(store.docs, None)
  {
    if !Truthy(userId) || !Truthy(text) {
      return BadRequest;
    }
    var k := FindVideo(store.docs, videoId);
    if k.None? {
      return NotFound(VideoMissing);
    }
    var v := store.docs[k.value];
    var c := NewComment(now, stamp, userId.value, text.value);
    v.comments := v.comments + [c];
    r := Created(c);
    forall j | 0 <= j < |store.docs| && j != k.value
      ensures store.docs[j] != v
    {
      FoundIsOnly(store, videoId, j);
    }
  }

  /** `updateComment`: video lookup, comment lookup, then only the text of
      the first matching comment changes. An absent or empty new text fails
      the `required` check when the document is saved, and nothing is
      stored. */
  method UpdateComment(store: VideoCollection, videoId: string, commentId: string,
                       text: Option<string>) returns (r: Response<Comment>)
    requires store.Valid()
    modifies store.docs
    ensures store.Valid()
    ensures FindVideo(store.docs, videoId).None? ==> r == NotFound(VideoMissing)
    ensures FindVideo(store.docs, videoId).Some? ==>
      var v := store.docs[FindVideo(store.docs, videoId).value];
      var i := FindComment(old(v.comments), commentId);
      (i.None? ==> r == NotFound(CommentMissing))
      && (i.Some? && !Truthy(text) ==> r == ServerError)
      && (i.Some? && Truthy(text) ==>
            r == Ok(old(v.comments)[i.value].(text := text.value))
            && v.comments == EditFirst(old(v.comments), commentId, text.value)
            && CountersUnchanged(v) && OthersUnchanged(store.docs, Some(v)))
    ensures !r.Ok? ==> OthersUnchanged(store.docs, None)
  {
    var k := FindVideo(store.docs, videoId);
    if k.None? {
      return NotFound(VideoMissing);
    }
    var v := store.docs[k.value];
    var i := FindComment(v.comments, commentId);
    if i.None? {
      return NotFound(CommentMissing);
    }
    if !Truthy(text) {
      return ServerError;
    }
    var edited := v.comments[i.value].(text := text.value);
    v.comments := v.comments[i.value := edited];
    r := Ok(edited);
    forall j | 0 <= j < |store.docs| && j != k.value
      ensures store.docs[j] != v
    {
      FoundIsOnly(store, videoId, j);
    }
  }

  /** `deleteComment`: video lookup, comment lookup, then the first matching
      comment is spliced out. */
  method DeleteComment(store: VideoCollection, videoId: string, commentId: string)
    returns (r: Response<()>)
    requires store.Valid()
    modifies store.docs
    ensures store.Valid()
    ensures FindVideo(store.docs, videoId).None? ==> r == NotFound(VideoMissing)
    ensures FindVideo(store.docs, videoId).Some? ==>
      var v := store.docs[FindVideo(store.docs, videoId).value];
      (FindComment(old(v.comments), commentId).None? ==> r == NotFound(CommentMissing))
      && (FindComment(old(v.comments), commentId).Some? ==>
            r == Ok(())
            && v.comments == RemoveFirst(old(v.comments), commentId)
            && CountersUnchanged(v) && OthersUnchanged(store.docs, Some(v)))
    ensures !r.Ok? ==> OthersUnchanged(store.docs, None)
  {
    var k := FindVideo(store.docs, videoId);
    if k.None? {
      return NotFound(VideoMissing);
    }
    var v := store.docs[k.value];
    var i := FindComment(v.comments, commentId);
    if i.None? {
      return NotFound(CommentMissing);
    }
    v.comments := v.comments[..i.value] + v.comments[i.value + 1..];
    r := Ok(());
    forall j | 0 <= j < |store.docs| && j != k.value
      ensures store.docs[j] != v
    {
      FoundIsOnly(store, videoId, j);
    }
  }

  /** `updateLike`: `$inc: { likes: 1 }` on the document with that key; the
      response carries only the new count. */
  method UpdateLike(store: VideoCollection, videoId: string) returns (r: Response<nat>)
    requires store.Valid()
    modifies store.docs
    ensures store.Valid()
    ensures FindVideo(store.docs, videoId).None? ==>
      r == NotFound(VideoMissing) && OthersUnchanged(store.docs, None)
    ensures FindVideo(store.docs, videoId).Some? ==>
      var v := store.docs[FindVideo(store.docs, videoId).value];
      v.likes == old(v.likes) + 1 && r == Ok(v.likes)
      && v.dislikes == old(v.dislikes) && v.views == old(v.views) && v.comments == old(v.comments)
      && OthersUnchanged(store.docs, Some(v))
  {
    var k := FindVideo(store.docs, videoId);
    if k.None? {
      return NotFound(VideoMissing);
    }
    var v := store.docs[k.value];
    v.likes := v.likes + 1;
    r := Ok(v.likes);
    forall j | 0 <= j < |store.docs| && j != k.value
      ensures store.docs[j] != v
    {
      FoundIsOnly(store, videoId, j);
    }
  }

  /** `updateDislike`: the same for `dislikes`. */
  method UpdateDislike(store: VideoCollection, videoId: string) returns (r: Response<nat>)
    requires store.Valid()
    modifies store.docs
    ensures store.Valid()
    ensures FindVideo(store.docs, videoId).None? ==>
      r == NotFound(VideoMissing) && OthersUnchanged(store.docs, None)
    ensures FindVideo(store.docs, videoId).Some? ==>
      var v := store.docs[FindVideo(store.docs, videoId).value];
      v.dislikes == old(v.dislikes) + 1 && r == Ok(v.dislikes)
      && v.likes == old(v.likes) && v.views == old(v.views) && v.comments == old(v.comments)
      && OthersUnchanged(store.docs, Some(v))
  {
    var k := FindVideo(store.docs, videoId);
    if k.None? {
      return NotFound(VideoMissing);
    }
    var v := store.docs[k.value];
    v.dislikes := v.dislikes + 1;
    r := Ok(v.dislikes);
    forall j | 0 <= j < |store.docs| && j != k.value
      ensures store.docs[j] != v
    {
      FoundIsOnly(store, videoId, j);
    }
  }
}
