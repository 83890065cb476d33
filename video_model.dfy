/** The Video document with its embedded comments (backend/models/Video.js)
    and the collection the controllers look videos up in. Mongoose's
    `required` check on a String path refuses `undefined` and "", so a
    stored document is one whose required strings are non-empty. */
module VideoModel {
  import opened Js
  import opened Seqs

  /** An embedded comment; `timestamp` is the creation instant in
      milliseconds. */
  datatype Comment = Comment(commentId: string, userId: string, text: string, timestamp: nat)

  /** The comment sub-schema's required paths hold. */
  predicate CommentAdmitted(c: Comment) {
    c.commentId != "" && c.userId != "" && c.text != ""
  }

  predicate CommentsAdmitted(cs: seq<Comment>) {
    forall i :: 0 <= i < |cs| ==> CommentAdmitted(cs[i])
  }

  /** A stored Video document. The fields no operation of the core writes
      are constants. */
  class Video {
    const videoId: string
    const title: string
    const thumbnailUrl: string
    const description: string
    const channelId: string
    const uploader: string
    const duration: string
    const uploadDate: nat
    var views: nat
    var likes: nat
    var dislikes: nat
    var comments: seq<Comment>

    /** What `save()` validates: every required path is a non-empty
        string, in the document and in each comment. */
    predicate Valid()
      reads this
    {
      videoId != "" && title != "" && thumbnailUrl != "" && description != ""
      && channelId != "" && uploader != "" && duration != ""
      && CommentsAdmitted(comments)
    }

    /** `new Video({...})`: the counters default to 0, the comment list to
        empty and `uploadDate` to the creation instant. */
    constructor (videoId: string, title: string, thumbnailUrl: string, description: string,
                 channelId: string, uploader: string, duration: string, now: nat)
      ensures this.videoId == videoId && this.title == title && this.thumbnailUrl == thumbnailUrl
      ensures this.description == description && this.channelId == channelId
      ensures this.uploader == uploader && this.duration == duration && uploadDate == now
      ensures views == 0 && likes == 0 && dislikes == 0 && comments == []
      ensures Valid() <==> videoId != "" && title != "" && thumbnailUrl != "" && description != ""
                           && channelId != "" && uploader != "" && duration != ""
    {
      this.videoId, this.title, this.thumbnailUrl := videoId, title, thumbnailUrl;
      this.description, this.channelId, this.uploader := description, channelId, uploader;
      this.duration, uploadDate := duration, now;
      views, likes, dislikes, comments := 0, 0, 0, [];
    }
  }

  /** Between two states, only the comment list of `v` may differ. */
  twostate predicate CountersUnchanged(v: Video)
    reads v
  {
    v.views == old(v.views) && v.likes == old(v.likes) && v.dislikes == old(v.dislikes)
  }

  /** The fields a caller hands to `new Video({...})`, `None` where the
      object literal has no such key. */
  datatype VideoDraft = VideoDraft(
    videoId: Option<string>, title: Option<string>, thumbnailUrl: Option<string>,
    description: Option<string>, channelId: Option<string>, uploader: Option<string>,
    duration: Option<string>)

  /** `save()` on a new document built from `d` passes validation. */
  predicate DraftAdmitted(d: VideoDraft) {
    Truthy(d.videoId) && Truthy(d.title) && Truthy(d.thumbnailUrl) && Truthy(d.description)
    && Truthy(d.channelId) && Truthy(d.uploader) && Truthy(d.duration)
  }

  /** The `videos` collection. `videoId` carries a unique index. */
  class VideoCollection {
    var docs: seq<Video>

    ghost predicate Valid()
      reads this, docs
    {
      (forall i :: 0 <= i < |docs| ==> docs[i].Valid())
      && (forall i, j :: 0 <= i < j < |docs| ==> docs[i].videoId != docs[j].videoId)
    }

    constructor ()
      ensures Valid() && docs == []
    {
      docs := [];
    }
  }

  /** `Video.findOne({ videoId })`: the position of the first document with
      that key. */
  function FindVideo(docs: seq<Video>, videoId: string): (r: Option<nat>)
    ensures r.Some? ==> r.value < |docs| && docs[r.value].videoId == videoId
    ensures r.Some? ==> forall j :: 0 <= j < r.value ==> docs[j].videoId != videoId
    ensures r.None? <==> forall j :: 0 <= j < |docs| ==> docs[j].videoId != videoId
  {
    FirstFrom(docs, (v: Video) => v.videoId == videoId, 0)
  }

  /** Under the unique index the document found is the only one with its
      key, so distinct positions hold distinct objects. */
  lemma FoundIsOnly(store: VideoCollection, videoId: string, j: nat)
    requires store.Valid() && FindVideo(store.docs, videoId).Some?
    requires j < |store.docs| && j != FindVideo(store.docs, videoId).value
    ensures store.docs[j].videoId != videoId
    ensures store.docs[j] != store.docs[FindVideo(store.docs, videoId).value]
  {
  }
}
