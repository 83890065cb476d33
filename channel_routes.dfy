/** The handlers defined inline in backend/routes/channelRoutes.js: the
    upload allow-list and storage rules, channel creation, attaching a video
    summary, subscribing, and updating or deleting an embedded video. The
    update and delete handlers find the channel by `owner` and ignore the
    `:channelId` path parameter; every other handler finds it by
    `channelId`. */
module ChannelRoutes {
  import opened Js
  import opened Http
  import opened Seqs
  import opened ChannelModel

  /** The mime types the upload filter lets through. */
  const AllowedMimeTypes: seq<string> :=
    ["image/jpeg", "image/png", "image/jpg", "image/webp", "video/mp4", "video/mkv", "video/webm"]

  /** `fileFilter`: a file is accepted exactly when its mime type is listed. */
  predicate FileFilter(mimetype: string) {
    mimetype in AllowedMimeTypes
  }

  /** The storage `destination` rule: images under "uploads/", videos under
      "uploads/videos/", anything else an error (`None`). */
  function Destination(mimetype: string): (r: Option<string>)
    ensures StartsWith(mimetype, "image/") ==> r == Some("uploads/")
    ensures r.None? <==> !StartsWith(mimetype, "image/") && !StartsWith(mimetype, "video/")
    ensures r == Some("uploads/videos/") <==> !StartsWith(mimetype, "image/") && StartsWith(mimetype, "video/")
  {
    if StartsWith(mimetype, "image/") then Some("uploads/")
    else if StartsWith(mimetype, "video/") then Some("uploads/videos/")
    else None
  }

  /** Every file the filter accepts has a destination: images go to
      "uploads/" and the three video types to "uploads/videos/". */
  lemma AcceptedHasDestination(mimetype: string)
    requires FileFilter(mimetype)
    ensures Destination(mimetype).Some?
    ensures Destination(mimetype) == Some("uploads/") <==> StartsWith(mimetype, "image/")
  {
  }

  /** The filter is strictly narrower than the destination rule: a GIF has a
      destination but is refused, and so is the AVI video that the upload
      route of the server file allows. */
  lemma FilterNarrowerThanDestination()
    ensures Destination("image/gif") == Some("uploads/") && !FileFilter("image/gif")
    ensures Destination("video/avi") == Some("uploads/videos/") && !FileFilter("video/avi")
  {
    assert "image/gif"[..6] == "image/";
    assert "video/avi"[..6] == "video/";
  }

  /** The storage `filename` rule: `<clock>-<original name>`. */
  function StoredFilename(now: nat, originalName: string): string {
    Decimal(now) + "-" + originalName
  }

  /** Reads a stored filename back: the digits before the first '-' and the
      rest after it. */
  function SplitStoredFilename(f: string): Option<(nat, string)> {
    match IndexOf(f, "-")
    case None => None
    case Some(i) =>
      if i > 0 && AllDigits(f[..i]) then Some((ParseDigits(f[..i]), f[i + 1..])) else None
  }

  /** The stored filename keeps both the clock reading and the original name:
      splitting at the first '-' gives them back, since the clock string is
      all digits. */
  lemma {:induction false} StoredFilenameRoundTrip(now: nat, originalName: string)
    ensures SplitStoredFilename(StoredFilename(now, originalName)) == Some((now, originalName))
  {
    var d := Decimal(now);
    var f := StoredFilename(now, originalName);
    FirstDashAfterDigits(d, originalName);
    assert f[..|d|] == d && f[|d| + 1..] == originalName;
    ParseDecimal(now);
  }

  /** After a run of digits the first '-' is the one that follows it. */
  lemma FirstDashAfterDigits(d: string, rest: string)
    requires AllDigits(d)
    ensures IndexOf(d + "-" + rest, "-") == Some(|d|)
  {
    var f := d + "-" + rest;
    assert OccursAt(f, "-", |d|) by { assert f[|d|..|d| + 1] == "-"; }
    var r := IndexOf(f, "-");
    assert forall j :: 0 <= j < |d| ==> f[j] == d[j];
    assert forall j :: 0 <= j < |d| ==> f[j] != '-';
    assert f[r.value..r.value + 1] == "-";
    assert f[r.value] == '-';
  }

  /** The fields of the POST `/` body. */
  datatype ChannelBody = ChannelBody(
    channelId: Option<string>, channelName: Option<string>, owner: Option<string>,
    description: Option<string>, profileImage: Option<string>, channelBanner: Option<string>)

  /** POST `/`: both images are required (400); the document is built from the
      body as it is, and `save()` refuses it (500) when a required path is
      missing. Nothing is stored unless the result is 201. */
  method CreateChannelRoute(store: ChannelCollection, body: ChannelBody) returns (r: Response<Channel>)
    requires store.Valid()
    modifies store
    ensures store.Valid()
    ensures !Truthy(body.profileImage) || !Truthy(body.channelBanner) ==> r == BadRequest
    ensures Truthy(body.profileImage) && Truthy(body.channelBanner)
            && !(Truthy(body.channelId) && Truthy(body.channelName) && Truthy(body.owner)) ==>
      r == ServerError
    ensures r.Created? <==> Truthy(body.profileImage) && Truthy(body.channelBanner)
                            && Truthy(body.channelId) && Truthy(body.channelName) && Truthy(body.owner)
    ensures r.Created? ==>
      fresh(r.body) && store.docs == old(store.docs) + [r.body]
      && r.body.channelId == body.channelId.value && r.body.channelName == body.channelName.value
      && r.body.owner == body.owner.value && r.body.description == body.description
      && r.body.profileImage == body.profileImage && r.body.channelBanner == body.channelBanner
      && r.body.subscribers == 0 && r.body.videos == []
    ensures !r.Created? ==> store.docs == old(store.docs)
  {
    if !Truthy(body.profileImage) || !Truthy(body.channelBanner) {
      return BadRequest;
    }
    if !(Truthy(body.channelId) && Truthy(body.channelName) && Truthy(body.owner)) {
      return ServerError;
    }
    var c := new Channel(body.channelId.value, body.channelName.value, body.owner.value,
                         body.description, body.profileImage, body.channelBanner);
    store.docs := store.docs + [c];
    r := Created(c);
  }

  /** The plain object `newVideo` that the upload route builds and sends
      back: the body fields as they came, with no `_id`, and the instant of
      the upload. Pushing it onto the list copies it; the object itself is
      not changed. */
  datatype VideoLiteral = VideoLiteral(
    title: Option<string>, description: Option<string>, videoUrl: Option<string>, uploadedAt: nat)

  /** POST `/uploadVideo`: one `{title, description, videoUrl, uploadedAt}`
      entry appended to the channel found by `channelId`, and the object
      literal sent back. The stored entry's id is `freshId`, an ObjectId that
      no stored entry carries yet. A missing title or video URL fails the
      `required` check when the channel is saved. */
  method UploadVideoRoute(store: ChannelCollection, channelId: string, title: Option<string>,
                          description: Option<string>, videoUrl: Option<string>,
                          freshId: string, now: nat) returns (r: Response<VideoLiteral>)
    requires store.Valid()
    requires forall c :: c in store.docs ==> forall e :: e in c.videos ==> e.id != freshId
    modifies store.docs
    ensures store.Valid()
    ensures FindChannel(store.docs, ByChannelId(channelId)).None? ==> r == NotFound(ChannelMissing)
    ensures FindChannel(store.docs, ByChannelId(channelId)).Some? && !(Truthy(title) && Truthy(videoUrl)) ==>
      r == ServerError
    ensures r.Ok? ==>
      var c := store.docs[FindChannel(store.docs, ByChannelId(channelId)).value];
      r.body == VideoLiteral(title, description, videoUrl, now)
      && c.videos == old(c.videos) + [NewEntry(freshId, title.value, description, videoUrl.value, now)]
      && c.subscribers == old(c.subscribers)
      && ProfileUnchanged(c) && OthersUnchanged(store.docs, Some(c))
    ensures r.Ok? <==> FindChannel(store.docs, ByChannelId(channelId)).Some? && Truthy(title) && Truthy(videoUrl)
    ensures !r.Ok? ==> OthersUnchanged(store.docs, None)
  {
    var k := FindChannel(store.docs, ByChannelId(channelId));
    if k.None? {
      return NotFound(ChannelMissing);
    }
    if !(Truthy(title) && Truthy(videoUrl)) {
      return ServerError;
    }
    var c := store.docs[k.value];
    var e := NewEntry(freshId, title.value, description, videoUrl.value, now);
    FreshIdKeepsUnique(c.videos, e);
    c.videos := c.videos + [e];
    r := Ok(VideoLiteral(title, description, videoUrl, now));
    forall j | 0 <= j < |store.docs| && j != k.value ensures store.docs[j] != c {
      DistinctPositions(store, k.value, j);
    }
  }

  /** Appending an entry whose id no entry carries keeps the ids distinct. */
  lemma FreshIdKeepsUnique(es: seq<ChannelVideo>, e: ChannelVideo)
    requires UniqueIds(es) && forall x :: x in es ==> x.id != e.id
    ensures UniqueIds(es + [e])
  {
    var r := es + [e];
    forall i, j | 0 <= i < j < |r| ensures r[i].id != r[j].id {
      assert r[i] == es[i];
      if j < |es| {
        assert r[j] == es[j];
      }
    }
  }

  /** GET `/user/:username`: the first channel that user owns, or 404. */
  function GetChannelByOwner(docs: seq<Channel>, username: string): (r: Response<Channel>)
    ensures r.Ok? || r == NotFound(ChannelMissing)
    ensures r.Ok? ==> r.body in docs && r.body.owner == username
    ensures r.Ok? ==> FindChannel(docs, ByOwner(username)).Some?
                      && r.body == docs[FindChannel(docs, ByOwner(username)).value]
    ensures r.NotFound? <==> forall j :: 0 <= j < |docs| ==> docs[j].owner != username
  {
    match FindChannel(docs, ByOwner(username))
    case None => NotFound(ChannelMissing)
    case Some(k) => Ok(docs[k])
  }

  /** POST `/:channelId/subscribe`: `subscribers += 1`; the whole channel is
      returned. */
  method Subscribe(store: ChannelCollection, channelId: string) returns (r: Response<Channel>)
    requires store.Valid()
    modifies store.docs
    ensures store.Valid()
    ensures FindChannel(store.docs, ByChannelId(channelId)).None? ==>
      r == NotFound(ChannelMissing) && OthersUnchanged(store.docs, None)
    ensures FindChannel(store.docs, ByChannelId(channelId)).Some? ==>
      var c := store.docs[FindChannel(store.docs, ByChannelId(channelId)).value];
      r == Ok(c) && c.subscribers == old(c.subscribers) + 1 && c.videos == old(c.videos)
      && ProfileUnchanged(c) && OthersUnchanged(store.docs, Some(c))
  {
    var k := FindChannel(store.docs, ByChannelId(channelId));
    if k.None? {
      return NotFound(ChannelMissing);
    }
    var c := store.docs[k.value];
    c.subscribers := c.subscribers + 1;
    r := Ok(c);
    forall j | 0 <= j < |store.docs| && j != k.value ensures store.docs[j] != c {
      DistinctPositions(store, k.value, j);
    }
  }

  /** `videos.findIndex(video => video._id.toString() === videoId)`. */
  function FindEntry(es: seq<ChannelVideo>, id: string): (r: Option<nat>)
    ensures r.Some? ==> r.value < |es| && es[r.value].id == id
    ensures r.Some? ==> forall j :: 0 <= j < r.value ==> es[j].id != id
    ensures r.None? <==> forall j :: 0 <= j < |es| ==> es[j].id != id
  {
    FirstFrom(es, (e: ChannelVideo) => e.id == id, 0)
  }

  /** The list after the indexed assignment of `title` and `description` on
      the first entry with that id; nothing else changes. */
  function UpdateFirstEntry(es: seq<ChannelVideo>, id: string, title: string,
                            description: Option<string>): (r: seq<ChannelVideo>)
    ensures |r| == |es|
    ensures FindEntry(es, id).None? ==> r == es
    ensures forall j :: 0 <= j < |es| && Some(j) != FindEntry(es, id) ==> r[j] == es[j]
    ensures FindEntry(es, id).Some? ==>
      var i := FindEntry(es, id).value;
      r[i].title == title && r[i].description == description
      && r[i].id == es[i].id && r[i].videoUrl == es[i].videoUrl && r[i].uploadedAt == es[i].uploadedAt
  {
    match FindEntry(es, id)
    case None => es
    case Some(i) => es[i := es[i].(title := title, description := description)]
  }

  /** PUT `/:channelId/videos/:videoId`: the channel is the first one with
      that `owner`; only the first matching entry's title and description
      change. A missing or empty title fails the `required` check on
      save and nothing is stored. */
  method UpdateVideo(store: ChannelCollection, owner: string, videoId: string,
                     title: Option<string>, description: Option<string>)
    returns (r: Response<ChannelVideo>)
    requires store.Valid()
    modifies store.docs
    ensures store.Valid()
    ensures FindChannel(store.docs, ByOwner(owner)).None? ==> r == NotFound(ChannelMissing)
    ensures FindChannel(store.docs, ByOwner(owner)).Some? ==>
      var c := store.docs[FindChannel(store.docs, ByOwner(owner)).value];
      var i := FindEntry(old(c.videos), videoId);
      (i.None? ==> r == NotFound(VideoMissing))
      && (i.Some? && !Truthy(title) ==> r == ServerError)
      && (i.Some? && Truthy(title) ==>
            c.videos == UpdateFirstEntry(old(c.videos), videoId, title.value, description)
            && r == Ok(c.videos[i.value]) && c.subscribers == old(c.subscribers)
            && ProfileUnchanged(c) && OthersUnchanged(store.docs, Some(c)))
    ensures !r.Ok? ==> OthersUnchanged(store.docs, None)
  {
    var k := FindChannel(store.docs, ByOwner(owner));
    if k.None? {
      return NotFound(ChannelMissing);
    }
    var c := store.docs[k.value];
    var i := FindEntry(c.videos, videoId);
    if i.None? {
      return NotFound(VideoMissing);
    }
    if !Truthy(title) {
      return ServerError;
    }
    c.videos := c.videos[i.value := c.videos[i.value].(title := title.value, description := description)];
    r := Ok(c.videos[i.value]);
    forall j | 0 <= j < |store.docs| && j != k.value ensures store.docs[j] != c {
      DistinctPositions(store, k.value, j);
    }
  }

  /** `videos.filter(video => video._id.toString() !== videoId)`: every entry
      with that id is gone, every other entry keeps its multiplicity (and,
      by `Seqs.FilterAppend`, its order); the length is unchanged exactly
      when no entry has that id. */
  function WithoutEntry(es: seq<ChannelVideo>, id: string): (r: seq<ChannelVideo>)
    ensures forall e :: multiset(r)[e] == if e.id == id then 0 else multiset(es)[e]
    ensures |r| == |es| <==> forall j :: 0 <= j < |es| ==> es[j].id != id
    ensures EntriesAdmitted(es) ==> EntriesAdmitted(r)
    ensures UniqueIds(es) ==> UniqueIds(r)
  {
    WithoutEntryFacts(es, id);
    Filter(es, (e: ChannelVideo) => e.id != id)
  }

  lemma WithoutEntryFacts(es: seq<ChannelVideo>, id: string)
    ensures var r := Filter(es, (e: ChannelVideo) => e.id != id);
      (forall e :: multiset(r)[e] == if e.id == id then 0 else multiset(es)[e])
      && (|r| == |es| <==> forall j :: 0 <= j < |es| ==> es[j].id != id)
      && (EntriesAdmitted(es) ==> EntriesAdmitted(r))
      && (UniqueIds(es) ==> UniqueIds(r))
  {
    var p := (e: ChannelVideo) => e.id != id;
    var r := Filter(es, p);
    forall e: ChannelVideo ensures multiset(r)[e] == if e.id == id then 0 else multiset(es)[e] {
      FilterCount(es, p, e);
    }
    FilterKeepsAll(es, p);
    if UniqueIds(es) {
      FilterKeepsUniqueIds(es, p);
    }
    if EntriesAdmitted(es) {
      forall i | 0 <= i < |r| ensures EntryAdmitted(r[i]) {
        FilterMembership(es, p, r[i]);
      }
    }
  }

  /** DELETE `/:channelId/videos/:videoId`: the channel is the first one with
      that `owner`; every entry with that id is removed; when nothing was
      removed the handler answers 404 and saves nothing. */
  method DeleteVideo(store: ChannelCollection, owner: string, videoId: string)
    returns (r: Response<()>)
    requires store.Valid()
    modifies store.docs
    ensures store.Valid()
    ensures FindChannel(store.docs, ByOwner(owner)).None? ==> r == NotFound(ChannelMissing)
    ensures FindChannel(store.docs, ByOwner(owner)).Some? ==>
      var c := store.docs[FindChannel(store.docs, ByOwner(owner)).value];
      (r.Ok? <==> exists j :: 0 <= j < |old(c.videos)| && old(c.videos)[j].id == videoId)
      && (r.Ok? || r == NotFound(VideoMissing))
    ensures r.Ok? ==>
      var c := store.docs[FindChannel(store.docs, ByOwner(owner)).value];
      c.videos == WithoutEntry(old(c.videos), videoId) && |c.videos| < |old(c.videos)|
      && c.subscribers == old(c.subscribers) && ProfileUnchanged(c)
      && OthersUnchanged(store.docs, Some(c))
    ensures !r.Ok? ==> OthersUnchanged(store.docs, None)
  {
    var k := FindChannel(store.docs, ByOwner(owner));
    if k.None? {
      return NotFound(ChannelMissing);
    }
    var c := store.docs[k.value];
    var kept := WithoutEntry(c.videos, videoId);
    if |kept| == |c.videos| {
      return NotFound(VideoMissing);
    }
    c.videos := kept;
    r := Ok(());
    forall j | 0 <= j < |store.docs| && j != k.value ensures store.docs[j] != c {
      DistinctPositions(store, k.value, j);
    }
  }
}
