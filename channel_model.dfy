/** The Channel document with its embedded video summaries
    (backend/models/Channel.js) and the collection the handlers look channels
    up in, by `channelId` or by `owner`. `channelId` has no unique index, so
    several channels may share one; `findOne` returns the first. */
module ChannelModel {
  import opened Js
  import opened Seqs

  /** An entry of `channel.videos`. `id` is the string form of the
      storage-assigned `_id`; `description` may have been unset by an
      update that sent none. */
  datatype ChannelVideo = ChannelVideo(
    id: string, title: string, description: Option<string>, videoUrl: string, uploadedAt: nat)

  /** The entry sub-schema's required paths hold. */
  predicate EntryAdmitted(e: ChannelVideo) {
    e.title != "" && e.videoUrl != ""
  }

  predicate EntriesAdmitted(es: seq<ChannelVideo>) {
    forall i :: 0 <= i < |es| ==> EntryAdmitted(es[i])
  }

  /** No two entries share a storage id. */
  predicate UniqueIds(es: seq<ChannelVideo>) {
    forall i, j :: 0 <= i < j < |es| ==> es[i].id != es[j].id
  }

  /** Filtering a list with distinct ids leaves the ids distinct. */
  lemma {:induction false} FilterKeepsUniqueIds(es: seq<ChannelVideo>, p: ChannelVideo -> bool)
    requires UniqueIds(es)
    ensures UniqueIds(Filter(es, p))
  {
    if es != [] {
      var tail := es[1..];
      assert forall i :: 0 <= i < |tail| ==> tail[i] == es[i + 1];
      FilterKeepsUniqueIds(tail, p);
      var f := Filter(tail, p);
      forall j | 0 <= j < |f| ensures f[j].id != es[0].id {
        FilterMembership(tail, p, f[j]);
        var k :| 0 <= k < |tail| && tail[k] == f[j];
        assert es[k + 1] == f[j];
      }
    }
  }

  /** The entry Mongoose builds when an object is pushed onto
      `channel.videos`: a missing `description` takes its default "" and
      `uploadedAt` is the instant given. */
  function NewEntry(id: string, title: string, description: Option<string>, videoUrl: string,
                    now: nat): (e: ChannelVideo)
    ensures e.id == id && e.title == title && e.videoUrl == videoUrl && e.uploadedAt == now
    ensures e.description.Some?
    ensures description.Some? ==> e.description == description
    ensures description.None? ==> e.description == Some("")
  {
    ChannelVideo(id, title, Some(if description.Some? then description.value else ""),
                 videoUrl, now)
  }

  /** A stored Channel document. `channelId` and `owner` are never written
      after creation. */
  class Channel {
    const channelId: string
    const owner: string
    var channelName: string
    var description: Option<string>
    var profileImage: Option<string>
    var channelBanner: Option<string>
    var subscribers: nat
    var videos: seq<ChannelVideo>

    /** What `save()` validates, and the distinct `_id`s that Mongoose's
        fresh ObjectIds give the entries. */
    predicate Valid()
      reads this
    {
      channelId != "" && channelName != "" && owner != "" && EntriesAdmitted(videos)
      && UniqueIds(videos)
    }

    /** `new Channel({...})`: `subscribers` defaults to 0 and the video list
        to empty; the optional paths are stored as given. */
    constructor (channelId: string, channelName: string, owner: string, description: Option<string>,
                 profileImage: Option<string>, channelBanner: Option<string>)
      ensures this.channelId == channelId && this.channelName == channelName && this.owner == owner
      ensures this.description == description && this.profileImage == profileImage
      ensures this.channelBanner == channelBanner
      ensures subscribers == 0 && videos == []
      ensures Valid() <==> channelId != "" && channelName != "" && owner != ""
    {
      this.channelId, this.channelName, this.owner := channelId, channelName, owner;
      this.description, this.profileImage, this.channelBanner := description, profileImage, channelBanner;
      subscribers, videos := 0, [];
    }
  }

  /** Between two states, the name, description and images of `c` are the
      same. */
  twostate predicate ProfileUnchanged(c: Channel)
    reads c
  {
    c.channelName == old(c.channelName) && c.description == old(c.description)
    && c.profileImage == old(c.profileImage) && c.channelBanner == old(c.channelBanner)
  }

  /** The `channels` collection, in natural order; every stored document
      passed validation when it was saved. */
  class ChannelCollection {
    var docs: seq<Channel>

    ghost predicate Valid()
      reads this, docs
    {
      (forall i :: 0 <= i < |docs| ==> docs[i].Valid())
      && (forall i, j :: 0 <= i < j < |docs| ==> docs[i] != docs[j])
    }

    constructor ()
      ensures Valid() && docs == []
    {
      docs := [];
    }
  }

  /** Positions in the collection hold distinct channels. */
  lemma DistinctPositions(store: ChannelCollection, k: nat, j: nat)
    requires store.Valid() && k < |store.docs| && j < |store.docs| && j != k
    ensures store.docs[j] != store.docs[k]
  {
    if j < k {
      assert store.docs[j] != store.docs[k];
    }
  }

  /** The two filters the handlers pass to `Channel.findOne`. */
  datatype Key = ByChannelId(channelId: string) | ByOwner(owner: string)

  predicate Matches(c: Channel, key: Key) {
    match key
    case ByChannelId(id) => c.channelId == id
    case ByOwner(o) => c.owner == o
  }

  /** `Channel.findOne(filter)`: the position of the first channel in
      natural order that matches. */
  function FindChannel(docs: seq<Channel>, key: Key): (r: Option<nat>)
    ensures r.Some? ==> r.value < |docs| && Matches(docs[r.value], key)
    ensures r.Some? ==> forall j :: 0 <= j < r.value ==> !Matches(docs[j], key)
    ensures r.None? <==> forall j :: 0 <= j < |docs| ==> !Matches(docs[j], key)
  {
    FirstFrom(docs, (c: Channel) => Matches(c, key), 0)
  }

  /** Everything in the collection except `changed` is as it was. */
  twostate predicate OthersUnchanged(docs: seq<Channel>, changed: Option<Channel>)
    reads docs
  {
    forall c :: c in docs && Some(c) != changed ==> unchanged(c)
  }
}
