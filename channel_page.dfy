/** The pure parts of front/src/pages/ChannelPage.jsx: the banner and avatar
    URLs, the checks made before an upload or an edit is sent, and the
    optimistic updates of the local video list after a successful edit or
    delete. The local list is the channel's `videos` as the server returned
    them; an entry's `_id` is its `id`. */
module ChannelPage {
  import opened Js
  import opened Seqs
  import opened ChannelModel
  import opened ChannelRoutes
  import opened ChannelController

  const BaseUrl := "http://localhost:5000"

  /** `bannerUrl` and `profileUrl`: the stored path served from the API
      host, or the page's own fallback image. */
  function ImageUrl(stored: Option<string>, fallback: string): (r: string)
    ensures Truthy(stored) ==> r == BaseUrl + stored.value
    ensures !Truthy(stored) ==> r == fallback
  {
    if Truthy(stored) then BaseUrl + stored.value else fallback
  }

  const BannerFallback := "/default-banner.jpg"
  const AvatarFallback := "/default-avatar.png"

  /** A channel that POST `/` creates has both images, since the route
      answers 400 without them (`ChannelRoutes.CreateChannelRoute`), so the
      page serves both from the API host and never uses its fallbacks. */
  lemma CreatedChannelNeedsNoFallback(body: ChannelBody)
    requires Truthy(body.profileImage) && Truthy(body.channelBanner)
    ensures ImageUrl(body.profileImage, AvatarFallback) == BaseUrl + body.profileImage.value
    ensures ImageUrl(body.channelBanner, BannerFallback) == BaseUrl + body.channelBanner.value
    ensures ImageUrl(body.profileImage, AvatarFallback) != AvatarFallback
    ensures ImageUrl(body.channelBanner, BannerFallback) != BannerFallback
  {
    assert (BaseUrl + body.profileImage.value)[..|BaseUrl|] == BaseUrl;
    assert (BaseUrl + body.channelBanner.value)[..|BaseUrl|] == BaseUrl;
    assert AvatarFallback[0] != BaseUrl[0] && BannerFallback[0] != BaseUrl[0];
  }

  /** A channel built by the controller's `createChannel`, which no route
      reaches, would store both images as well: the given ones or the
      server's defaults. */
  lemma ControllerChannelNeedsNoFallback(profileImage: Option<string>, channelBanner: Option<string>)
    ensures ImageUrl(Some(OrDefault(profileImage, DefaultAvatar)), AvatarFallback)
         == BaseUrl + OrDefault(profileImage, DefaultAvatar)
    ensures ImageUrl(Some(OrDefault(channelBanner, DefaultBanner)), BannerFallback)
         == BaseUrl + OrDefault(channelBanner, DefaultBanner)
    ensures !Truthy(profileImage) ==>
      ImageUrl(Some(OrDefault(profileImage, DefaultAvatar)), AvatarFallback) == BaseUrl + DefaultAvatar
  {
  }

  /** `handleUpload`'s check: a file, and a title and a description that are
      not blank. */
  predicate UploadAllowed(hasFile: bool, title: string, description: string) {
    hasFile && Trim(title) != "" && Trim(description) != ""
  }

  /** An upload the page lets through carries a Truthy title and
      description; the title is what the upload route's validation asks for
      besides a known channel and a video URL. */
  lemma AllowedUploadIsStored(hasFile: bool, title: string, description: string)
    requires UploadAllowed(hasFile, title, description)
    ensures Truthy(Some(title)) && Truthy(Some(description))
  {
  }

  /** `handleUpdateVideo`'s check: neither the new title nor the new
      description is blank. */
  predicate UpdateAllowed(title: string, description: string) {
    Trim(title) != "" && Trim(description) != ""
  }

  /** An edit the page lets through never meets the server's refusal of an
      empty title. */
  lemma AllowedUpdatePassesServerCheck(title: string, description: string)
    requires UpdateAllowed(title, description)
    ensures Truthy(Some(title))
  {
  }

  /** `prevVideos.map(...)`: every entry with that id gets the new title and
      description. */
  function LocalUpdate(es: seq<ChannelVideo>, id: string, title: string, description: string)
    : (r: seq<ChannelVideo>)
    ensures |r| == |es|
    ensures forall j :: 0 <= j < |es| && es[j].id != id ==> r[j] == es[j]
    ensures forall j :: 0 <= j < |es| && es[j].id == id ==>
      r[j] == es[j].(title := title, description := Some(description))
  {
    seq(|es|, j requires 0 <= j < |es| =>
      if es[j].id == id then es[j].(title := title, description := Some(description)) else es[j])
  }

  /** With distinct storage ids, which every stored channel has
      (`ChannelModel.Channel.Valid`), the local update is the server's update
      of the first match. */
  lemma UpdateAgreesWithServer(es: seq<ChannelVideo>, id: string, title: string, description: string)
    requires UniqueIds(es)
    ensures LocalUpdate(es, id, title, description) == UpdateFirstEntry(es, id, title, Some(description))
  {
    var l, s := LocalUpdate(es, id, title, description), UpdateFirstEntry(es, id, title, Some(description));
    assert forall j :: 0 <= j < |es| ==> l[j] == s[j];
  }

  /** `prevVideos.filter((video) => video._id !== videoId)`. */
  function LocalDelete(es: seq<ChannelVideo>, id: string): (r: seq<ChannelVideo>)
    ensures |r| <= |es|
    ensures forall j :: 0 <= j < |r| ==> r[j].id != id
  {
    Filter(es, (v: ChannelVideo) => v.id != id)
  }

  /** The local delete and the server's delete remove the same entries,
      whether or not ids repeat: both tests reject exactly the entries with
      that id. */
  lemma DeleteAgreesWithServer(es: seq<ChannelVideo>, id: string)
    ensures LocalDelete(es, id) == WithoutEntry(es, id)
  {
    FilterEquiv(es, (v: ChannelVideo) => v.id != id, (e: ChannelVideo) => e.id != id);
  }
}
