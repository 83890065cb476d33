/** The channel handlers of backend/controllers/channelController.js:
    creating a channel with a derived `channelId` and default images,
    the partial `updateChannel`, fetching one channel, and `uploadVideo`,
    whose new Video document can never pass validation. */
module ChannelController {
  import opened Js
  import opened Http
  import opened VideoModel
  import opened ChannelModel

  /** `s.replace(/\s+/g, "_")`: every maximal run of whitespace becomes one
      underscore; every other character is kept. */
  function CollapseSpaces(s: string): (r: string)
    decreases |s|
    ensures |r| <= |s|
    ensures NoSpace(r)
  {
    if s == [] then []
    else if IsSpace(s[0]) then "_" + CollapseSpaces(TrimStart(s[1..]))
    else [s[0]] + CollapseSpaces(s[1..])
  }

  /** A string without whitespace is left as it is. */
  lemma {:induction false} CollapseKeepsSpaceFree(s: string)
    requires NoSpace(s)
    ensures CollapseSpaces(s) == s
  {
    if s != [] {
      CollapseKeepsSpaceFree(s[1..]);
    }
  }

  /** Collapsing twice is collapsing once. */
  lemma CollapseIdempotent(s: string)
    ensures CollapseSpaces(CollapseSpaces(s)) == CollapseSpaces(s)
  {
    CollapseKeepsSpaceFree(CollapseSpaces(s));
  }

  /** Dropping a run of whitespace that is followed by a non-space character
      (or by nothing) leaves exactly what follows it. */
  lemma {:induction false} TrimStartRun(sp: string, b: string)
    requires forall i :: 0 <= i < |sp| ==> IsSpace(sp[i])
    requires b == [] || !IsSpace(b[0])
    ensures TrimStart(sp + b) == b
  {
    if sp == [] {
      assert sp + b == b;
    } else {
      assert (sp + b)[1..] == sp[1..] + b;
      TrimStartRun(sp[1..], b);
    }
  }

  /** A whole run of whitespace between a space-free word and a string that
      does not start with whitespace becomes a single underscore. */
  lemma {:induction false} CollapseRun(a: string, sp: string, b: string)
    requires NoSpace(a)
    requires sp != [] && forall i :: 0 <= i < |sp| ==> IsSpace(sp[i])
    requires b == [] || !IsSpace(b[0])
    ensures CollapseSpaces(a + sp + b) == a + "_" + CollapseSpaces(b)
  {
    if a == [] {
      assert a + sp + b == sp + b;
      TrimStartRun(sp, b);
    } else {
      assert (a + sp + b)[0] == a[0];
      assert (a + sp + b)[1..] == a[1..] + sp + b;
      CollapseRun(a[1..], sp, b);
    }
  }

  predicate NoUpper(s: string) {
    forall i :: 0 <= i < |s| ==> !IsUpper(s[i])
  }

  /** Collapsing introduces no upper-case letter: it keeps characters or
      writes '_'. */
  lemma {:induction false} CollapseKeepsNoUpper(s: string)
    requires NoUpper(s)
    ensures NoUpper(CollapseSpaces(s))
    decreases |s|
  {
    if s != [] {
      var u := s[1..];
      assert NoUpper(u) by {
        forall i | 0 <= i < |u| ensures !IsUpper(u[i]) {
          assert u[i] == s[i + 1];
        }
      }
      if IsSpace(s[0]) {
        var t := TrimStart(u);
        assert NoUpper(t) by {
          forall i | 0 <= i < |t| ensures !IsUpper(t[i]) {
            assert t[i] == u[|u| - |t| + i];
          }
        }
        CollapseKeepsNoUpper(t);
        NoUpperPrefix("_", CollapseSpaces(t));
      } else {
        CollapseKeepsNoUpper(u);
        NoUpperPrefix([s[0]], CollapseSpaces(u));
      }
    }
  }

  lemma NoUpperPrefix(a: string, b: string)
    requires NoUpper(a) && NoUpper(b)
    ensures NoUpper(a + b)
  {
    assert forall i :: |a| <= i < |a + b| ==> (a + b)[i] == b[i - |a|];
  }

  /** The name part of a derived channel id: lower case, without
      whitespace. */
  function Slug(channelName: string): (r: string)
    ensures NoSpace(r) && NoUpper(r)
  {
    CollapseKeepsNoUpper(Lower(channelName));
    CollapseSpaces(Lower(channelName))
  }

  /** The `channelId` `createChannel` generates: the slug of the name, an
      underscore and the clock reading. */
  function DeriveChannelId(channelName: string, now: nat): (r: string)
    ensures r != "" && NoSpace(r) && NoUpper(r)
  {
    Slug(channelName) + "_" + Decimal(now)
  }

  /** The last index of `c` before position `k`. */
  function LastIndexBefore(s: string, c: char, k: nat): (r: Option<nat>)
    requires k <= |s|
    ensures r.Some? ==> r.value < k && s[r.value] == c
    ensures r.Some? ==> forall j :: r.value < j < k ==> s[j] != c
    ensures r.None? ==> forall j :: 0 <= j < k ==> s[j] != c
  {
    if k == 0 then None
    else if s[k - 1] == c then Some(k - 1)
    else LastIndexBefore(s, c, k - 1)
  }

  /** Reads a derived channel id back: the slug before the last underscore
      and the clock reading after it. */
  function SplitChannelId(id: string): Option<(string, nat)> {
    match LastIndexBefore(id, '_', |id|)
    case None => None
    case Some(i) =>
      if i + 1 < |id| && AllDigits(id[i + 1..]) then Some((id[..i], ParseDigits(id[i + 1..])))
      else None
  }

  /** The derived id keeps the slug and the creation time: an underscore inside
      the slug does not confuse the reading, since the clock part has none. */
  lemma {:induction false} ChannelIdRoundTrip(channelName: string, now: nat)
    ensures SplitChannelId(DeriveChannelId(channelName, now)) == Some((Slug(channelName), now))
  {
    var a := Slug(channelName);
    var d := Decimal(now);
    var id := DeriveChannelId(channelName, now);
    assert id[|a|] == '_';
    assert forall j :: |a| < j < |id| ==> id[j] == d[j - |a| - 1];
    var r := LastIndexBefore(id, '_', |id|);
    assert r == Some(|a|);
    assert id[..|a|] == a && id[|a| + 1..] == d;
    ParseDecimal(now);
  }

  /** `value || fallback` for an optional string. */
  function OrDefault(o: Option<string>, fallback: string): (r: string)
    ensures Truthy(o) ==> r == o.value
    ensures !Truthy(o) ==> r == fallback
    ensures fallback != "" ==> r != ""
  {
    if Truthy(o) then o.value else fallback
  }

  const DefaultAvatar := "/uploads/default-avatar.png"
  const DefaultBanner := "/uploads/default-banner.png"

  /** `createChannel`: a name and an owner are required (400); otherwise the
      new channel gets the derived id, the given description or "", the given
      images or the default ones, no subscribers and no videos. Every
      required path is then non-empty, so `save()` always succeeds. */
  method CreateChannel(store: ChannelCollection, channelName: Option<string>, owner: Option<string>,
                       description: Option<string>, profileImage: Option<string>,
                       channelBanner: Option<string>, now: nat) returns (r: Response<Channel>)
    requires store.Valid()
    modifies store
    ensures store.Valid()
    ensures r.BadRequest? <==> !Truthy(channelName) || !Truthy(owner)
    ensures r.BadRequest? || r.Created?
    ensures r.Created? ==>
      fresh(r.body) && store.docs == old(store.docs) + [r.body]
      && r.body.channelId == DeriveChannelId(channelName.value, now)
      && r.body.channelName == channelName.value && r.body.owner == owner.value
      && r.body.description == Some(OrDefault(description, ""))
      && r.body.profileImage == Some(OrDefault(profileImage, DefaultAvatar))
      && r.body.channelBanner == Some(OrDefault(channelBanner, DefaultBanner))
      && r.body.subscribers == 0 && r.body.videos == []
    ensures r.BadRequest? ==> store.docs == old(store.docs)
  {
    if !Truthy(channelName) || !Truthy(owner) {
      return BadRequest;
    }
    var c := new Channel(DeriveChannelId(channelName.value, now), channelName.value, owner.value,
                         Some(OrDefault(description, "")), Some(OrDefault(profileImage, DefaultAvatar)),
                         Some(OrDefault(channelBanner, DefaultBanner)));
    store.docs := store.docs + [c];
    r := Created(c);
  }

  /** The `updateData` object: a path is present only for a truthy body
      field or an uploaded file, whose stored name is served under
      "/uploads/". */
  datatype ChannelUpdate = ChannelUpdate(
    channelName: Option<string>, description: Option<string>,
    profileImage: Option<string>, channelBanner: Option<string>)

  function UpdateData(channelName: Option<string>, description: Option<string>,
                      profileFile: Option<string>, bannerFile: Option<string>): (u: ChannelUpdate)
    ensures u.channelName.Some? <==> Truthy(channelName)
    ensures u.channelName.Some? ==> u.channelName == channelName && u.channelName.value != ""
    ensures u.description.Some? <==> Truthy(description)
    ensures u.description.Some? ==> u.description == description
    ensures u.profileImage.Some? <==> profileFile.Some?
    ensures u.profileImage.Some? ==> u.profileImage.value == "/uploads/" + profileFile.value
    ensures u.channelBanner.Some? <==> bannerFile.Some?
    ensures u.channelBanner.Some? ==> u.channelBanner.value == "/uploads/" + bannerFile.value
  {
    ChannelUpdate(
      if Truthy(channelName) then channelName else None,
      if Truthy(description) then description else None,
      if profileFile.Some? then Some("/uploads/" + profileFile.value) else None,
      if bannerFile.Some? then Some("/uploads/" + bannerFile.value) else None)
  }

  /** `findOneAndUpdate({ channelId }, updateData, { new: true })`: the first
      channel with that id takes exactly the paths present in the update and
      is returned as updated; without one the answer is 404 and nothing
      changes. */
  method UpdateChannel(store: ChannelCollection, channelId: string, channelName: Option<string>,
                       description: Option<string>, profileFile: Option<string>,
                       bannerFile: Option<string>) returns (r: Response<Channel>)
    requires store.Valid()
    modifies store.docs
    ensures store.Valid()
    ensures FindChannel(store.docs, ByChannelId(channelId)).None? ==>
      r == NotFound(ChannelMissing) && OthersUnchanged(store.docs, None)
    ensures FindChannel(store.docs, ByChannelId(channelId)).Some? ==>
      var u := UpdateData(channelName, description, profileFile, bannerFile);
      var c := store.docs[FindChannel(store.docs, ByChannelId(channelId)).value];
      r == Ok(c)
      && c.channelName == (if u.channelName.Some? then u.channelName.value else old(c.channelName))
      && c.description == (if u.description.Some? then u.description else old(c.description))
      && c.profileImage == (if u.profileImage.Some? then u.profileImage else old(c.profileImage))
      && c.channelBanner == (if u.channelBanner.Some? then u.channelBanner else old(c.channelBanner))
      && c.subscribers == old(c.subscribers) && c.videos == old(c.videos)
      && OthersUnchanged(store.docs, Some(c))
  {
    var k := FindChannel(store.docs, ByChannelId(channelId));
    if k.None? {
      return NotFound(ChannelMissing);
    }
    var c := store.docs[k.value];
    var u := UpdateData(channelName, description, profileFile, bannerFile);
    forall j | 0 <= j < |store.docs| && j != k.value ensures store.docs[j] != c {
      DistinctPositions(store, k.value, j);
    }
    ApplyUpdate(c, u);
    r := Ok(c);
  }

  /** The update document applied to one channel: exactly the paths present
      in `u` are overwritten. */
  method ApplyUpdate(c: Channel, u: ChannelUpdate)
    modifies c
    ensures c.channelName == (if u.channelName.Some? then u.channelName.value else old(c.channelName))
    ensures c.description == (if u.description.Some? then u.description else old(c.description))
    ensures c.profileImage == (if u.profileImage.Some? then u.profileImage else old(c.profileImage))
    ensures c.channelBanner == (if u.channelBanner.Some? then u.channelBanner else old(c.channelBanner))
    ensures c.subscribers == old(c.subscribers) && c.videos == old(c.videos)
  {
    c.channelName := if u.channelName.Some? then u.channelName.value else c.channelName;
    c.description := if u.description.Some? then u.description else c.description;
    c.profileImage := if u.profileImage.Some? then u.profileImage else c.profileImage;
    c.channelBanner := if u.channelBanner.Some? then u.channelBanner else c.channelBanner;
  }

  /** `getChannelById`: the first channel with that `channelId`, or 404. */
  function GetChannelById(docs: seq<Channel>, channelId: string): (r: Response<Channel>)
    ensures r.Ok? || r == NotFound(ChannelMissing)
    ensures r.Ok? ==> r.body in docs && r.body.channelId == channelId
    ensures r.Ok? ==> FindChannel(docs, ByChannelId(channelId)).Some?
                      && r.body == docs[FindChannel(docs, ByChannelId(channelId)).value]
    ensures r.NotFound? <==> forall j :: 0 <= j < |docs| ==> docs[j].channelId != channelId
  {
    match FindChannel(docs, ByChannelId(channelId))
    case None => NotFound(ChannelMissing)
    case Some(k) => Ok(docs[k])
  }

  /** The object `uploadVideo` hands to `new Video({...})`: a title and a
      description (with their fallbacks) and nothing for the other required
      paths; `videoUrl` and `channel` are not schema paths and are dropped. */
  function UploadDraft(title: Option<string>, description: Option<string>): (d: VideoDraft)
    ensures d.title == Some(OrDefault(title, "Untitled Video"))
    ensures d.description == Some(OrDefault(description, ""))
    ensures d.videoId.None? && d.thumbnailUrl.None? && d.channelId.None?
    ensures d.uploader.None? && d.duration.None?
  {
    VideoDraft(None, Some(OrDefault(title, "Untitled Video")), None,
               Some(OrDefault(description, "")), None, None, None)
  }

  /** The new Video document always fails validation: `videoId` and four
      other required paths are never set. */
  lemma UploadDraftRejected(title: Option<string>, description: Option<string>)
    ensures !DraftAdmitted(UploadDraft(title, description))
  {
  }

  /** `uploadVideo`: no file is 400, an unknown channel is 404, and otherwise
      `newVideo.save()` throws, so the answer is always 500 and nothing is
      stored. `file` is the stored filename of the uploaded file. */
  function UploadVideo(docs: seq<Channel>, channelId: string, title: Option<string>,
                       description: Option<string>, file: Option<string>): (r: Response<()>)
    ensures r == BadRequest <==> file.None?
    ensures r == NotFound(ChannelMissing) <==>
      file.Some? && forall j :: 0 <= j < |docs| ==> docs[j].channelId != channelId
    ensures file.Some? && FindChannel(docs, ByChannelId(channelId)).Some? ==> r == ServerError
    ensures !r.Succeeded()
  {
    if file.None? then BadRequest
    else if FindChannel(docs, ByChannelId(channelId)).None? then NotFound(ChannelMissing)
    else if DraftAdmitted(UploadDraft(title, description)) then Created(())
    else ServerError
  }
}
