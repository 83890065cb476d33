# YouTube clone: REST handlers, stored documents and page logic in Dafny

This project models the core of a small video-sharing site. It has an
Express/Mongoose back end and a React front end.

**Back end.**
- The stored `Video` and `Channel` documents and their embedded lists: comments on a video, video summaries on a channel.
- The video handlers:
  - fetching a video;
  - posting, editing and deleting a comment;
  - counting likes and dislikes.
- The channel handlers:
  - creating a channel as given in the inline route, and with a derived id in the controller handler that no route reaches;
  - partially updating the channel profile;
  - fetching a channel by id or by owner;
  - attaching a video summary;
  - subscribing;
  - editing or deleting a channel's videos;
  - the upload allow-list and storage rules.

**Front end.** The pure logic of four pages:
- the two duration badges;
- the video grid filter and the related-video list;
- the avatar letters the two video pages compute (neither page displays its own);
- the comment and channel-video list updates after each successful request, with the checks made before a request is sent;
- the banner and avatar URLs.

**How the model is built.**
- A stored document whose fields a handler updates in place is a `class`: `VideoModel.Video` and `ChannelModel.Channel`. A collection is a class holding a sequence of such documents.
- Each handler that writes is a `method` with a `modifies` clause. The read-only handlers are functions: `VideoController.GetVideoById`, `ChannelController.GetChannelById` and `ChannelRoutes.GetChannelByOwner`. So is `ChannelController.UploadVideo`, which never writes. A method's `ensures` clauses give every response and the whole new state:
  - which document changed and how;
  - and that every other document is unchanged.
- A JavaScript value that may be `undefined` is an `Option`. JavaScript truthiness of a string is `Js.Truthy`.
- A Mongoose `required: true` string path refuses `undefined` and `""`. So a `save()` of a document whose required path is absent or empty is a 500 (`Http.ServerError`), and nothing is written.
- External inputs become parameters: the clock reading `Date.now()`, the file name multer stores and the `_id` Mongoose assigns.
- Page code is modelled as functions over the data the page holds. Lemmas tie each page-side list update to the server-side operation it mirrors.

**Two places where the code does something other than what its messages announce. The model follows the code.**
- `uploadVideo` in the channel controller always ends in a 500. The `new Video({...})` it saves never sets `videoId`, `thumbnailUrl`, `channelId`, `uploader` or `duration`, all of which the Video schema requires. So the push onto the channel's list and the 201 answer are unreachable (`ChannelController.UploadVideo`, `ChannelController.UploadDraftRejected`).
- The two video pages use different duration formatters and different filters:
  - they show `PT00H5M3S` differently (`VideoPlayer.ZeroPaddedHoursDiffer`);
  - they compute a different first letter for a user name with a leading space (`VideoPlayer.LeadingSpaceDiffers`);
  - they agree on canonical durations (`VideoPlayer.FormattersAgree`) and on non-blank search terms (`VideoPlayer.RelatedIsGrid`).

## Model

| member | source | states |
|---|---|---|
| Js.Trim | front/src/pages/CommentSection.jsx:40 | `trim()` yields a slice of the string with only whitespace before and after it, which neither starts nor ends with whitespace; it is empty exactly when the string is all whitespace |
| Js.Lower | front/src/pages/Homepage.jsx:217 | `toLowerCase()` keeps the length and maps each character to its lower-case form |
| Js.IncludesIff | front/src/pages/Homepage.jsx:217 | `includes` holds exactly when the term occurs at some index |
| Js.PadStart2 | front/src/pages/Homepage.jsx:122 | `padStart(2, "0")` keeps the string as its suffix and fills the front with zeros up to two characters |
| Js.Decimal | backend/controllers/videoController.js:51 | `Date.now().toString()` is a non-empty digit string with no leading zero |
| Js.ParseDecimal | front/src/pages/Homepage.jsx:117-119 | `parseInt` of a rendered number gives the number back |
| Seqs.Filter | front/src/pages/ChannelPage.jsx:183 | `filter` keeps only passing elements and never grows the list |
| Seqs.FilterAppend | front/src/pages/Homepage.jsx:214-218 | filtering preserves order: it distributes over concatenation |
| Seqs.FilterCount | front/src/pages/CommentSection.jsx:120 | filtering keeps each passing element's multiplicity and drops the rest |
| Seqs.FilterMembership | front/src/pages/Homepage.jsx:214-218 | an element is in the filtered list exactly when it was in the list and passes |
| Seqs.FilterKeepsAll | backend/routes/channelRoutes.js:207-209 | the filtered list has the original length exactly when every element passes, and is then the list itself |
| Seqs.FirstFrom | backend/controllers/videoController.js:101 | `findIndex` from a position: the first index whose element passes, none exactly when no later element passes |
| Seqs.Take | front/src/pages/VideoPlayer.jsx:282 | `slice(0, n)` is the first `n` elements, or all when fewer |
| VideoModel.Video.constructor | backend/models/Video.js:3-23 | a new document has the given paths, zero counters and no comments; it is valid exactly when every required string is non-empty |
| VideoModel.FindVideo | backend/controllers/videoController.js:18 | the position of a document with that `videoId`, no earlier document having it; none exactly when no document has it |
| VideoModel.FoundIsOnly | backend/models/Video.js:4 | under the unique index on `videoId`, the document found is the only one with that key |
| VideoController.FindComment | backend/controllers/videoController.js:78 | the position of the first comment with that id, none exactly when no comment has it |
| VideoController.NewComment | backend/controllers/videoController.js:50-55 | the new comment's id is the decimal string of the first clock reading and parses back to it; its timestamp is the second reading; author and text are as given, and it passes the comment schema when both are non-empty |
| VideoController.EditFirst | backend/controllers/videoController.js:78-81 | only the first matching comment changes, and only its text |
| VideoController.RemoveFirst | backend/controllers/videoController.js:101-104 | splicing out the first match: earlier comments stay put, later ones move up one, and the multiset loses exactly that comment |
| VideoController.GetVideoById | backend/controllers/videoController.js:15-31 | 200 with a stored document of that `videoId`, 404 exactly when there is none |
| VideoController.PostComment | backend/controllers/videoController.js:34-65 | missing author or text is 400; unknown video is 404; otherwise 201 with the new comment, appended at the end of that video's list; counters and other videos unchanged |
| VideoController.UpdateComment | backend/controllers/videoController.js:68-89 | 404 for an unknown video or comment; 500 with nothing stored when the new text is empty; otherwise only the first match's text changes and the edited comment is returned |
| VideoController.DeleteComment | backend/controllers/videoController.js:92-112 | 404 for an unknown video or comment; otherwise the first match is removed and nothing else changes |
| VideoController.UpdateLike | backend/controllers/videoController.js:115-132 | 404 for an unknown video; otherwise likes go up by exactly one and the new count is returned; nothing else changes |
| VideoController.UpdateDislike | backend/controllers/videoController.js:135-152 | the same as UpdateLike, for dislikes |
| ChannelModel.NewEntry | backend/models/Channel.js:11-18 | a pushed video summary takes the given fields, with description defaulting to "" |
| ChannelModel.Channel.constructor | backend/models/Channel.js:3-19 | a new channel has the given paths, no subscribers and no videos; it is valid (required paths set, entry ids distinct) exactly when id, name and owner are non-empty |
| ChannelModel.FindChannel | backend/controllers/channelController.js:19 | the first channel in natural order matching the filter; none exactly when no channel matches |
| ChannelModel.FilterKeepsUniqueIds | backend/routes/channelRoutes.js:207 | filtering a channel's entries keeps their ids distinct |
| ChannelRoutes.FileFilter | backend/routes/channelRoutes.js:35-46 | a file is accepted exactly when its mime type is one of the seven listed |
| ChannelRoutes.StoredFilename | backend/routes/channelRoutes.js:29-31 | a stored file is named by the clock reading, a dash and the original name; `StoredFilenameRoundTrip` reads both back |
| ChannelRoutes.Destination | backend/routes/channelRoutes.js:20-28 | images go to "uploads/", videos to "uploads/videos/", anything else is an error |
| ChannelRoutes.AcceptedHasDestination | backend/routes/channelRoutes.js:35-46 | every mime type the filter accepts has a destination, "uploads/" exactly for images |
| ChannelRoutes.FilterNarrowerThanDestination | backend/routes/channelRoutes.js:20-46 | the filter refuses a GIF and an AVI although the destination rule places both |
| ChannelRoutes.StoredFilenameRoundTrip | backend/routes/channelRoutes.js:29-31 | the stored filename `<clock>-<name>` gives back both the clock reading and the original name |
| ChannelRoutes.CreateChannelRoute | backend/routes/channelRoutes.js:69-81 | missing images are 400; a missing id, name or owner fails `save()` with 500; otherwise 201 with a fresh channel appended, built from the body as given |
| ChannelRoutes.UploadVideoRoute | backend/routes/channelRoutes.js:102-129 | unknown channel is 404; missing title or video URL is 500; otherwise 200 answering the object literal as sent, with one summary under a fresh id appended to that channel; entry ids stay distinct; profile, subscribers and other channels unchanged |
| ChannelRoutes.FreshIdKeepsUnique | backend/routes/channelRoutes.js:121 | pushing an entry under an id no entry carries keeps the ids distinct |
| ChannelRoutes.GetChannelByOwner | backend/routes/channelRoutes.js:131-141 | 200 with the first channel that user owns in natural order, the one `FindChannel` picks for the update and delete routes; 404 exactly when there is none |
| ChannelRoutes.Subscribe | backend/routes/channelRoutes.js:143-160 | unknown channel is 404; otherwise subscribers go up by exactly one and nothing else changes |
| ChannelRoutes.FindEntry | backend/routes/channelRoutes.js:177 | the first summary with that id; none exactly when no summary has it |
| ChannelRoutes.UpdateFirstEntry | backend/routes/channelRoutes.js:182-183 | only the first matching summary changes, and only its title and description |
| ChannelRoutes.UpdateVideo | backend/routes/channelRoutes.js:164-192 | channel found by owner; 404 for no channel or no matching video; empty title is 500 with nothing stored; otherwise the first match is edited and returned |
| ChannelRoutes.WithoutEntry | backend/routes/channelRoutes.js:207 | every summary with that id is gone and the others keep their multiplicity; the length is unchanged exactly when none matched; validity is kept |
| ChannelRoutes.DeleteVideo | backend/routes/channelRoutes.js:194-222 | channel found by owner; 404 when no channel matches; for a found channel 200 exactly when some summary has that id, else 404; on 200 every matching summary is removed and the list shrinks |
| ChannelController.CollapseSpaces | backend/controllers/channelController.js:87 | `replace(/\s+/g, "_")` leaves no whitespace and never lengthens the string |
| ChannelController.CollapseKeepsSpaceFree | backend/controllers/channelController.js:87 | a string without whitespace is left unchanged |
| ChannelController.CollapseIdempotent | backend/controllers/channelController.js:87 | replacing twice is replacing once |
| ChannelController.CollapseRun | backend/controllers/channelController.js:87 | a whole run of whitespace between words becomes a single underscore |
| ChannelController.CollapseKeepsNoUpper | backend/controllers/channelController.js:87 | the replacement introduces no upper-case letter |
| ChannelController.Slug | backend/controllers/channelController.js:87 | the name part of the id has no whitespace and no upper-case letter |
| ChannelController.DeriveChannelId | backend/controllers/channelController.js:87 | the generated id is non-empty, without whitespace or upper case |
| ChannelController.ChannelIdRoundTrip | backend/controllers/channelController.js:87 | splitting the id at its last underscore gives back the slug and the creation time |
| ChannelController.OrDefault | backend/controllers/channelController.js:90-97 | the `or` fallback: the value when truthy, the fallback otherwise |
| ChannelController.CreateChannel | backend/controllers/channelController.js:77-110 | 400 exactly when name or owner is missing; otherwise 201 with a fresh channel appended: derived id, description or "", the given images or the defaults, no subscribers or videos |
| ChannelController.UpdateData | backend/controllers/channelController.js:117-127 | a path is in the update exactly when its body field is truthy or its file was uploaded; image paths are served under "/uploads/" |
| ChannelController.UpdateChannel | backend/controllers/channelController.js:113-144 | unknown id is 404 with nothing changed; otherwise exactly the present paths are overwritten; subscribers, videos and other channels unchanged |
| ChannelController.ApplyUpdate | backend/controllers/channelController.js:129-133 | `findOneAndUpdate` with the update document overwrites exactly the paths it holds and keeps every other path |
| ChannelController.GetChannelById | backend/controllers/channelController.js:58-74 | 200 with the first channel of that id in natural order, the one `FindChannel` picks and the other handlers change; 404 exactly when there is none |
| ChannelController.UploadDraft | backend/controllers/channelController.js:25-31 | the new Video gets a title (default "Untitled Video") and a description (default "") and none of the other required paths |
| ChannelController.UploadDraftRejected | backend/controllers/channelController.js:25-33 | that document never passes validation |
| ChannelController.UploadVideo | backend/controllers/channelController.js:7-44 | 400 exactly when there is no file; 404 exactly when there is a file and no channel; with a file and a channel it is 500; the handler never succeeds |
| IsoDuration.Group | front/src/pages/Homepage.jsx:114 | an optional group captures a non-empty run of digits directly followed by its unit letter |
| IsoDuration.Match | front/src/pages/Homepage.jsx:114 | no match exactly when "PT" does not occur; every capture is a non-empty digit string |
| IsoDuration.MatchRender | front/src/pages/VideoPlayer.jsx:128 | matching a rendered `PTnHnMnS` string gives back exactly the captures it was built from |
| Homepage.FormatDuration | front/src/pages/Homepage.jsx:113-124 | "0:00" without "PT"; otherwise the clock of the parsed groups, a missing group counting as 0 |
| Homepage.FormatRendered | front/src/pages/Homepage.jsx:113-124 | the badge of a rendered duration shows exactly its numbers, 0 for each part left out |
| Homepage.PadKeepsValue | front/src/pages/Homepage.jsx:122 | zero-padding a numeral keeps its value |
| Homepage.ClockRoundTrip | front/src/pages/Homepage.jsx:121-123 | the `h:mm:ss` / `m:ss` display reads back to its hours, minutes and seconds |
| Homepage.Clock | front/src/pages/Homepage.jsx:121-123 | `h:mm:ss` with hours, `m:ss` without, later parts zero-padded to two digits; `ClockRoundTrip` reads it back |
| Homepage.InCategory | front/src/pages/Homepage.jsx:216 | "All" admits every video; otherwise its trimmed category must equal the trimmed selection |
| Homepage.TitleMatches | front/src/pages/Homepage.jsx:217 | a title must be present and contain the term, both lower-cased |
| Homepage.Shown | front/src/pages/Homepage.jsx:216-217 | the grid filter: both the category and the title test |
| Homepage.Grid | front/src/pages/Homepage.jsx:214-218 | every video shown passes both the category and the title test, and none is added |
| Homepage.GridExactly | front/src/pages/Homepage.jsx:214-218 | a video is shown exactly when it was listed and passes both tests |
| Homepage.EveryTitleMatchesEmptyTerm | front/src/pages/Homepage.jsx:217 | with "All" and no search term, exactly the videos with a title are shown |
| Homepage.NoCategoryHidesAll | front/src/pages/Homepage.jsx:216 | if no listed video carries a category, any selection but "All" empties the grid |
| Homepage.FirstLetter | front/src/pages/Homepage.jsx:112 | "U" for no user; "" exactly for an all-whitespace name; otherwise the upper-cased first non-space character |
| VideoPlayer.FormatDuration | front/src/pages/VideoPlayer.jsx:127-137 | fails (a property read of `null`) exactly when "PT" is absent; hours are shown unless captured as literally "0" |
| VideoPlayer.CanonicalReads | front/src/pages/VideoPlayer.jsx:129-133 | a canonical capture is the numeral of its parsed value, and is "0" exactly when that value is 0 |
| VideoPlayer.FormattersAgree | front/src/pages/VideoPlayer.jsx:127-137 | on canonically written durations the player shows the same text as the Homepage |
| VideoPlayer.ZeroPaddedHoursDiffer | front/src/pages/VideoPlayer.jsx:133 | "PT00H5M3S" shows "00:05:03" on the player and "5:03" on the Homepage |
| VideoPlayer.TitleHit | front/src/pages/VideoPlayer.jsx:118 | a title must be Truthy and contain the term, both lower-cased |
| VideoPlayer.Related | front/src/pages/VideoPlayer.jsx:113-122 | a blank term lists every video; otherwise only videos whose title contains the term |
| VideoPlayer.RelatedExactly | front/src/pages/VideoPlayer.jsx:117-119 | for a non-blank term a video is related exactly when it was listed and its title matches |
| VideoPlayer.Sidebar | front/src/pages/VideoPlayer.jsx:282 | exactly the first min(8, n) of the n related videos, in order, and all of them when there are eight or fewer |
| VideoPlayer.RelatedIsGrid | front/src/pages/VideoPlayer.jsx:113-122 | for a non-blank term the related list equals the Homepage grid under "All" |
| VideoPlayer.FirstLetter | front/src/pages/VideoPlayer.jsx:125 | "U" for no user, otherwise the upper-cased first character as it is |
| VideoPlayer.FirstLettersAgree | front/src/pages/VideoPlayer.jsx:125 | both pages compute the same letter unless the name starts with whitespace |
| VideoPlayer.LeadingSpaceDiffers | front/src/pages/VideoPlayer.jsx:125 | " ann" computes " " on the player and "A" on the Homepage |
| CommentSection.AddComment | front/src/pages/CommentSection.jsx:39-50 | blank comment or missing video id first, then a missing user, are refused; otherwise the untrimmed text and user name are sent |
| CommentSection.SentPassesServerCheck | front/src/pages/CommentSection.jsx:40-50 | a comment the page sends never meets the server's 400 |
| CommentSection.BlankCommentRefusedLocally | front/src/pages/CommentSection.jsx:40 | an all-whitespace comment passes the server's check but is never sent |
| CommentSection.LocalAdd | front/src/pages/CommentSection.jsx:67 | the saved comment is appended after the existing ones |
| CommentSection.AddAgreesWithServer | front/src/pages/CommentSection.jsx:67 | after a 201 the page's list is the list `postComment` stored: the old comments followed by the returned one |
| CommentSection.LocalEdit | front/src/pages/CommentSection.jsx:95-99 | every comment with that id gets the new text; the others are kept |
| CommentSection.LocalDelete | front/src/pages/CommentSection.jsx:120 | every comment with that id is gone; the others keep their multiplicity |
| CommentSection.EditAgreesWithServer | front/src/pages/CommentSection.jsx:95-99 | with distinct ids the page's edit is the server's edit of the first match |
| CommentSection.DeleteAgreesWithServer | front/src/pages/CommentSection.jsx:120 | with distinct ids the page's delete is the server's removal of the first match |
| CommentSection.DuplicateIdsDisagree | front/src/pages/CommentSection.jsx:120 | two comments posted in the same millisecond share an id; the page then removes both, the server only the first |
| CommentSection.ShowsControls | front/src/pages/CommentSection.jsx:175 | the edit and delete controls show exactly when a user name is set and equals the comment's `userId` |
| CommentSection.AuthorSeesControls | front/src/pages/CommentSection.jsx:175 | the author of a sent comment sees its controls and nobody else does |
| ChannelPage.ImageUrl | front/src/pages/ChannelPage.jsx:34-40 | a stored banner or avatar is served from the API host; without one the page's own fallback is shown |
| ChannelPage.CreatedChannelNeedsNoFallback | front/src/pages/ChannelPage.jsx:34-40 | a channel created by POST `/`, which requires both images, gets both served from the API host and never the page's fallbacks |
| ChannelPage.ControllerChannelNeedsNoFallback | front/src/pages/ChannelPage.jsx:34-40 | a channel the unrouted controller `createChannel` would build gets served images, the defaults when none were given |
| ChannelPage.AllowedUploadIsStored | front/src/pages/ChannelPage.jsx:46-49 | an upload the page lets through carries a Truthy title and description, so the upload route's title check passes |
| ChannelPage.UploadAllowed | front/src/pages/ChannelPage.jsx:46 | `handleUpload` sends only with a file and a title and description that are not blank after trimming |
| ChannelPage.UpdateAllowed | front/src/pages/ChannelPage.jsx:129 | `handleUpdateVideo` sends only when neither the title nor the description is blank after trimming |
| ChannelPage.AllowedUpdatePassesServerCheck | front/src/pages/ChannelPage.jsx:129-132 | an edit the page lets through never meets the server's refusal of an empty title |
| ChannelPage.LocalUpdate | front/src/pages/ChannelPage.jsx:152-156 | every entry with that id gets the new title and description; the others are kept |
| ChannelPage.UpdateAgreesWithServer | front/src/pages/ChannelPage.jsx:152-156 | with distinct ids, which every stored channel keeps, the page's update is the server's update of the first match |
| ChannelPage.LocalDelete | front/src/pages/ChannelPage.jsx:183 | no entry with that id remains and the list never grows |
| ChannelPage.DeleteAgreesWithServer | front/src/pages/ChannelPage.jsx:183 | the page's delete equals the server's, whether or not ids repeat |

## Left out

- Network, React state, rendering, `fetch`, `alert` and navigation. Only the values the pages compute are modelled.
- Mongoose and MongoDB I/O. A collection is an in-memory sequence in natural order; `findOne` returns its first match. For the comment and channel handlers, the validation error a `save()` throws is modelled as a 500 that writes nothing.
- Multer I/O:
  - disk writes and the creation of the upload directories are not modelled;
  - the error path of a refused file is not modelled either; its rules are modelled as `ChannelRoutes.FileFilter` and `ChannelRoutes.Destination`.
- Concurrency. Two requests on the same document are last-writer-wins in MongoDB; the model treats handlers one at a time.
- Authentication is not part of this model: JWT, bcrypt, `authController.js` and `authMiddleware.js`.
- The upload endpoint in `backend/server.js` is not part of this model. Only its AVI allowance is mentioned, in `ChannelRoutes.FilterNarrowerThanDestination`.
- `getVideos` and `getAllChannels` with `populate("videos")` are left out. They only list the whole collection, and `populate` on embedded documents is a no-op.
- The route DELETE `/:channelId` calls `channelController.deleteChannel`. The controller does not define it, so the route always answers 500. No deletion of a channel exists to model.
- `ChannelController.UploadVideo`: the push of the new video's `_id` and the 201 answer after `newVideo.save()` are unreachable, as `UploadDraftRejected` shows, so they are not modelled. The response body and the plain object literal sent as `video` are not modelled either.
- `updateComment` and `deleteComment` in `VideoPlayer.jsx` call a `setComments` the component never declares, and no element uses them. `startEditing` in `ChannelPage.jsx` calls setters the page never declares and is never used. All three are left out.
- Response bodies are reduced to the value a caller uses: the comment, the count, the channel, the edited entry or the upload route's object literal. The message strings are left out.
- Timestamps are natural numbers of milliseconds. `new Date().toISOString()` and the `Date` type are not modelled.
- `formatNumber` and view counts on the pages are left out; they use floating point.
- Js.Lower and Js.UpperChar map only the ASCII letters; full Unicode case mapping is not modelled.
- Js.ParseDigits is exact; `parseInt` loses precision above 2^53, and that is not modelled.
- `ChannelController.CreateChannel` and `ChannelController.UploadVideo` are exported, but no route calls them:
  - `channelRoutes.js` reaches only `getAllChannels`, `getChannelById`, `updateChannel` and `deleteChannel`;
  - POST `/` and POST `/uploadVideo` have inline handlers.
  Both are modelled as written, though no request reaches them.
- VideoPlayer.FirstLetter and Homepage.FirstLetter model the `firstLetter` constants of the two pages. Neither page renders its constant, so neither letter is displayed. The avatar letter on screen comes from `ProfileMenu.jsx`, which is not part of this model.
- Every video handler requires `store.Valid()`: each stored Video passed schema validation and `videoId`s are unique. No code path creates a Video, since `uploadVideo` always fails and is unrouted, so the documents come from outside the code. A loaded document missing a required path such as `duration` would make `postComment`'s `save()` answer 500; the model does not cover that case.
- Homepage.NoCategoryHidesAll assumes that no listed video carries a `category`. The Video schema declares none, but Mongoose keeps and serves any field a stored document has, so real listings may carry categories.
- Handler inputs are taken to be strings or absent. Non-string JSON values such as numbers or objects in a body field are not modelled.
- ChannelRoutes.UpdateVideo, ChannelRoutes.DeleteVideo and ChannelRoutes.UploadVideoRoute take the body fields `owner` and `channelId` as present strings. An absent field makes the filter `{ owner: undefined }` or `{ channelId: undefined }`; how Mongoose casts that (probably to the empty filter, which matches the first channel) is not modelled.
- ChannelRoutes.UploadVideoRoute requires `freshId` to differ from every stored entry id, as a new ObjectId does. Every stored channel's entry ids are then distinct (`ChannelModel.Channel.Valid`), and every handler keeps them so.
- CommentSection.EditAgreesWithServer and CommentSection.DeleteAgreesWithServer require distinct comment ids. The server does not guarantee distinct ids, as `CommentSection.DuplicateIdsDisagree` shows.
