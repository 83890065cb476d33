/** The comment list of front/src/pages/CommentSection.jsx: the checks made
    before a comment is sent, the request body, the optimistic updates of
    the local list after each successful request, and who sees the edit and
    delete controls. The local list is the `comments` array the server
    returned for the video. */
module CommentSection {
  import opened Js
  import opened Seqs
  import opened VideoModel
  import opened VideoController

  /** The body of the POST request. */
  datatype Payload = Payload(text: string, userId: string)

  datatype Refusal = InvalidInput | NotLoggedIn

  /** What `addComment` does: refuse with a message, or send a payload. */
  datatype AddStep = Refuse(why: Refusal) | Send(payload: Payload)

  /** `addComment`'s checks, in order: a comment that is blank after
      trimming or a missing video id, then a missing user name. The text is
      sent untrimmed. */
  function AddComment(newComment: string, videoId: Option<string>, username: Option<string>): (r: AddStep)
    ensures r == Refuse(InvalidInput) <==> Trim(newComment) == "" || !Truthy(videoId)
    ensures r == Refuse(NotLoggedIn) <==> Trim(newComment) != "" && Truthy(videoId) && !Truthy(username)
    ensures r.Send? ==> r.payload == Payload(newComment, username.value)
  {
    if Trim(newComment) == "" || !Truthy(videoId) then Refuse(InvalidInput)
    else if !Truthy(username) then Refuse(NotLoggedIn)
    else Send(Payload(newComment, username.value))
  }

  /** Whatever the page sends passes the server's own check: `postComment`
      answers 400 only for a missing author or text. */
  lemma SentPassesServerCheck(newComment: string, videoId: Option<string>, username: Option<string>)
    requires AddComment(newComment, videoId, username).Send?
    ensures var p := AddComment(newComment, videoId, username).payload;
      Truthy(Some(p.text)) && Truthy(Some(p.userId))
  {
  }

  /** The page is stricter than the server: a comment of spaces only would
      pass the server's check but is never sent. */
  lemma BlankCommentRefusedLocally(newComment: string, videoId: Option<string>, username: Option<string>)
    requires newComment != "" && forall i :: 0 <= i < |newComment| ==> IsSpace(newComment[i])
    ensures Truthy(Some(newComment))
    ensures AddComment(newComment, videoId, username) == Refuse(InvalidInput)
  {
  }

  /** `[...prevComments, savedComment]`. */
  function LocalAdd(cs: seq<Comment>, saved: Comment): (r: seq<Comment>)
    ensures |r| == |cs| + 1 && r[..|cs|] == cs && r[|cs|] == saved
  {
    cs + [saved]
  }

  /** The page's append after a 201 gives the list `postComment` stores:
      the stored list followed by the returned comment. */
  lemma AddAgreesWithServer(cs: seq<Comment>, saved: Comment, stored: seq<Comment>)
    requires stored == cs + [saved]
    ensures LocalAdd(cs, saved) == stored
  {
  }

  /** `prevComments.map(...)`: every comment with that id gets the new
      text. */
  function LocalEdit(cs: seq<Comment>, commentId: string, text: string): (r: seq<Comment>)
    ensures |r| == |cs|
    ensures forall j :: 0 <= j < |cs| && cs[j].commentId != commentId ==> r[j] == cs[j]
    ensures forall j :: 0 <= j < |cs| && cs[j].commentId == commentId ==> r[j] == cs[j].(text := text)
  {
    seq(|cs|, j requires 0 <= j < |cs| =>
      if cs[j].commentId == commentId then cs[j].(text := text) else cs[j])
  }

  /** The test the delete filter keeps a comment by. */
  function OtherId(commentId: string): Comment -> bool {
    (c: Comment) => c.commentId != commentId
  }

  /** `prevComments.filter(...)`: every comment with that id is gone. */
  function LocalDelete(cs: seq<Comment>, commentId: string): (r: seq<Comment>)
    ensures forall j :: 0 <= j < |r| ==> r[j].commentId != commentId
    ensures forall c :: multiset(r)[c] == if c.commentId == commentId then 0 else multiset(cs)[c]
  {
    var p := OtherId(commentId);
    forall c: Comment ensures multiset(Filter(cs, p))[c] == if c.commentId == commentId then 0 else multiset(cs)[c] {
      FilterCount(cs, p, c);
    }
    Filter(cs, p)
  }

  /** No two comments of the list share an id. */
  predicate UniqueIds(cs: seq<Comment>) {
    forall i, j :: 0 <= i < j < |cs| ==> cs[i].commentId != cs[j].commentId
  }

  /** With distinct ids the local edit is the server's edit of the first
      match. */
  lemma EditAgreesWithServer(cs: seq<Comment>, commentId: string, text: string)
    requires UniqueIds(cs)
    ensures LocalEdit(cs, commentId, text) == EditFirst(cs, commentId, text)
  {
    var l, s := LocalEdit(cs, commentId, text), EditFirst(cs, commentId, text);
    assert forall j :: 0 <= j < |cs| ==> l[j] == s[j];
  }

  /** With distinct ids the local delete is the server's removal of the
      first match. */
  lemma DeleteAgreesWithServer(cs: seq<Comment>, commentId: string)
    requires UniqueIds(cs)
    ensures LocalDelete(cs, commentId) == RemoveFirst(cs, commentId)
  {
    var p := OtherId(commentId);
    match FindComment(cs, commentId)
    case None =>
      FilterKeepsAll(cs, p);
    case Some(i) =>
      var pre, post := cs[..i], cs[i + 1..];
      assert cs == pre + [cs[i]] + post;
      assert forall j :: 0 <= j < |pre| ==> p(pre[j]);
      assert forall j :: 0 <= j < |post| ==> post[j] == cs[i + 1 + j];
      assert forall j :: 0 <= j < |post| ==> p(post[j]);
      FilterDropsOne(pre, cs[i], post, p);
  }

  /** Ids come from the clock, so two comments posted in the same
      millisecond share one; then a delete removes both on the page and
      only the first on the server. */
  lemma DuplicateIdsDisagree(now: nat, stampA: nat, stampB: nat, a: Comment, b: Comment)
    requires a == NewComment(now, stampA, "ann", "first") && b == NewComment(now, stampB, "bob", "second")
    ensures a.commentId == b.commentId
    ensures LocalDelete([a, b], a.commentId) == []
    ensures RemoveFirst([a, b], a.commentId) == [b]
  {
    var cs := [a, b];
    assert FindComment(cs, a.commentId) == Some(0);
    assert cs[..0] + cs[1..] == [b];
    assert cs[1..] == [b] && [b][1..] == [];
  }

  /** `username && username === comment.userId`. */
  predicate ShowsControls(username: Option<string>, c: Comment) {
    Truthy(username) && username.value == c.userId
  }

  /** The author of a comment sent from this page sees the controls on the
      comment the server stores for it, and nobody else does. */
  lemma AuthorSeesControls(newComment: string, videoId: Option<string>, username: Option<string>,
                           now: nat, stamp: nat, other: Option<string>)
    requires AddComment(newComment, videoId, username).Send?
    ensures var c := NewComment(now, stamp, username.value, newComment);
      ShowsControls(username, c) && (ShowsControls(other, c) ==> other == username)
  {
  }
}
