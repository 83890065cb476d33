/** The pure helpers of front/src/pages/Homepage.jsx: the duration badge,
    the category and title filter of the video grid, and the avatar
    letter. */
module Homepage {
  import opened Js
  import opened Seqs
  import opened IsoDuration

  /** What the pages read of a video listed by GET /api/videos. The Video
      schema declares no `category` path, but a stored document may still
      carry one, and the listing then sends it; the filter reads it. */
  datatype VideoCard = VideoCard(videoId: string, title: Option<string>, category: Option<string>)

  /** `h:mm:ss` when there are hours, `m:ss` otherwise; the parts after the
      first are zero-padded to two digits. */
  function Clock(h: nat, m: nat, s: nat): string {
    if h > 0 then Decimal(h) + ":" + PadStart2(Decimal(m)) + ":" + PadStart2(Decimal(s))
    else Decimal(m) + ":" + PadStart2(Decimal(s))
  }

  /** `parseInt(capture, 10)` for a capture that took part, 0 for one that
      did not. */
  function Count(g: Option<string>): nat
    requires g.Some? ==> AllDigits(g.value)
  {
    if g.Some? then ParseDigits(g.value) else 0
  }

  /** `formatDuration`: "0:00" when there is no "PT", otherwise the clock
      of the parsed groups, a missing group counting as 0. */
  function FormatDuration(iso: string): (r: string)
    ensures !Includes(iso, "PT") ==> r == "0:00"
    ensures Includes(iso, "PT") ==>
      var c := Match(iso).value;
      r == Clock(Count(c.hours), Count(c.minutes), Count(c.seconds))
  {
    match Match(iso)
    case None => Clock(0, 0, 0)
    case Some(c) => Clock(Count(c.hours), Count(c.minutes), Count(c.seconds))
  }

  /** The badge of a rendered duration shows exactly its numbers, with 0 for
      each part left out. */
  lemma FormatRendered(h: Option<nat>, m: Option<nat>, s: Option<nat>)
    ensures FormatDuration(Render(Captures(Numeral(h), Numeral(m), Numeral(s))))
         == Clock(OrZero(h), OrZero(m), OrZero(s))
  {
    var c := Captures(Numeral(h), Numeral(m), Numeral(s));
    MatchRender(c);
    assert Includes(Render(c), "PT");
    if h.Some? { ParseDecimal(h.value); }
    if m.Some? { ParseDecimal(m.value); }
    if s.Some? { ParseDecimal(s.value); }
  }

  function Numeral(n: Option<nat>): Option<string> {
    if n.Some? then Some(Decimal(n.value)) else None
  }

  function OrZero(n: Option<nat>): nat {
    if n.Some? then n.value else 0
  }

  /** The pieces of `s` between colons (`s.split(":")`). */
  function SplitColons(s: string): (r: seq<string>)
    ensures |r| >= 1
  {
    if s == [] then [""]
    else if s[0] == ':' then [""] + SplitColons(s[1..])
    else var rest := SplitColons(s[1..]); [[s[0]] + rest[0]] + rest[1..]
  }

  lemma {:induction false} SplitNoColon(a: string)
    requires AllDigits(a)
    ensures SplitColons(a) == [a]
  {
    if a != [] {
      SplitNoColon(a[1..]);
      assert a == [a[0]] + a[1..];
    }
  }

  lemma {:induction false} SplitAtColon(a: string, b: string)
    requires AllDigits(a)
    ensures SplitColons(a + ":" + b) == [a] + SplitColons(b)
  {
    if a == [] {
      assert a + ":" + b == [':'] + b;
      assert ([':'] + b)[1..] == b;
    } else {
      assert (a + ":" + b)[0] == a[0];
      assert (a + ":" + b)[1..] == a[1..] + ":" + b;
      SplitAtColon(a[1..], b);
      assert a == [a[0]] + a[1..];
    }
  }

  /** Reads a clock display back into hours, minutes and seconds. */
  function ReadClock(r: string): Option<(nat, nat, nat)> {
    var p := SplitColons(r);
    if |p| == 3 && AllDigits(p[0]) && AllDigits(p[1]) && AllDigits(p[2]) then
      Some((ParseDigits(p[0]), ParseDigits(p[1]), ParseDigits(p[2])))
    else if |p| == 2 && AllDigits(p[0]) && AllDigits(p[1]) then
      Some((0, ParseDigits(p[0]), ParseDigits(p[1])))
    else None
  }

  /** Zero-padding keeps a numeral's value. */
  lemma PadKeepsValue(n: nat)
    ensures AllDigits(PadStart2(Decimal(n)))
    ensures ParseDigits(PadStart2(Decimal(n))) == n
  {
    ParseDecimal(n);
    var d := Decimal(n);
    if |d| == 1 {
      var p := PadStart2(d);
      assert p == "0" + d && p[..1] == "0";
    }
  }

  /** The clock display is unambiguous: its hours, minutes and seconds can be
      read back from it, whatever their size. */
  lemma ClockRoundTrip(h: nat, m: nat, s: nat)
    ensures ReadClock(Clock(h, m, s)) == Some((h, m, s))
  {
    if h > 0 {
      ReadLongClock(h, m, s);
    } else {
      ReadShortClock(h, m, s);
    }
  }

  lemma ReadLongClock(h: nat, m: nat, s: nat)
    requires h > 0
    ensures ReadClock(Clock(h, m, s)) == Some((h, m, s))
  {
    var dh, pm, ps := Decimal(h), PadStart2(Decimal(m)), PadStart2(Decimal(s));
    var tail := pm + ":" + ps;
    assert Clock(h, m, s) == dh + ":" + tail;
    PadKeepsValue(m);
    PadKeepsValue(s);
    ParseDecimal(h);
    SplitNoColon(ps);
    SplitAtColon(pm, ps);
    SplitAtColon(dh, tail);
    var p := SplitColons(Clock(h, m, s));
    assert p == [dh, pm, ps];
    assert AllDigits(p[0]) && AllDigits(p[1]) && AllDigits(p[2]);
  }

  lemma ReadShortClock(h: nat, m: nat, s: nat)
    requires h == 0
    ensures ReadClock(Clock(h, m, s)) == Some((h, m, s))
  {
    var dm, ps := Decimal(m), PadStart2(Decimal(s));
    PadKeepsValue(s);
    ParseDecimal(m);
    SplitNoColon(ps);
    SplitAtColon(dm, ps);
    assert SplitColons(Clock(h, m, s)) == [dm, ps];
  }

  /** The category half of the grid filter: "All" admits everything,
      otherwise the trimmed category must equal the trimmed selection. */
  predicate InCategory(v: VideoCard, selected: string) {
    selected == "All" || (v.category.Some? && Trim(v.category.value) == Trim(selected))
  }

  /** The title half: a title must be present and contain the search term,
      both lower-cased. */
  predicate TitleMatches(v: VideoCard, term: string) {
    v.title.Some? && Includes(Lower(v.title.value), Lower(term))
  }

  predicate Shown(v: VideoCard, selected: string, term: string) {
    InCategory(v, selected) && TitleMatches(v, term)
  }

  /** The video grid, in the order the server listed the videos. */
  function Grid(videos: seq<VideoCard>, selected: string, term: string): (r: seq<VideoCard>)
    ensures |r| <= |videos|
    ensures forall i :: 0 <= i < |r| ==> Shown(r[i], selected, term)
  {
    Filter(videos, (v: VideoCard) => Shown(v, selected, term))
  }

  /** A video is in the grid exactly when it was listed and passes both
      tests. */
  lemma GridExactly(videos: seq<VideoCard>, selected: string, term: string, v: VideoCard)
    ensures v in Grid(videos, selected, term) <==> v in videos && Shown(v, selected, term)
  {
    FilterMembership(videos, (v: VideoCard) => Shown(v, selected, term), v);
  }

  /** The empty term matches every title: with "All" selected and no search,
      the grid holds every listed video that has a title. */
  lemma EveryTitleMatchesEmptyTerm(v: VideoCard)
    ensures Shown(v, "All", "") <==> v.title.Some?
  {
    if v.title.Some? {
      assert OccursAt(Lower(v.title.value), Lower(""), 0);
    }
  }

  /** If no listed video carries a category (none is declared by the Video
      schema), any selection other than "All" empties the grid. */
  lemma {:induction false} NoCategoryHidesAll(videos: seq<VideoCard>, selected: string, term: string)
    requires selected != "All"
    requires forall i :: 0 <= i < |videos| ==> videos[i].category.None?
    ensures Grid(videos, selected, term) == []
  {
    var p := (v: VideoCard) => Shown(v, selected, term);
    FilterKeepsAll(videos, (v: VideoCard) => !p(v));
    if Grid(videos, selected, term) != [] {
      var v := Grid(videos, selected, term)[0];
      FilterMembership(videos, p, v);
    }
  }

  /** `firstLetter`: "U" for no user, otherwise the upper-cased first
      character of the trimmed name, which is "" when the name is all
      whitespace. */
  function FirstLetter(username: Option<string>): (r: string)
    ensures |r| <= 1
    ensures !Truthy(username) ==> r == "U"
    ensures Truthy(username) ==> (r == "" <==> forall i :: 0 <= i < |username.value| ==> IsSpace(username.value[i]))
    ensures Truthy(username) && r != "" ==> r == [UpperChar(TrimStart(username.value)[0])]
  {
    if !Truthy(username) then "U"
    else
      var t := Trim(username.value);
      TrimParts(username.value);
      if t == "" then "" else [UpperChar(t[0])]
  }
}
