/** The pure helpers of front/src/pages/VideoPlayer.jsx: its own duration
    formatter, the search over related videos with its eight-item cap, and
    the avatar letter; with how each compares to its Homepage counterpart. */
module VideoPlayer {
  import opened Js
  import opened Seqs
  import opened IsoDuration
  import Homepage

  /** A group's digits as captured (the unit letter removed), "0" for a
      group that did not take part. */
  function Raw(g: Option<string>): string {
    if g.Some? then g.value else "0"
  }

  /** `formatDuration`: the captures are used as strings, not numbers; the
      hours part is shown unless it is literally "0". Without a match the
      page reads a property of `null` and throws, which is `None` here. */
  function FormatDuration(iso: string): (r: Option<string>)
    ensures r.None? <==> !Includes(iso, "PT")
    ensures r.Some? ==>
      var c := Match(iso).value;
      (Raw(c.hours) != "0" ==> r.value == Raw(c.hours) + ":" + PadStart2(Raw(c.minutes)) + ":" + PadStart2(Raw(c.seconds)))
      && (Raw(c.hours) == "0" ==> r.value == Raw(c.minutes) + ":" + PadStart2(Raw(c.seconds)))
  {
    match Match(iso)
    case None => None
    case Some(c) =>
      var h, m, s := Raw(c.hours), Raw(c.minutes), Raw(c.seconds);
      if h != "0" then Some(h + ":" + PadStart2(m) + ":" + PadStart2(s))
      else Some(m + ":" + PadStart2(s))
  }

  /** Each capture that took part is written without a redundant leading
      zero. */
  predicate CanonicalCaptures(c: Captures) {
    (c.hours.Some? ==> Canonical(c.hours.value))
    && (c.minutes.Some? ==> Canonical(c.minutes.value))
    && (c.seconds.Some? ==> Canonical(c.seconds.value))
  }

  /** Where the durations are written canonically, the two pages show the
      same text. */
  lemma FormattersAgree(iso: string)
    requires Match(iso).Some? && CanonicalCaptures(Match(iso).value)
    ensures FormatDuration(iso) == Some(Homepage.FormatDuration(iso))
  {
    var c := Match(iso).value;
    CanonicalReads(c.hours);
    CanonicalReads(c.minutes);
    CanonicalReads(c.seconds);
  }

  /** A canonical capture is the decimal numeral of the number parsed from
      it, and it is "0" exactly when that number is 0. */
  lemma CanonicalReads(g: Option<string>)
    requires g.Some? ==> Canonical(g.value)
    ensures Decimal(Homepage.Count(g)) == Raw(g)
    ensures Raw(g) == "0" <==> Homepage.Count(g) == 0
  {
    if g.Some? {
      DecimalOfCanonical(g.value);
    }
  }

  /** A zero hours part written "00" is shown by this page and hidden by the
      Homepage. */
  lemma ZeroPaddedHoursDiffer()
    ensures FormatDuration("PT00H5M3S") == Some("00:05:03")
    ensures Homepage.FormatDuration("PT00H5M3S") == "5:03"
  {
    PlayerShows000503();
    HomepageShows503();
  }

  lemma PlayerShows000503()
    ensures FormatDuration("PT00H5M3S") == Some("00:05:03")
  {
    var c := Captures(Some("00"), Some("5"), Some("3"));
    MatchPT00H5M3S();
    PlayerShowsHours(c);
    Text000503();
  }

  lemma Text000503()
    ensures "00" + ":" + PadStart2(Raw(Some("5"))) + ":" + PadStart2(Raw(Some("3"))) == "00:05:03"
  {
    assert PadStart2("5") == "05" && PadStart2("3") == "03";
  }

  lemma PlayerShowsHours(c: Captures)
    requires WellFormed(c) && c.hours.Some? && c.hours.value != "0"
    ensures FormatDuration(Render(c))
         == Some(c.hours.value + ":" + PadStart2(Raw(c.minutes)) + ":" + PadStart2(Raw(c.seconds)))
  {
    MatchRender(c);
    assert Includes(Render(c), "PT");
  }

  lemma HomepageShows503()
    ensures Homepage.FormatDuration("PT00H5M3S") == "5:03"
  {
    var c := Captures(Some("00"), Some("5"), Some("3"));
    MatchPT00H5M3S();
    HomepageShowsCounts(c);
    CountsOf00H5M3S();
    ClockOf503();
  }

  lemma CountsOf00H5M3S()
    ensures Homepage.Count(Some("00")) == 0
    ensures Homepage.Count(Some("5")) == 5 && Homepage.Count(Some("3")) == 3
  {
    assert "0"[..0] == "" && ParseDigits("0") == 0;
    assert "00"[..1] == "0";
  }

  lemma ClockOf503()
    ensures Homepage.Clock(0, 5, 3) == "5:03"
  {
    assert Decimal(5) == "5" && Decimal(3) == "3";
  }

  lemma HomepageShowsCounts(c: Captures)
    requires WellFormed(c)
    ensures Homepage.FormatDuration(Render(c))
         == Homepage.Clock(Homepage.Count(c.hours), Homepage.Count(c.minutes), Homepage.Count(c.seconds))
  {
    MatchRender(c);
    assert Includes(Render(c), "PT");
  }

  lemma MatchPT00H5M3S()
    ensures Render(Captures(Some("00"), Some("5"), Some("3"))) == "PT00H5M3S"
    ensures Match("PT00H5M3S") == Some(Captures(Some("00"), Some("5"), Some("3")))
    ensures Includes("PT00H5M3S", "PT")
    ensures WellFormed(Captures(Some("00"), Some("5"), Some("3")))
  {
    var c := Captures(Some("00"), Some("5"), Some("3"));
    assert Part(c.hours, 'H') == "00H" && Part(c.minutes, 'M') == "5M" && Part(c.seconds, 'S') == "3S";
    assert Render(c) == "PT00H5M3S";
    MatchRender(c);
  }

  /** The related-video test: a title must be present and non-empty, and
      contain the search term, both lower-cased. */
  predicate TitleHit(v: Homepage.VideoCard, term: string) {
    Truthy(v.title) && Includes(Lower(v.title.value), Lower(term))
  }

  /** The filtered list: all videos for a blank term, otherwise those whose
      title matches, in their original order. */
  function Related(videos: seq<Homepage.VideoCard>, term: string): (r: seq<Homepage.VideoCard>)
    ensures Trim(term) == "" ==> r == videos
    ensures Trim(term) != "" ==> forall i :: 0 <= i < |r| ==> TitleHit(r[i], term)
    ensures |r| <= |videos|
  {
    if Trim(term) == "" then videos
    else Filter(videos, (v: Homepage.VideoCard) => TitleHit(v, term))
  }

  /** For a term that is not blank a video is related exactly when it was
      listed and its title matches. */
  lemma RelatedExactly(videos: seq<Homepage.VideoCard>, term: string, v: Homepage.VideoCard)
    requires Trim(term) != ""
    ensures v in Related(videos, term) <==> v in videos && TitleHit(v, term)
  {
    FilterMembership(videos, (v: Homepage.VideoCard) => TitleHit(v, term), v);
  }

  /** The sidebar: at most eight related videos, from the front. */
  function Sidebar(videos: seq<Homepage.VideoCard>, term: string): (r: seq<Homepage.VideoCard>)
    ensures |r| == if |Related(videos, term)| < 8 then |Related(videos, term)| else 8
    ensures |Related(videos, term)| <= 8 ==> r == Related(videos, term)
    ensures forall i :: 0 <= i < |r| ==> r[i] == Related(videos, term)[i]
  {
    Take(Related(videos, term), 8)
  }

  /** No non-empty term occurs in an empty title. */
  lemma EmptyTitleMissesTerm(t: string)
    requires t != ""
    ensures !Includes("", t)
  {
  }

  /** For a search term that is not blank, the related list is the Homepage
      grid under "All": the empty title the Homepage admits cannot contain
      a non-empty term. */
  lemma {:induction false} RelatedIsGrid(videos: seq<Homepage.VideoCard>, term: string)
    requires Trim(term) != ""
    ensures Related(videos, term) == Homepage.Grid(videos, "All", term)
  {
    assert term != "" && Lower(term) != "";
    forall i | 0 <= i < |videos|
      ensures TitleHit(videos[i], term) == Homepage.Shown(videos[i], "All", term)
    {
      if videos[i].title == Some("") {
        EmptyTitleMissesTerm(Lower(term));
      }
    }
    FilterEquiv(videos, (v: Homepage.VideoCard) => TitleHit(v, term),
                (v: Homepage.VideoCard) => Homepage.Shown(v, "All", term));
  }

  /** `firstLetter`: "U" for no user, otherwise the upper-cased first
      character of the name as it is, without trimming. */
  function FirstLetter(username: Option<string>): (r: string)
    ensures |r| <= 1
    ensures !Truthy(username) ==> r == "U"
    ensures Truthy(username) ==> r == [UpperChar(username.value[0])]
  {
    if !Truthy(username) then "U" else [UpperChar(username.value[0])]
  }

  /** The two pages compute the same letter unless the name starts with
      whitespace. */
  lemma FirstLettersAgree(username: Option<string>)
    requires Truthy(username) ==> !IsSpace(username.value[0])
    ensures FirstLetter(username) == Homepage.FirstLetter(username)
  {
  }

  /** For a name with a leading space this page computes that space and the
      Homepage its first letter. */
  lemma LeadingSpaceDiffers()
    ensures FirstLetter(Some(" ann")) == " "
    ensures Homepage.FirstLetter(Some(" ann")) == "A"
  {
    var u := " ann";
    assert u[0] == ' ' && IsSpace(u[0]) && !IsSpace(u[1]);
    assert u[1..] == "ann";
    assert TrimStart("ann") == "ann";
    assert TrimStart(u) == "ann";
  }
}
