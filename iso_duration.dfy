/** The regular expressions the two video pages match durations with: the
    `PTnHnMnS` time part of an ISO 8601 duration (section 4.4.3.2 of
    ISO 8601:2004), unanchored, each of the three groups optional. The
    Homepage's groups capture the digits, the VideoPlayer's the digits with
    their unit letter; both match the same text, modelled once here. The
    match starts at the leftmost "PT"; each group then takes the whole run
    of digits at the current position when that run is followed by its
    unit letter. Backtracking never changes this: a shorter run is followed
    by a digit, not a unit letter, and nothing after the groups can fail. */
module IsoDuration {
  import opened Js

  /** The length of the run of digits starting at `k`. */
  function DigitRun(s: string, k: nat): (n: nat)
    requires k <= |s|
    decreases |s| - k
    ensures k + n <= |s|
    ensures forall i :: k <= i < k + n ==> IsDigit(s[i])
    ensures k + n == |s| || !IsDigit(s[k + n])
  {
    if k < |s| && IsDigit(s[k]) then 1 + DigitRun(s, k + 1) else 0
  }

  /** `(?:(\d+)U)?` at position `k`: the digits, when a non-empty run is
      followed by the unit letter `u`. */
  function Group(s: string, k: nat, u: char): (r: Option<string>)
    requires k <= |s|
    ensures r.Some? ==> r.value != [] && AllDigits(r.value) && k + |r.value| < |s|
    ensures r.Some? ==> s[k..k + |r.value|] == r.value && s[k + |r.value|] == u
  {
    var n := DigitRun(s, k);
    if n > 0 && k + n < |s| && s[k + n] == u then Some(s[k..k + n]) else None
  }

  /** The position after an optional group. */
  function After(k: nat, g: Option<string>): nat {
    if g.Some? then k + |g.value| + 1 else k
  }

  /** The three capture groups; `None` where a group did not take part. */
  datatype Captures = Captures(hours: Option<string>, minutes: Option<string>, seconds: Option<string>)

  /** Every capture that took part is a non-empty digit string. */
  predicate WellFormed(c: Captures) {
    (c.hours.Some? ==> c.hours.value != [] && AllDigits(c.hours.value))
    && (c.minutes.Some? ==> c.minutes.value != [] && AllDigits(c.minutes.value))
    && (c.seconds.Some? ==> c.seconds.value != [] && AllDigits(c.seconds.value))
  }

  /** `s.match(...)`: no match exactly when "PT" does not occur. */
  function Match(s: string): (r: Option<Captures>)
    ensures r.None? <==> !Includes(s, "PT")
    ensures r.Some? ==> WellFormed(r.value)
  {
    match IndexOf(s, "PT")
    case None => None
    case Some(p) =>
      var h := Group(s, p + 2, 'H');
      var k1 := After(p + 2, h);
      var m := Group(s, k1, 'M');
      var k2 := After(k1, m);
      Some(Captures(h, m, Group(s, k2, 'S')))
  }

  /** A group written out: the digits and the unit letter, or nothing. */
  function Part(g: Option<string>, u: char): string {
    if g.Some? then g.value + [u] else ""
  }

  /** The duration string whose captures are `c`. */
  function Render(c: Captures): string {
    "PT" + Part(c.hours, 'H') + Part(c.minutes, 'M') + Part(c.seconds, 'S')
  }

  /** A run of exactly `|d|` digits followed by the letter `v` decides the
      group for unit `u`. */
  lemma {:induction false} RunThen(s: string, k: nat, d: string, v: char, u: char)
    requires k + |d| < |s| && s[k..k + |d|] == d && s[k + |d|] == v
    requires d != [] && AllDigits(d) && !IsDigit(v)
    ensures Group(s, k, u) == if v == u then Some(d) else None
  {
    assert forall i :: k <= i < k + |d| ==> s[i] == d[i - k];
    RunLength(s, k, |d|);
  }

  lemma {:induction false} RunLength(s: string, k: nat, n: nat)
    requires k + n <= |s|
    requires forall i :: k <= i < k + n ==> IsDigit(s[i])
    requires k + n == |s| || !IsDigit(s[k + n])
    ensures DigitRun(s, k) == n
    decreases n
  {
    if n > 0 {
      RunLength(s, k + 1, n - 1);
    }
  }

  /** A position at the end or at a non-digit holds no group. */
  lemma NoRun(s: string, k: nat, u: char)
    requires k == |s| || (k < |s| && !IsDigit(s[k]))
    ensures Group(s, k, u).None?
  {
  }

  /** A part that is present, written at `k`, is the group for its own
      unit and for no other. */
  lemma {:induction false} GroupAtParts(s: string, k: nat, g: Option<string>, v: char,
                                        rest: string, u: char)
    requires k <= |s| && s[k..] == Part(g, v) + rest
    requires g.Some? && g.value != [] && AllDigits(g.value)
    requires !IsDigit(v)
    ensures Group(s, k, u) == if v == u then g else None
  {
    var d := g.value;
    assert s[k..][..|d|] == d && s[k..][|d|] == v;
    assert s[k..k + |d|] == d;
    RunThen(s, k, d, v, u);
  }

  /** Matching a rendered duration gives its captures back. */
  lemma {:induction false} MatchRender(c: Captures)
    requires WellFormed(c)
    ensures Match(Render(c)) == Some(c)
  {
    var s := Render(c);
    var ph, pm, ps := Part(c.hours, 'H'), Part(c.minutes, 'M'), Part(c.seconds, 'S');
    RenderShape(c);
    StartsAtFront(s, ph + (pm + ps));
    HoursGroup(s, c);
    var k1 := After(2, c.hours);
    AfterPart(2, c.hours, 'H');
    Skip(s, 2, ph, pm + ps);
    MinutesGroup(s, k1, c);
    var k2 := After(k1, c.minutes);
    AfterPart(k1, c.minutes, 'M');
    Skip(s, k1, pm, ps);
    SecondsGroup(s, k2, c.seconds);
  }

  lemma RenderShape(c: Captures)
    ensures Render(c) == "PT" + (Part(c.hours, 'H') + (Part(c.minutes, 'M') + Part(c.seconds, 'S')))
  {
  }

  lemma AfterPart(k: nat, g: Option<string>, u: char)
    ensures After(k, g) == k + |Part(g, u)|
  {
  }

  /** The rendered string starts with "PT", which is therefore its leftmost
      occurrence, and continues with the parts. */
  lemma StartsAtFront(s: string, t: string)
    requires s == "PT" + t
    ensures IndexOf(s, "PT") == Some(0) && s[2..] == t
  {
    assert s[0..2] == "PT";
  }

  /** Skipping a part of the remainder leaves the rest. */
  lemma Skip(s: string, k: nat, part: string, rest: string)
    requires k <= |s| && s[k..] == part + rest
    ensures k + |part| <= |s| && s[k + |part|..] == rest
  {
    assert s[k + |part|..] == s[k..][|part|..];
  }

  lemma HoursGroup(s: string, c: Captures)
    requires WellFormed(c) && 2 <= |s|
    requires s[2..] == Part(c.hours, 'H') + (Part(c.minutes, 'M') + Part(c.seconds, 'S'))
    ensures Group(s, 2, 'H') == c.hours
  {
    if c.hours.Some? {
      GroupAtParts(s, 2, c.hours, 'H', Part(c.minutes, 'M') + Part(c.seconds, 'S'), 'H');
    } else {
      assert s[2..] == Part(c.minutes, 'M') + Part(c.seconds, 'S');
      if c.minutes.Some? {
        GroupAtParts(s, 2, c.minutes, 'M', Part(c.seconds, 'S'), 'H');
      } else if c.seconds.Some? {
        GroupAtParts(s, 2, c.seconds, 'S', "", 'H');
      } else {
        NoRun(s, 2, 'H');
      }
    }
  }

  lemma MinutesGroup(s: string, k: nat, c: Captures)
    requires WellFormed(c) && k <= |s|
    requires s[k..] == Part(c.minutes, 'M') + Part(c.seconds, 'S')
    ensures Group(s, k, 'M') == c.minutes
  {
    if c.minutes.Some? {
      GroupAtParts(s, k, c.minutes, 'M', Part(c.seconds, 'S'), 'M');
    } else {
      assert s[k..] == Part(c.seconds, 'S');
      if c.seconds.Some? {
        GroupAtParts(s, k, c.seconds, 'S', "", 'M');
      } else {
        NoRun(s, k, 'M');
      }
    }
  }

  lemma SecondsGroup(s: string, k: nat, g: Option<string>)
    requires g.Some? ==> g.value != [] && AllDigits(g.value)
    requires k <= |s| && s[k..] == Part(g, 'S')
    ensures Group(s, k, 'S') == g
  {
    if g.Some? {
      GroupAtParts(s, k, g, 'S', "", 'S');
    } else {
      NoRun(s, k, 'S');
    }
  }
}
