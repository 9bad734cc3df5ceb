/**
 * The YouTube audio controller: the video id taken from a link, the `m:ss`
 * time display, and the play/pause decisions exchanged with the player.
 */
module AudioController {
  import opened Wrappers
  import opened Text

  // ---- getVideoId ----

  /**
   * The three alternatives of the id pattern, in pattern order:
   * `(?:youtube\.com\/watch\?v=|youtu\.be\/|music\.youtube\.com\/watch\?v=)`.
   */
  const Prefixes: seq<string> := ["youtube.com/watch?v=", "youtu.be/", "music.youtube.com/watch?v="]

  /** A character of the class `[^&\n?#]`. */
  predicate IsIdChar(c: char) {
    c != '&' && c != '\n' && c != '?' && c != '#'
  }

  predicate StartsWith(s: string, p: string) {
    |p| <= |s| && s[..|p|] == p
  }

  /** The whole pattern matches at position `i` using alternative `p`. */
  predicate MatchesAt(url: string, i: nat, p: string) {
    i <= |url| && StartsWith(url[i..], p) && i + |p| < |url| && IsIdChar(url[i + |p|])
  }

  predicate NoMatchFrom(url: string, i: nat) {
    forall j: nat, p :: i <= j <= |url| && p in Prefixes ==> !MatchesAt(url, j, p)
  }

  /** The greedy `[^&\n?#]+` run: the longest prefix of id characters. */
  function IdRun(s: string): (r: string)
    ensures |r| <= |s| && r == s[..|r|]
    ensures forall k :: 0 <= k < |r| ==> IsIdChar(r[k])
    ensures |r| < |s| ==> !IsIdChar(s[|r|])
  {
    if s == [] || !IsIdChar(s[0]) then [] else [s[0]] + IdRun(s[1..])
  }

  /** The first alternative, in pattern order, that completes a match at `i`. */
  function AlternativeAt(url: string, i: nat): (r: Option<string>)
    ensures r.None? <==> forall p :: p in Prefixes ==> !MatchesAt(url, i, p)
    ensures r.Some? ==> r.value in Prefixes && MatchesAt(url, i, r.value)
  {
    if MatchesAt(url, i, Prefixes[0]) then Some(Prefixes[0])
    else if MatchesAt(url, i, Prefixes[1]) then Some(Prefixes[1])
    else if MatchesAt(url, i, Prefixes[2]) then Some(Prefixes[2])
    else None
  }

  /** Where the pattern matched, and with which alternative. */
  datatype Match = Match(pos: nat, prefix: string)

  /** The leftmost match position at or after `i`, with the alternative used there. */
  function LeftmostMatch(url: string, i: nat): (r: Option<Match>)
    ensures r.None? <==> NoMatchFrom(url, i)
    ensures r.Some? ==> var j, p := r.value.pos, r.value.prefix;
      i <= j && p in Prefixes && MatchesAt(url, j, p) &&
      forall j': nat, p' :: i <= j' < j && p' in Prefixes ==> !MatchesAt(url, j', p')
    decreases |url| - i
  {
    if i > |url| then None
    else match AlternativeAt(url, i)
      case Some(p) => Some(Match(i, p))
      case None => LeftmostMatch(url, i + 1)
  }

  /**
   * The capture group of a match: the longest run of id characters right
   * after the matched prefix, never empty since the pattern's `+` needs one.
   */
  function IdAfter(url: string, m: Match): (id: string)
    requires MatchesAt(url, m.pos, m.prefix)
    ensures var a := m.pos + |m.prefix|;
      id != [] && a + |id| <= |url| && url[a..a + |id|] == id
      && (forall k :: 0 <= k < |id| ==> IsIdChar(id[k]))
      && (a + |id| == |url| || !IsIdChar(url[a + |id|]))
  {
    var a := m.pos + |m.prefix|;
    IdAfterMatchNonEmpty(url, m.pos, m.prefix);
    IdRunIsMaximal(url, a);
    IdRun(url[a..])
  }

  lemma IdAfterIsRun(url: string, m: Match)
    requires MatchesAt(url, m.pos, m.prefix)
    ensures IdAfter(url, m) == IdRun(url[m.pos + |m.prefix|..])
  {
  }

  /** `url.match(regex)?.[1] ?? null`: the capture group of the leftmost match, if any. */
  function GetVideoId(url: string): (r: Option<string>)
    ensures r.None? <==> NoMatchFrom(url, 0)
    ensures r.Some? ==> LeftmostMatch(url, 0).Some? && r.value == IdAfter(url, LeftmostMatch(url, 0).value)
  {
    match LeftmostMatch(url, 0)
    case None => None
    case Some(m) => Some(IdAfter(url, m))
  }

  /** A match ends on an id character, so the captured id is never empty. */
  lemma IdAfterMatchNonEmpty(url: string, j: nat, p: string)
    requires MatchesAt(url, j, p)
    ensures IdRun(url[j + |p|..]) != []
  {
    assert url[j + |p|..][0] == url[j + |p|];
  }

  /** At one position at most one alternative can start, so pattern order never matters. */
  lemma AtMostOneAlternative(url: string, i: nat, p: string, q: string)
    requires p in Prefixes && q in Prefixes
    requires MatchesAt(url, i, p) && MatchesAt(url, i, q)
    ensures p == q
  {
    var s := url[i..];
    assert s[..|p|] == p && s[..|q|] == q;
    assert p[0] == s[0] == q[0] && p[5] == s[5] == q[5];
  }

  /** Every alternative begins with 'y' or 'm', so a match can only start at one of those. */
  lemma MatchStartsWithYOrM(url: string, j: nat, p: string)
    requires p in Prefixes && MatchesAt(url, j, p)
    ensures j < |url| && (url[j] == 'y' || url[j] == 'm')
  {
    assert url[j..][..|p|] == p;
    assert url[j] == p[0];
  }

  /** The scan passes over a stretch that holds no 'y' and no 'm'. */
  lemma {:induction false} SkipToMatch(url: string, i: nat, j: nat)
    requires i <= j <= |url| + 1
    requires forall k :: i <= k < j && k < |url| ==> url[k] != 'y' && url[k] != 'm'
    ensures LeftmostMatch(url, i) == LeftmostMatch(url, j)
    decreases j - i
  {
    if i < j {
      forall p | p in Prefixes ensures !MatchesAt(url, i, p) {
        if MatchesAt(url, i, p) {
          MatchStartsWithYOrM(url, i, p);
        }
      }
      SkipToMatch(url, i + 1, j);
    }
  }

  /** The run taken from offset `a` is the longest stretch of id characters there. */
  lemma IdRunIsMaximal(url: string, a: nat)
    requires a <= |url|
    ensures var id := IdRun(url[a..]);
      a + |id| <= |url| && url[a..a + |id|] == id && (a + |id| == |url| || !IsIdChar(url[a + |id|]))
  {
    var id := IdRun(url[a..]);
    assert url[a..a + |id|] == url[a..][..|id|];
    if a + |id| < |url| {
      assert url[a + |id|] == url[a..][|id|];
    }
  }

  /** The first 'y' or 'm' that starts a match decides the id. */
  lemma IdAtFirstMatch(url: string, j: nat, p: string)
    requires j <= |url| && AlternativeAt(url, j) == Some(p)
    requires forall k :: 0 <= k < j ==> url[k] != 'y' && url[k] != 'm'
    ensures MatchesAt(url, j, p) && GetVideoId(url) == Some(IdAfter(url, Match(j, p)))
  {
    assert LeftmostMatch(url, j) == Some(Match(j, p));
    SkipToMatch(url, 0, j);
    assert LeftmostMatch(url, 0) == Some(Match(j, p));
  }

  lemma {:induction false} IdRunOfDelimited(id: string, rest: string)
    requires forall k :: 0 <= k < |id| ==> IsIdChar(id[k])
    requires rest == [] || !IsIdChar(rest[0])
    ensures IdRun(id + rest) == id
  {
    if id != [] {
      assert (id + rest)[1..] == id[1..] + rest;
      IdRunOfDelimited(id[1..], rest);
    }
  }

  /** In such a link the pattern matches right after the lead, with the prefix written there. */
  lemma LinkMatchesAfterLead(lead: string, p: string, idAndRest: string)
    requires p in Prefixes && idAndRest != [] && IsIdChar(idAndRest[0])
    ensures AlternativeAt(lead + p + idAndRest, |lead|) == Some(p)
  {
    var url := lead + p + idAndRest;
    var j := |lead|;
    assert url[j..] == p + idAndRest;
    assert url[j..][..|p|] == p;
    assert url[j + |p|] == idAndRest[0];
    assert MatchesAt(url, j, p);
    var q := AlternativeAt(url, j).value;
    AtMostOneAlternative(url, j, p, q);
  }

  /** The lead carries over its lack of 'y' and 'm' into the link. */
  lemma LeadWithoutYOrM(lead: string, p: string, idAndRest: string)
    requires forall k :: 0 <= k < |lead| ==> lead[k] != 'y' && lead[k] != 'm'
    ensures var url := lead + p + idAndRest;
      forall k :: 0 <= k < |lead| ==> url[k] != 'y' && url[k] != 'm'
  {
    var url := lead + p + idAndRest;
    assert forall k :: 0 <= k < |lead| ==> url[k] == lead[k];
  }

  /** What follows the prefix in the link is the rest of the link. */
  lemma TailAfterPrefix(lead: string, p: string, idAndRest: string)
    ensures (lead + p + idAndRest)[|lead| + |p|..] == idAndRest
  {
  }

  /** A first match at `j` whose prefix is followed by `tail` captures the run at the head of `tail`. */
  lemma IdAtMatch(url: string, j: nat, p: string, tail: string)
    requires j + |p| <= |url| && url[j + |p|..] == tail
    requires AlternativeAt(url, j) == Some(p)
    requires forall k :: 0 <= k < j ==> url[k] != 'y' && url[k] != 'm'
    ensures GetVideoId(url) == Some(IdRun(tail))
  {
    IdAtFirstMatch(url, j, p);
    IdAfterIsRun(url, Match(j, p));
  }

  /** With a lead free of 'y' and 'm', the id is the run that follows the prefix. */
  lemma IdOfLinkMatch(lead: string, p: string, idAndRest: string)
    requires forall k :: 0 <= k < |lead| ==> lead[k] != 'y' && lead[k] != 'm'
    requires AlternativeAt(lead + p + idAndRest, |lead|) == Some(p)
    ensures GetVideoId(lead + p + idAndRest) == Some(IdRun(idAndRest))
  {
    LeadWithoutYOrM(lead, p, idAndRest);
    TailAfterPrefix(lead, p, idAndRest);
    IdAtMatch(lead + p + idAndRest, |lead|, p, idAndRest);
  }

  /**
   * A link made of text without 'y' or 'm', one of the prefixes, a non-empty
   * id and then a delimiter (or nothing) yields exactly that id.
   */
  lemma IdOfLink(lead: string, p: string, id: string, rest: string)
    requires forall k :: 0 <= k < |lead| ==> lead[k] != 'y' && lead[k] != 'm'
    requires p in Prefixes
    requires id != [] && forall k :: 0 <= k < |id| ==> IsIdChar(id[k])
    requires rest == [] || !IsIdChar(rest[0])
    ensures GetVideoId(lead + p + id + rest) == Some(id)
  {
    assert lead + p + id + rest == lead + p + (id + rest);
    LinkMatchesAfterLead(lead, p, id + rest);
    IdOfLinkMatch(lead, p, id + rest);
    IdRunOfDelimited(id, rest);
  }

  lemma ShortLinkExample(url: string)
    requires url == "https://youtu.be/abc?t=1"
    ensures GetVideoId(url) == Some("abc")
  {
    assert url == "https://" + Prefixes[1] + "abc" + "?t=1";
    IdOfLink("https://", Prefixes[1], "abc", "?t=1");
  }

  /** A prefix followed directly by a delimiter is no match at that position. */
  lemma EmptyIdIsNoMatch(url: string)
    requires url == "youtu.be/?t=1"
    ensures GetVideoId(url) == None
  {
    assert url[5] != Prefixes[0][5];
    assert AlternativeAt(url, 0) == None;
    SkipToMatch(url, 1, |url| + 1);
  }

  // ---- formatTime ----

  /** `${Math.floor(s / 60)}:${Math.floor(s % 60)}` with the seconds padded to two digits. */
  function FormatTime(seconds: nat): (t: string)
    ensures |t| >= 4 && t[|t| - 3] == ':' && AllDigits(t[..|t| - 3]) && AllDigits(t[|t| - 2..])
    ensures t[..|t| - 3] == NatToString(seconds / 60)
  {
    var secs := NatToString(seconds % 60);
    var t := NatToString(seconds / 60) + ":" + PadStart2(secs);
    assert t[|t| - 2..] == PadStart2(secs);
    t
  }

  /** Reads `m:ss` back into seconds. */
  function ParseTime(t: string): Option<nat> {
    if |t| >= 4 && t[|t| - 3] == ':' && AllDigits(t[..|t| - 3]) && AllDigits(t[|t| - 2..]) then
      Some(ParseNat(t[..|t| - 3]) * 60 + ParseNat(t[|t| - 2..]))
    else None
  }

  lemma PaddedSecondsValue(x: nat)
    requires x < 60
    ensures AllDigits(PadStart2(NatToString(x))) && ParseNat(PadStart2(NatToString(x))) == x
  {
    ParseNatToString(x);
    if x < 10 {
      var d := NatToString(x);
      assert PadStart2(d) == ['0', d[0]];
      assert ParseNat(['0', d[0]]) == DigitValue(d[0]) by {
        assert ['0', d[0]][..1] == ['0'];
        assert ['0'][..0] == [];
      }
      assert ParseNat(d) == DigitValue(d[0]) by {
        assert d[..0] == [];
      }
    }
  }

  /** The minutes and the two seconds digits on either side of the colon. */
  lemma SplitAtColon(m: string, ss: string)
    requires |ss| == 2
    ensures var t := m + ":" + ss;
      |t| - 3 == |m| && t[..|t| - 3] == m && t[|t| - 3] == ':' && t[|t| - 2..] == ss
  {
  }

  lemma FormatTimeRoundTrip(seconds: nat)
    ensures ParseTime(FormatTime(seconds)) == Some(seconds)
  {
    var m := NatToString(seconds / 60);
    var ss := PadStart2(NatToString(seconds % 60));
    assert FormatTime(seconds) == m + ":" + ss;
    SplitAtColon(m, ss);
    ParseNatToString(seconds / 60);
    PaddedSecondsValue(seconds % 60);
  }

  lemma FormatTimeExamples()
    ensures FormatTime(65) == "1:05"
  {
    assert NatToString(5) == "5" && NatToString(1) == "1";
  }

  lemma FormatTimeZero()
    ensures FormatTime(0) == "0:00"
  {
    assert NatToString(0) == "0";
  }

  lemma FormatTimeHour()
    ensures FormatTime(3600) == "60:00"
  {
    assert NatToString(60) == "60" by {
      assert NatToString(6) == "6";
    }
  }

  // ---- player events ----

  /** The host's `onPlayPause` argument for a player state, or None for no call. */
  function OnStateChange(playerState: int): (r: Option<bool>)
    ensures r == Some(true) <==> playerState == 1
    ensures r == Some(false) <==> playerState == 2
    ensures r == None <==> playerState != 1 && playerState != 2
  {
    if playerState == 1 then Some(true)
    else if playerState == 2 then Some(false)
    else None
  }

  datatype PlayerCommand = NoCommand | PlayVideo | PauseVideo

  /** The play/pause button: pauses a playing video, plays a paused one, needs a player. */
  function HandlePlayPause(hasPlayer: bool, isPlaying: bool): (c: PlayerCommand)
    ensures !hasPlayer <==> c == NoCommand
    ensures hasPlayer && isPlaying ==> c == PauseVideo
    ensures hasPlayer && !isPlaying ==> c == PlayVideo
  {
    if !hasPlayer then NoCommand
    else if isPlaying then PauseVideo
    else PlayVideo
  }

  /**
   * An assumed model of the IFrame player, not code of this component: a
   * play command is answered with state 1 (playing), a pause with state 2.
   */
  function StateAfter(c: PlayerCommand): int
    requires c != NoCommand
  {
    if c == PlayVideo then 1 else 2
  }

  /**
   * Under the assumed player model above, pressing the button with a player
   * makes the player report the opposite transport state.
   */
  lemma PlayPauseFlipsTransport(isPlaying: bool)
    ensures OnStateChange(StateAfter(HandlePlayPause(true, isPlaying))) == Some(!isPlaying)
  {
  }
}
