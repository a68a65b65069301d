/** The footer of frontend/src/components/Player.jsx: nothing without a current
    song, otherwise the song, the controls' states, the elapsed and total time as
    `m:ss`, and the volume bar. */
module Player {
  import opened Wrappers
  import opened Text
  import opened Catalog
  import opened PlayerContext

  /** `formatTime`: whole minutes, a colon, and the seconds zero-padded to two digits. */
  function FormatTime(t: nat): string
  {
    NatToString(t / 60) + ":" + PadStart2(NatToString(t % 60))
  }

  /** The text ends in a colon and exactly two characters; before the colon stand the
      whole minutes, after it the seconds padded to two digits. */
  lemma FormatTimeShape(t: nat)
    ensures var s := FormatTime(t);
      && |s| >= 4 && s[|s| - 3] == ':'
      && s[..|s| - 3] == NatToString(t / 60)
      && s[|s| - 2..] == PadStart2(NatToString(t % 60))
  {
    var minutes: nat, seconds: nat := t / 60, t % 60;
    ShortRendering(seconds);
    Joined(NatToString(minutes), PadStart2(NatToString(seconds)));
  }

  /** Joining with a colon keeps both parts intact on either side of it. */
  lemma Joined(m: string, p: string)
    ensures var s := m + ":" + p;
      && |s| == |m| + 1 + |p| && s[|m|] == ':'
      && s[..|m|] == m && s[|m| + 1..] == p
  {
    var s := m + ":" + p;
    assert s[..|m|] == m;
    assert s[|m| + 1..] == p;
  }

  /** A number below 100 renders in at most two digits. */
  lemma ShortRendering(n: nat)
    requires n < 100
    ensures |NatToString(n)| <= 2
  {
    if n >= 10 {
      var q := n / 10;
      assert |NatToString(q)| == 1;
    }
  }

  /** A leading zero does not change the value of a digit. */
  lemma LeadingZero(d: string)
    requires |d| == 1 && AllDigits(d)
    ensures AllDigits("0" + d) && DecimalValue("0" + d) == DecimalValue(d)
  {
    var p := "0" + d;
    assert p[..1] == "0";
    assert "0"[..0] == [];
    assert d[..0] == [];
  }

  /** Seconds below 60 are shown in exactly two digits that read back as their value. */
  lemma TwoDigitSeconds(n: nat)
    requires n < 60
    ensures var p := PadStart2(NatToString(n));
      |p| == 2 && AllDigits(p) && DecimalValue(p) == n
  {
    ShortRendering(n);
    NatToStringReadsBack(n);
    if n < 10 { LeadingZero(NatToString(n)); }
  }

  /** The text reads back as the time it shows: the digits before the colon are the
      minutes, the two after it the seconds (below 60), and minutes times 60 plus
      seconds is the time. */
  lemma FormatTimeReadsBack(t: nat)
    ensures var s := FormatTime(t);
      && |s| >= 4
      && AllDigits(s[..|s| - 3]) && AllDigits(s[|s| - 2..])
      && DecimalValue(s[|s| - 2..]) < 60
      && DecimalValue(s[..|s| - 3]) * 60 + DecimalValue(s[|s| - 2..]) == t
  {
    var minutes: nat, seconds: nat := t / 60, t % 60;
    FormatTimeShape(t);
    TwoDigitSeconds(seconds);
    NatToStringReadsBack(minutes);
  }

  /** Different times are shown differently. */
  lemma FormatTimeInjective(a: nat, b: nat)
    requires FormatTime(a) == FormatTime(b)
    ensures a == b
  {
    SameMinutes(a, b);
    SameSeconds(a, b);
    MinutesAndSeconds(a, b);
  }

  lemma SameMinutes(a: nat, b: nat)
    requires FormatTime(a) == FormatTime(b)
    ensures a / 60 == b / 60
  {
    var ma: nat, mb: nat := a / 60, b / 60;
    SameParts(a, b);
    NatToStringInjective(ma, mb);
  }

  lemma SameSeconds(a: nat, b: nat)
    requires FormatTime(a) == FormatTime(b)
    ensures a % 60 == b % 60
  {
    var x: nat, y: nat := a % 60, b % 60;
    SameParts(a, b);
    PaddedSecondsInjective(x, y);
  }

  /** Equal texts have equal minutes and equal padded seconds. */
  lemma SameParts(a: nat, b: nat)
    requires FormatTime(a) == FormatTime(b)
    ensures NatToString(a / 60) == NatToString(b / 60)
    ensures PadStart2(NatToString(a % 60)) == PadStart2(NatToString(b % 60))
  {
    var ma: nat, sa: nat, mb: nat, sb: nat := a / 60, a % 60, b / 60, b % 60;
    ShortRendering(sa);
    ShortRendering(sb);
    SplitAtColon(NatToString(ma), PadStart2(NatToString(sa)), NatToString(mb), PadStart2(NatToString(sb)));
  }

  /** A colon followed by two characters ends the text in one way only. */
  lemma SplitAtColon(m1: string, p1: string, m2: string, p2: string)
    requires |p1| == 2 && |p2| == 2 && m1 + ":" + p1 == m2 + ":" + p2
    ensures m1 == m2 && p1 == p2
  {
    Joined(m1, p1);
    Joined(m2, p2);
  }

  lemma PaddedSecondsInjective(x: nat, y: nat)
    requires x < 60 && y < 60 && PadStart2(NatToString(x)) == PadStart2(NatToString(y))
    ensures x == y
  {
    TwoDigitSeconds(x);
    TwoDigitSeconds(y);
  }

  lemma MinutesAndSeconds(a: nat, b: nat)
    requires a / 60 == b / 60 && a % 60 == b % 60
    ensures a == b
  {
  }

  const Placeholder: string := "/placeholder.svg?height=56&width=56"

  /** What the footer shows. */
  datatype Footer = Footer(
    artwork: string, title: string, description: string,
    playing: bool, shuffle: bool, repeat: bool, muted: bool,
    elapsed: string, total: string, volumeLevel: real)

  /** `currentSong.thumbnail || placeholder`: a missing or empty thumbnail shows the placeholder. */
  function Artwork(song: Song): string
  {
    if song.thumbnail.Some? && song.thumbnail.value != "" then song.thumbnail.value else Placeholder
  }

  /** The rendered player: nothing at all without a current song. */
  function Render(s: Snapshot): (r: Option<Footer>)
    ensures r.None? <==> s.currentSong.None?
  {
    match s.currentSong
    case None => None
    case Some(song) =>
      Some(Footer(Artwork(song), song.title, song.description,
                  s.isPlaying, s.isShuffle, s.isRepeat, s.isMuted,
                  FormatTime(s.currentTime), FormatTime(s.duration),
                  AudibleVolume(s.isMuted, s.volume)))
  }

  /** With a song the footer names it, shows its own artwork or the placeholder,
      shows the elapsed and total time as `m:ss` (which read back by
      `FormatTimeReadsBack`), and shows a volume between 0 and 1 that is 0 exactly
      when muted or set to 0. */
  lemma RenderShowsState(s: Snapshot)
    requires s.currentSong.Some? && 0.0 <= s.volume <= 1.0
    ensures var r := Render(s);
      && r.Some?
      && r.value.title == s.currentSong.value.title
      && (r.value.artwork == Placeholder || Some(r.value.artwork) == s.currentSong.value.thumbnail)
      && r.value.elapsed == FormatTime(s.currentTime)
      && r.value.total == FormatTime(s.duration)
      && 0.0 <= r.value.volumeLevel <= 1.0
      && (r.value.volumeLevel == 0.0 <==> s.isMuted || s.volume == 0.0)
  {
  }

  /** The volume bar of a mounted player shows exactly the volume the element plays at. */
  lemma VolumeBarIsElementVolume(p: PlayerProvider)
    requires p.Valid() && p.audio != null && p.currentSong.Some?
    ensures Render(p.State()).Some?
    ensures Render(p.State()).value.volumeLevel == p.audio.volume
  {
  }
}
