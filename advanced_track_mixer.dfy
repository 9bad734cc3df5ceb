/**
 * The advanced track mixer: each stem also has a solo flag, a stereo pan and,
 * once separation has run, the URL of its separated audio. Each operation
 * builds a new list from the previous one; the `Mixer` class holds the list the
 * component's state hook holds and replaces it on every operation.
 */
module AdvancedTrackMixer {
  import opened Wrappers
  import opened Text

  /** A track record; the icon and the browser audio element are not modelled. */
  datatype Track = Track(
    id: string, name: string, volume: int, muted: bool, solo: bool, pan: int,
    color: string, audioUrl: Option<string>)

  predicate DistinctIds(ts: seq<Track>) {
    forall i, j :: 0 <= i < j < |ts| ==> ts[i].id != ts[j].id
  }

  predicate AtMostOneSolo(ts: seq<Track>) {
    forall i, j :: 0 <= i < |ts| && 0 <= j < |ts| && ts[i].solo && ts[j].solo ==> i == j
  }

  predicate HasSolo(ts: seq<Track>) {
    exists i :: 0 <= i < |ts| && ts[i].solo
  }

  /** Same track apart from the fields an operation is allowed to change. */
  predicate SameIdentity(a: Track, b: Track) {
    a.id == b.id && a.name == b.name && a.color == b.color && a.audioUrl == b.audioUrl
  }

  function InitialTracks(): (ts: seq<Track>)
    ensures |ts| == 5 && DistinctIds(ts) && !HasSolo(ts)
    ensures [ts[0].id, ts[1].id, ts[2].id, ts[3].id, ts[4].id] == ["drums", "bass", "vocals", "guitar", "other"]
    ensures [ts[0].volume, ts[1].volume, ts[2].volume, ts[3].volume, ts[4].volume] == [75, 60, 80, 50, 40]
    ensures forall i :: 0 <= i < |ts| ==> !ts[i].muted && ts[i].pan == 0 && ts[i].audioUrl == None
  {
    [ Track("drums", "드럼", 75, false, false, 0, "bg-red-500", None),
      Track("bass", "베이스", 60, false, false, 0, "bg-blue-500", None),
      Track("vocals", "보컬", 80, false, false, 0, "bg-purple-500", None),
      Track("guitar", "기타", 50, false, false, 0, "bg-green-500", None),
      Track("other", "기타", 40, false, false, 0, "bg-yellow-500", None) ]
  }

  /**
   * Attaches the separated stems: when a stem map is given, every track's URL
   * becomes the map's entry for its id, or absent when the map has none.
   */
  function WithSeparatedTracks(ts: seq<Track>, separated: Option<map<string, string>>): (r: seq<Track>)
    ensures separated == None ==> r == ts
    ensures |r| == |ts|
    ensures separated.Some? ==> forall i :: 0 <= i < |ts| ==>
      r[i] == ts[i].(audioUrl := r[i].audioUrl) &&
      (r[i].audioUrl.Some? <==> ts[i].id in separated.value) &&
      (r[i].audioUrl.Some? ==> r[i].audioUrl.value == separated.value[ts[i].id])
  {
    match separated
    case None => ts
    case Some(m) =>
      seq(|ts|, i requires 0 <= i < |ts| =>
        ts[i].(audioUrl := if ts[i].id in m then Some(m[ts[i].id]) else None))
  }

  function SetVolume(ts: seq<Track>, id: string, volume: int): (r: seq<Track>)
    ensures |r| == |ts|
    ensures forall i :: 0 <= i < |ts| && ts[i].id == id ==> r[i] == ts[i].(volume := volume)
    ensures forall i :: 0 <= i < |ts| && ts[i].id != id ==> r[i] == ts[i]
  {
    seq(|ts|, i requires 0 <= i < |ts| => if ts[i].id == id then ts[i].(volume := volume) else ts[i])
  }

  function ToggleMute(ts: seq<Track>, id: string): (r: seq<Track>)
    ensures |r| == |ts|
    ensures forall i :: 0 <= i < |ts| && ts[i].id == id ==> r[i] == ts[i].(muted := !ts[i].muted)
    ensures forall i :: 0 <= i < |ts| && ts[i].id != id ==> r[i] == ts[i]
  {
    seq(|ts|, i requires 0 <= i < |ts| => if ts[i].id == id then ts[i].(muted := !ts[i].muted) else ts[i])
  }

  /** First step of the solo toggle: flip the target's solo, clear every other. */
  function FlipSolo(ts: seq<Track>, id: string): (r: seq<Track>)
    ensures |r| == |ts|
    ensures forall i :: 0 <= i < |ts| ==> r[i] == ts[i].(solo := r[i].solo)
    ensures forall i :: 0 <= i < |ts| ==> (r[i].solo <==> ts[i].id == id && !ts[i].solo)
  {
    seq(|ts|, i requires 0 <= i < |ts| => ts[i].(solo := if ts[i].id == id then !ts[i].solo else false))
  }

  /**
   * Toggles solo on `id`. When that leaves a track solo, the solo track is
   * unmuted and every other track is muted; otherwise mute flags are kept.
   */
  function ToggleSolo(ts: seq<Track>, id: string): (r: seq<Track>)
    ensures |r| == |ts|
    ensures forall i :: 0 <= i < |ts| ==>
      SameIdentity(r[i], ts[i]) && r[i].volume == ts[i].volume && r[i].pan == ts[i].pan
    ensures forall i :: 0 <= i < |ts| ==> (r[i].solo <==> ts[i].id == id && !ts[i].solo)
    ensures HasSolo(r) ==> forall i :: 0 <= i < |ts| ==> r[i].muted == !r[i].solo
    ensures !HasSolo(r) ==> forall i :: 0 <= i < |ts| ==> r[i].muted == ts[i].muted
  {
    var flipped := FlipSolo(ts, id);
    if HasSolo(flipped) then
      seq(|flipped|, i requires 0 <= i < |flipped| => flipped[i].(muted := !flipped[i].solo))
    else
      flipped
  }

  function SetPan(ts: seq<Track>, id: string, pan: int): (r: seq<Track>)
    ensures |r| == |ts|
    ensures forall i :: 0 <= i < |ts| && ts[i].id == id ==> r[i] == ts[i].(pan := pan)
    ensures forall i :: 0 <= i < |ts| && ts[i].id != id ==> r[i] == ts[i]
  {
    seq(|ts|, i requires 0 <= i < |ts| => if ts[i].id == id then ts[i].(pan := pan) else ts[i])
  }

  function ResetAll(ts: seq<Track>): (r: seq<Track>)
    ensures |r| == |ts| && !HasSolo(r)
    ensures forall i :: 0 <= i < |ts| ==>
      SameIdentity(r[i], ts[i]) && r[i].volume == 50 && !r[i].muted && !r[i].solo && r[i].pan == 0
  {
    seq(|ts|, i requires 0 <= i < |ts| => ts[i].(volume := 50, muted := false, solo := false, pan := 0))
  }

  /** "C" when centred, "L" and the magnitude when left, "R" and the value when right. */
  function PanLabel(pan: int): (s: string)
    ensures pan == 0 <==> s == "C"
    ensures pan < 0 ==> s == "L" + NatToString(-pan)
    ensures pan > 0 ==> s == "R" + NatToString(pan)
  {
    if pan == 0 then "C" else if pan < 0 then "L" + NatToString(-pan) else "R" + NatToString(pan)
  }

  /** Reads a pan label back; None for text no pan value produces. */
  function ParsePanLabel(s: string): Option<int> {
    if s == "C" then Some(0)
    else if |s| >= 2 && (s[0] == 'L' || s[0] == 'R') && AllDigits(s[1..]) then
      var n: int := ParseNat(s[1..]);
      if s[0] == 'L' then Some(-n) else Some(n)
    else None
  }

  function SliderValue(t: Track): (v: int)
    ensures t.muted ==> v == 0
    ensures !t.muted ==> v == t.volume
  {
    if t.muted then 0 else t.volume
  }

  function VolumeLabel(t: Track): (s: string)
    ensures t.muted <==> s == "MUTE"
    ensures !t.muted ==> s == IntToString(t.volume) + "%"
  {
    if t.muted then "MUTE"
    else
      var s := IntToString(t.volume) + "%";
      assert s[|s| - 1] != "MUTE"[3];
      s
  }

  // ---- properties ----

  /** With distinct ids, a solo toggle leaves at most one track solo, and it is the target. */
  lemma SoloIsExclusive(ts: seq<Track>, id: string)
    requires DistinctIds(ts)
    ensures AtMostOneSolo(ToggleSolo(ts, id))
    ensures forall i :: 0 <= i < |ts| && ToggleSolo(ts, id)[i].solo ==> ts[i].id == id
  {
  }

  /** Without distinct ids the solo invariant fails: two tracks named alike both go solo. */
  lemma DuplicateIdsBreakExclusiveSolo()
    ensures !AtMostOneSolo(ToggleSolo([Track("a", "", 0, false, false, 0, "", None),
                                       Track("a", "", 0, false, false, 0, "", None)], "a"))
  {
    var r := ToggleSolo([Track("a", "", 0, false, false, 0, "", None),
                         Track("a", "", 0, false, false, 0, "", None)], "a");
    assert r[0].solo && r[1].solo;
  }

  /**
   * Soloing a track and then un-soloing it leaves no solo, the target unmuted
   * and every other track muted: the mutes of the solo are not undone.
   */
  lemma UnsoloKeepsSoloMutes(ts: seq<Track>, id: string, k: nat)
    requires DistinctIds(ts) && !HasSolo(ts)
    requires k < |ts| && ts[k].id == id
    ensures var r := ToggleSolo(ToggleSolo(ts, id), id);
      !HasSolo(r) && !r[k].muted && forall i :: 0 <= i < |ts| && i != k ==> r[i].muted
  {
    var once := ToggleSolo(ts, id);
    assert once[k].solo;
    assert HasSolo(once);
  }

  lemma ToggleMuteInvolution(ts: seq<Track>, id: string)
    ensures ToggleMute(ToggleMute(ts, id), id) == ts
  {
  }

  lemma UnknownIdIsIdentity(ts: seq<Track>, id: string, volume: int, pan: int)
    requires forall i :: 0 <= i < |ts| ==> ts[i].id != id
    ensures SetVolume(ts, id, volume) == ts && ToggleMute(ts, id) == ts && SetPan(ts, id, pan) == ts
  {
  }

  /** An unknown id un-solos everything and leaves mute flags untouched. */
  lemma SoloUnknownIdClearsSolo(ts: seq<Track>, id: string)
    requires forall i :: 0 <= i < |ts| ==> ts[i].id != id
    ensures ToggleSolo(ts, id) == seq(|ts|, i requires 0 <= i < |ts| => ts[i].(solo := false))
  {
    var r := ToggleSolo(ts, id);
    assert !HasSolo(r);
  }

  lemma {:induction false} PanLabelRoundTrip(pan: int)
    ensures ParsePanLabel(PanLabel(pan)) == Some(pan)
  {
    if pan != 0 {
      var n := if pan < 0 then -pan else pan;
      var s := PanLabel(pan);
      assert s[1..] == NatToString(n);
      ParseNatToString(n);
    }
  }

  /** The mixer's state: the track list and the master volume. */
  class Mixer {
    var tracks: seq<Track>
    var masterVolume: int

    ghost predicate Valid()
      reads this
    {
      DistinctIds(tracks) && AtMostOneSolo(tracks)
    }

    /**
     * Mounting: the initial list, then the `separatedTracks` effect's first
     * run, which already attaches the stems when the prop is set.
     */
    constructor (separated: Option<map<string, string>>)
      ensures Valid() && tracks == WithSeparatedTracks(InitialTracks(), separated) && masterVolume == 75
      ensures separated == None ==> tracks == InitialTracks()
    {
      tracks := WithSeparatedTracks(InitialTracks(), separated);
      masterVolume := 75;
    }

    method LoadSeparatedTracks(separated: Option<map<string, string>>)
      requires Valid()
      modifies this
      ensures Valid() && tracks == WithSeparatedTracks(old(tracks), separated) && masterVolume == old(masterVolume)
    {
      tracks := WithSeparatedTracks(tracks, separated);
    }

    method UpdateTrackVolume(id: string, volume: int)
      requires Valid()
      modifies this
      ensures Valid() && tracks == SetVolume(old(tracks), id, volume) && masterVolume == old(masterVolume)
    {
      tracks := SetVolume(tracks, id, volume);
    }

    method ToggleTrackMute(id: string)
      requires Valid()
      modifies this
      ensures Valid() && tracks == ToggleMute(old(tracks), id) && masterVolume == old(masterVolume)
    {
      tracks := ToggleMute(tracks, id);
    }

    method ToggleTrackSolo(id: string)
      requires Valid()
      modifies this
      ensures Valid() && tracks == ToggleSolo(old(tracks), id) && masterVolume == old(masterVolume)
    {
      SoloIsExclusive(tracks, id);
      tracks := ToggleSolo(tracks, id);
    }

    method UpdateTrackPan(id: string, pan: int)
      requires Valid()
      modifies this
      ensures Valid() && tracks == SetPan(old(tracks), id, pan) && masterVolume == old(masterVolume)
    {
      tracks := SetPan(tracks, id, pan);
    }

    method ResetAllTracks()
      requires Valid()
      modifies this
      ensures Valid() && tracks == ResetAll(old(tracks)) && masterVolume == old(masterVolume)
    {
      tracks := ResetAll(tracks);
    }

    method SetMasterVolume(volume: int)
      requires Valid()
      modifies this
      ensures Valid() && masterVolume == volume && tracks == old(tracks)
    {
      masterVolume := volume;
    }
  }
}
