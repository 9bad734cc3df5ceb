/**
 * The basic track mixer: five simulated stems, each with a volume and a mute
 * flag. Every operation maps the track list to a new one (`prev.map` with an
 * object spread in the source), so the model is pure functions on a sequence.
 */
module TrackMixer {
  import opened Text

  /** A track record; the icon is presentation only and is not modelled. */
  datatype Track = Track(id: string, name: string, volume: int, muted: bool, color: string)

  predicate DistinctIds(ts: seq<Track>) {
    forall i, j :: 0 <= i < j < |ts| ==> ts[i].id != ts[j].id
  }

  /** The list the component starts with. */
  function InitialTracks(): (ts: seq<Track>)
    ensures |ts| == 5 && DistinctIds(ts)
    ensures [ts[0].id, ts[1].id, ts[2].id, ts[3].id, ts[4].id] == ["drums", "bass", "guitar", "vocals", "other"]
    ensures [ts[0].volume, ts[1].volume, ts[2].volume, ts[3].volume, ts[4].volume] == [75, 60, 50, 80, 40]
    ensures forall i :: 0 <= i < |ts| ==> !ts[i].muted
  {
    [ Track("drums", "드럼", 75, false, "bg-red-500"),
      Track("bass", "베이스", 60, false, "bg-blue-500"),
      Track("guitar", "기타", 50, false, "bg-green-500"),
      Track("vocals", "보컬", 80, false, "bg-purple-500"),
      Track("other", "기타", 40, false, "bg-yellow-500") ]
  }

  /** Sets the volume of every track whose id is `id`. */
  function UpdateTrackVolume(ts: seq<Track>, id: string, volume: int): (r: seq<Track>)
    ensures |r| == |ts|
    ensures forall i :: 0 <= i < |ts| && ts[i].id == id ==> r[i] == ts[i].(volume := volume)
    ensures forall i :: 0 <= i < |ts| && ts[i].id != id ==> r[i] == ts[i]
  {
    seq(|ts|, i requires 0 <= i < |ts| => if ts[i].id == id then ts[i].(volume := volume) else ts[i])
  }

  /** Flips the mute flag of every track whose id is `id`. */
  function ToggleTrackMute(ts: seq<Track>, id: string): (r: seq<Track>)
    ensures |r| == |ts|
    ensures forall i :: 0 <= i < |ts| && ts[i].id == id ==> r[i] == ts[i].(muted := !ts[i].muted)
    ensures forall i :: 0 <= i < |ts| && ts[i].id != id ==> r[i] == ts[i]
  {
    seq(|ts|, i requires 0 <= i < |ts| => if ts[i].id == id then ts[i].(muted := !ts[i].muted) else ts[i])
  }

  /** Every track back to volume 50 and unmuted; id, name and colour stay. */
  function ResetAllTracks(ts: seq<Track>): (r: seq<Track>)
    ensures |r| == |ts|
    ensures forall i :: 0 <= i < |ts| ==> r[i].volume == 50 && !r[i].muted
    ensures forall i :: 0 <= i < |ts| ==> r[i].id == ts[i].id && r[i].name == ts[i].name && r[i].color == ts[i].color
  {
    seq(|ts|, i requires 0 <= i < |ts| => ts[i].(volume := 50, muted := false))
  }

  /** The value the volume slider shows: 0 while muted. */
  function SliderValue(t: Track): (v: int)
    ensures t.muted ==> v == 0
    ensures !t.muted ==> v == t.volume
  {
    if t.muted then 0 else t.volume
  }

  /** The text beside the slider: "MUTE" while muted, otherwise the volume and '%'. */
  function VolumeLabel(t: Track): (s: string)
    ensures t.muted <==> s == "MUTE"
    ensures !t.muted ==> s == IntToString(t.volume) + "%"
  {
    if t.muted then "MUTE"
    else
      var s := IntToString(t.volume) + "%";
      assert s[|s| - 1] != "MUTE"[3];
      s
  }

  // ---- properties relating several operations ----

  lemma UpdateUnknownIdIsIdentity(ts: seq<Track>, id: string, volume: int)
    requires forall i :: 0 <= i < |ts| ==> ts[i].id != id
    ensures UpdateTrackVolume(ts, id, volume) == ts
  {
  }

  lemma ToggleMuteInvolution(ts: seq<Track>, id: string)
    ensures ToggleTrackMute(ToggleTrackMute(ts, id), id) == ts
  {
  }

  lemma ResetIdempotent(ts: seq<Track>)
    ensures ResetAllTracks(ResetAllTracks(ts)) == ResetAllTracks(ts)
  {
  }

  /** Operations never touch ids, so distinct ids stay distinct. */
  lemma OperationsKeepIds(ts: seq<Track>, id: string, volume: int)
    requires DistinctIds(ts)
    ensures DistinctIds(UpdateTrackVolume(ts, id, volume))
    ensures DistinctIds(ToggleTrackMute(ts, id))
    ensures DistinctIds(ResetAllTracks(ts))
  {
  }

  /** The "MUTE" label is shown exactly when the slider reads 0 because of a mute. */
  lemma LabelAgreesWithSlider(t: Track)
    requires t.volume != 0
    ensures VolumeLabel(t) == "MUTE" <==> SliderValue(t) == 0
  {
  }
}
