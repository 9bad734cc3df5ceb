# musiccontrol core, modelled in Dafny

A drummer's practice page: a YouTube player, a metronome, two track mixers and an
"AI" stem separator. Most of the application is React layout. This project models
its sequential logic:

- **Track mixers.** The list updates of the two mixers: volume, mute, solo, pan,
  reset and attaching the URLs of separated stems. The pan label and the slider
  display are modelled too. `track_mixer.dfy` holds these as pure functions.
  `advanced_track_mixer.dfy` holds them as the same kind of functions plus a
  `Mixer` class whose methods replace the list.
- **Metronome** (`metronome.dfy`). A class models the component state, the timer
  effect (cleanup, then start or clear), the beat counter captured by the timer
  callback, and the click pitch. Beats per bar is read from the signature text.
- **YouTube controller** (`audio_controller.dfy`). Video-id extraction is modelled
  as a scanner that follows the regular expression's leftmost-match semantics.
  Also here: `m:ss` time formatting and the play/pause decisions.
- **Upload panel** (`audio_separator_advanced.dfy`). The file guards (size, then
  MIME type), the model-loaded guard, the progress/status writes of an upload
  whose stages may throw, and the append-only list of processed files.
- **WAV serialiser and model loader** (`demucs_wasm.dfy`). `audioBufferToBlob`
  writes into a byte array: the fixed 44-byte RIFF/WAVE PCM header, then the
  16-bit little-endian samples interleaved frame by frame. It is verified against
  a byte-sequence specification `WavBytes`. A reader's view of the header fields
  and samples is proved about that specification. `DemucsSeparator` models the
  loaded/loading flags.

`text.dfy` holds decimal rendering (`${n}`), parsing and `padStart`.
`arith.dfy` holds helper facts about multiplication and Euclidean division.
`wrappers.dfy` holds `Option`.

Two behaviours of the metronome are worth stating outright:

- The code never rejects a bpm outside 40..240. Only the slider bounds it
  (src/components/MetronomeController.tsx:124-138), and every quick-tempo
  button lies in that range, so `SetBpm` takes the range as a precondition.
- Setting a metronome value to its current value does not restart the timer,
  because React skips a state update that leaves the value unchanged.

## Model

| member | source | states |
|---|---|---|
| TrackMixer.InitialTracks | src/components/TrackMixer.tsx:16-57 | five unmuted tracks with distinct ids drums, bass, guitar, vocals, other and volumes 75, 60, 50, 80, 40 |
| TrackMixer.UpdateTrackVolume | src/components/TrackMixer.tsx:59-65 | length kept; a track with the id gets the new volume and nothing else changes; every other track is unchanged |
| TrackMixer.ToggleTrackMute | src/components/TrackMixer.tsx:67-73 | only the mute flag of tracks with the id flips; every other track is unchanged |
| TrackMixer.ResetAllTracks | src/components/TrackMixer.tsx:75-79 | every track at volume 50 and unmuted; id, name and colour kept; length and order kept |
| TrackMixer.SliderValue | src/components/TrackMixer.tsx:117 | the slider reads 0 while muted and the volume otherwise |
| TrackMixer.VolumeLabel | src/components/TrackMixer.tsx:123 | the label is "MUTE" exactly when muted, otherwise the volume in decimal followed by '%' |
| TrackMixer.UpdateUnknownIdIsIdentity | src/components/TrackMixer.tsx:59-65 | a volume update for an id no track has leaves the list equal to the input |
| TrackMixer.ToggleMuteInvolution | src/components/TrackMixer.tsx:67-73 | toggling the same id twice gives back the original list |
| TrackMixer.ResetIdempotent | src/components/TrackMixer.tsx:75-79 | resetting twice is the same as resetting once |
| TrackMixer.OperationsKeepIds | src/components/TrackMixer.tsx:59-79 | each of the three updates keeps distinct ids distinct |
| TrackMixer.LabelAgreesWithSlider | src/components/TrackMixer.tsx:117-123 | for a non-zero volume, "MUTE" is shown exactly when the slider reads 0 |
| AdvancedTrackMixer.InitialTracks | src/components/AdvancedTrackMixer.tsx:24-75 | five tracks drums, bass, vocals, guitar, other with volumes 75, 60, 80, 50, 40, distinct ids, none muted or solo, centred, no audio URL |
| AdvancedTrackMixer.WithSeparatedTracks | src/components/AdvancedTrackMixer.tsx:94-101 | without a stem map the list is unchanged; with one, each track keeps every field except its URL, which is present exactly when the map has the track's id and then equals the map's entry |
| AdvancedTrackMixer.SetVolume | src/components/AdvancedTrackMixer.tsx:103-116 | only tracks with the id get the new volume; all other tracks and fields unchanged; length and order kept |
| AdvancedTrackMixer.ToggleMute | src/components/AdvancedTrackMixer.tsx:118-131 | only the mute flag of tracks with the id flips |
| AdvancedTrackMixer.FlipSolo | src/components/AdvancedTrackMixer.tsx:135-138 | a track ends up solo exactly when it has the id and was not solo; no other field changes |
| AdvancedTrackMixer.ToggleSolo | src/components/AdvancedTrackMixer.tsx:133-151 | identity, volume and pan kept. A track is solo iff it has the id and was not solo. If a track is now solo, every track is muted exactly when it is not solo. Otherwise all mute flags are as before |
| AdvancedTrackMixer.SetPan | src/components/AdvancedTrackMixer.tsx:153-159 | only tracks with the id get the new pan; everything else unchanged |
| AdvancedTrackMixer.ResetAll | src/components/AdvancedTrackMixer.tsx:161-171 | every track at volume 50, unmuted, not solo, centred, with id, name, colour and URL kept; no solo remains |
| AdvancedTrackMixer.PanLabel | src/components/AdvancedTrackMixer.tsx:262 | "C" exactly for 0, "L" and the magnitude for a negative pan, "R" and the value for a positive one |
| AdvancedTrackMixer.PanLabelRoundTrip | src/components/AdvancedTrackMixer.tsx:262 | reading a pan label back gives the pan, so distinct pans get distinct labels |
| AdvancedTrackMixer.SliderValue | src/components/AdvancedTrackMixer.tsx:237 | the slider reads 0 while muted and the volume otherwise |
| AdvancedTrackMixer.VolumeLabel | src/components/AdvancedTrackMixer.tsx:243 | "MUTE" exactly when muted, otherwise the volume and '%' |
| AdvancedTrackMixer.SoloIsExclusive | src/components/AdvancedTrackMixer.tsx:133-151 | with distinct ids, after a solo toggle at most one track is solo, and only a track with the target id can be |
| AdvancedTrackMixer.DuplicateIdsBreakExclusiveSolo | src/components/AdvancedTrackMixer.tsx:135-138 | two tracks with the same id both go solo, so exclusivity depends on distinct ids |
| AdvancedTrackMixer.UnsoloKeepsSoloMutes | src/components/AdvancedTrackMixer.tsx:141-149 | soloing a track and toggling it again leaves no solo, the target unmuted and every other track still muted |
| AdvancedTrackMixer.ToggleMuteInvolution | src/components/AdvancedTrackMixer.tsx:118-131 | toggling mute twice restores the list |
| AdvancedTrackMixer.UnknownIdIsIdentity | src/components/AdvancedTrackMixer.tsx:103-159 | volume, mute and pan updates for an unknown id leave the list unchanged |
| AdvancedTrackMixer.SoloUnknownIdClearsSolo | src/components/AdvancedTrackMixer.tsx:133-151 | a solo toggle for an unknown id clears every solo flag and changes nothing else |
| AdvancedTrackMixer.Mixer.constructor | src/components/AdvancedTrackMixer.tsx:24-101 | the mixer starts with master volume 75 and the initial list, its stems already attached when the prop carries a map (the effect's first run) and exactly the initial list without one; distinct ids and at most one solo |
| AdvancedTrackMixer.Mixer.LoadSeparatedTracks | src/components/AdvancedTrackMixer.tsx:94-101 | the list becomes the stem-attached list; the invariant holds |
| AdvancedTrackMixer.Mixer.UpdateTrackVolume | src/components/AdvancedTrackMixer.tsx:103-116 | the list becomes the volume-updated list; distinct ids and at most one solo are kept |
| AdvancedTrackMixer.Mixer.ToggleTrackMute | src/components/AdvancedTrackMixer.tsx:118-131 | the list becomes the mute-toggled list; the invariant holds |
| AdvancedTrackMixer.Mixer.ToggleTrackSolo | src/components/AdvancedTrackMixer.tsx:133-151 | the list becomes the solo-toggled list, and at most one track stays solo |
| AdvancedTrackMixer.Mixer.UpdateTrackPan | src/components/AdvancedTrackMixer.tsx:153-159 | the list becomes the pan-updated list; the invariant holds |
| AdvancedTrackMixer.Mixer.ResetAllTracks | src/components/AdvancedTrackMixer.tsx:161-171 | the list becomes the reset list; the invariant holds |
| AdvancedTrackMixer.Mixer.SetMasterVolume | src/components/AdvancedTrackMixer.tsx:311-313 | only the master volume changes |
| MetronomeController.Numerator | src/components/MetronomeController.tsx:49 | the text before the first '/', the whole text when there is none |
| MetronomeController.LeadingDigits | src/components/MetronomeController.tsx:49 | the longest all-digit prefix |
| MetronomeController.ParseInt | src/components/MetronomeController.tsx:49 | NaN (None) exactly when the text does not start with a digit |
| MetronomeController.NumeratorOfDigits | src/components/MetronomeController.tsx:49 | for an all-digit numerator, the text before the '/' is that numerator |
| MetronomeController.LeadingDigitsOfDigits | src/components/MetronomeController.tsx:49 | an all-digit text is its own digit prefix, so parseInt reads all of it |
| MetronomeController.BeatsPerBar | src/components/MetronomeController.tsx:49 | NaN (None) exactly when the text before the first '/' is empty or does not start with a digit |
| MetronomeController.BeatsPerBarIsNumerator | src/components/MetronomeController.tsx:49 | a signature written as a number, '/', anything has that number of beats per bar |
| MetronomeController.BeatsPerBarOfDigit | src/components/MetronomeController.tsx:49 | a one-digit numerator gives that digit's value |
| MetronomeController.BeatsPerBarOfSignatures | src/components/MetronomeController.tsx:49-74 | "2/4", "3/4", "4/4" and "6/8" give 2, 3, 4 and 6 beats per bar |
| MetronomeController.SignatureBeats | src/components/MetronomeController.tsx:74 | every offered signature parses to a beat count between 2 and 6 |
| MetronomeController.CommonBpmsInRange | src/components/MetronomeController.tsx:124-138 | every quick-tempo value lies within the slider's 40..240 |
| MetronomeController.IntervalMs | src/components/MetronomeController.tsx:47 | the period times the bpm is 60000; 500 ms at 120 bpm |
| MetronomeController.ClickFrequency | src/components/MetronomeController.tsx:38 | 1000 Hz exactly for an accented click, 800 Hz exactly for a plain one |
| MetronomeController.NextBeat | src/components/MetronomeController.tsx:53 | the counter stays below beats per bar |
| MetronomeController.BeatAfter | src/components/MetronomeController.tsx:48-53 | the counter after any number of callback runs stays below beats per bar |
| MetronomeController.BeatAfterIsMod | src/components/MetronomeController.tsx:48-53 | after k ticks from a fresh start the counter is k mod beats per bar |
| MetronomeController.AccentPattern | src/components/MetronomeController.tsx:51-54 | tick k after a start is accented exactly when k mod beats per bar is 0 |
| MetronomeController.FourFourPattern | src/components/MetronomeController.tsx:48-54 | in 4/4 the first five ticks are accent, plain, plain, plain, accent |
| MetronomeController.Metronome.constructor | src/components/MetronomeController.tsx:11-15 | 120 bpm, volume 50, metronome on, 4/4; a timer with a reset counter exists exactly when the transport plays |
| MetronomeController.Metronome.RunEffect | src/components/MetronomeController.tsx:45-67 | the old timer is cleared. If on and playing, exactly one new timer with a zero counter is live, built from the current bpm, signature and volume. Otherwise no timer remains and the handle is null |
| MetronomeController.Metronome.Tick | src/components/MetronomeController.tsx:51-54 | only a live timer fires. A click is accented exactly when the ticks so far are a whole number of bars. Its pitch follows the accent and the counter stays within the bar |
| MetronomeController.Metronome.SetBpm | src/components/MetronomeController.tsx:124-138 | the same bpm changes nothing; a new bpm restarts or clears the timer as the effect dictates |
| MetronomeController.Metronome.SetVolume | src/components/MetronomeController.tsx:177-184 | the same volume changes nothing; a new one re-runs the effect |
| MetronomeController.Metronome.SetTimeSignature | src/components/MetronomeController.tsx:155-158 | the same signature changes nothing; a new one re-runs the effect, so the beat phase resets |
| MetronomeController.Metronome.SetPlaying | src/components/MetronomeController.tsx:45-67 | a transport change re-runs the effect: playing with the metronome on starts a fresh timer, pausing clears it |
| MetronomeController.Metronome.ToggleMetronome | src/components/MetronomeController.tsx:69-71 | negates the on flag and re-runs the effect |
| MetronomeController.Metronome.Unmount | src/components/MetronomeController.tsx:62-66 | the last cleanup leaves no live timer |
| MetronomeController.Session | src/components/MetronomeController.tsx:45-67 | at 120 bpm in 4/4 five ticks are accented as T, F, F, F, T; after a tempo change to 60 bpm the next tick is accented and the period is 1000 ms |
| AudioController.IdRun | src/components/AudioController.tsx:21 | the longest prefix free of '&', newline, '?' and '#' |
| AudioController.AlternativeAt | src/components/AudioController.tsx:21 | None exactly when no prefix alternative plus an id character matches at the position; otherwise an alternative that matches there |
| AudioController.LeftmostMatch | src/components/AudioController.tsx:21-22 | None exactly when nothing matches from i on; otherwise a matching position and alternative with no match at any earlier position |
| AudioController.IdAfter | src/components/AudioController.tsx:21-23 | the captured id is non-empty, lies right after the prefix, holds only id characters and is maximal |
| AudioController.GetVideoId | src/components/AudioController.tsx:20-24 | null exactly when no prefix followed by an id character occurs; otherwise the capture at the leftmost match |
| AudioController.IdAfterMatchNonEmpty | src/components/AudioController.tsx:21 | the capture after any match is non-empty |
| AudioController.AtMostOneAlternative | src/components/AudioController.tsx:21 | two alternatives never match at the same position |
| AudioController.MatchStartsWithYOrM | src/components/AudioController.tsx:21 | a match starts on 'y' or 'm' |
| AudioController.SkipToMatch | src/components/AudioController.tsx:22 | the scan result is unchanged across text without 'y' and 'm' |
| AudioController.IdRunIsMaximal | src/components/AudioController.tsx:21 | the run taken from a position is the longest stretch of id characters there |
| AudioController.IdAtFirstMatch | src/components/AudioController.tsx:21-23 | a match preceded by no 'y' or 'm' decides the id |
| AudioController.IdRunOfDelimited | src/components/AudioController.tsx:21 | an id followed by a delimiter, or by nothing, is captured exactly |
| AudioController.LinkMatchesAfterLead | src/components/AudioController.tsx:21 | in lead + prefix + id the pattern matches right after the lead with that prefix |
| AudioController.IdAtMatch | src/components/AudioController.tsx:21-23 | a first match followed by some text captures the run at the head of that text |
| AudioController.IdOfLinkMatch | src/components/AudioController.tsx:20-24 | with a lead free of 'y' and 'm', the id is the run after the prefix |
| AudioController.IdOfLink | src/components/AudioController.tsx:20-24 | lead + prefix + id + delimiter-or-nothing yields exactly that id |
| AudioController.ShortLinkExample | src/components/AudioController.tsx:20-24 | "https://youtu.be/abc?t=1" yields "abc" |
| AudioController.EmptyIdIsNoMatch | src/components/AudioController.tsx:21-23 | "youtu.be/?t=1" yields null |
| AudioController.FormatTime | src/components/AudioController.tsx:94-98 | minutes as shortest decimal, a colon, then two digits |
| AudioController.PaddedSecondsValue | src/components/AudioController.tsx:96-97 | the padded seconds field is two digits reading back the seconds |
| AudioController.FormatTimeRoundTrip | src/components/AudioController.tsx:94-98 | reading the display back gives minutes times 60 plus seconds, the input |
| AudioController.FormatTimeExamples | src/components/AudioController.tsx:94-98 | 65 seconds display as "1:05" |
| AudioController.FormatTimeZero | src/components/AudioController.tsx:94-98 | 0 seconds display as "0:00" |
| AudioController.FormatTimeHour | src/components/AudioController.tsx:94-98 | an hour displays as "60:00": minutes are not wrapped into hours |
| AudioController.OnStateChange | src/components/AudioController.tsx:48-55 | state 1 reports playing, state 2 reports paused, every other state reports nothing |
| AudioController.HandlePlayPause | src/components/AudioController.tsx:57-65 | no command without a player; with one, pause while playing and play while paused |
| AudioController.PlayPauseFlipsTransport | src/components/AudioController.tsx:48-65 | under an assumed player (a play command answered by state 1, a pause by state 2), the state reported after the command is the opposite of the current transport |
| Text.NatToString | src/components/AdvancedTrackMixer.tsx:262 | a non-empty digit string of one character exactly below 10, with no leading zero |
| Text.IntToString | src/components/TrackMixer.tsx:123 | a minus sign and the magnitude's decimal text below zero, the decimal text of the value otherwise |
| Text.ParseNatToString | src/components/AudioController.tsx:95-97 | reading the decimal text back gives the number |
| Text.PadStart2 | src/components/AudioController.tsx:97 | texts of two or more characters are kept; shorter ones are zero-filled on the left to two |
| AudioSeparatorAdvanced.SelectFile | src/components/AudioSeparatorAdvanced.tsx:108-126 | nothing without a file. A file above the limit gets the size message. Otherwise a type outside the list gets the type message. Accepted exactly when within size and of a listed type |
| AudioSeparatorAdvanced.SizeLimitIsInclusive | src/components/AudioSeparatorAdvanced.tsx:112-115 | a file of exactly 52428800 bytes passes, one byte more is rejected |
| AudioSeparatorAdvanced.MpegIsRefused | src/components/AudioSeparatorAdvanced.tsx:118-122 | "audio/mpeg" is rejected with the type message |
| AudioSeparatorAdvanced.ProgressTrace | src/components/AudioSeparatorAdvanced.tsx:59-90 | a full run writes 0, 20, 40, 70, 90, 100; a run stopped by the k-th stage (k from 0 to 3) writes the first k + 2 values |
| AudioSeparatorAdvanced.ProgressNeverGoesBack | src/components/AudioSeparatorAdvanced.tsx:59-90 | the progress values never decrease, start at 0 and reach 100 exactly on success |
| AudioSeparatorAdvanced.ErrorStatus | src/components/AudioSeparatorAdvanced.tsx:102 | "오류: " then the error's message, or the fixed unknown-error text |
| AudioSeparatorAdvanced.UploadPanel.constructor | src/components/AudioSeparatorAdvanced.tsx:12-17 | not processing, progress 0, empty status, model not loaded, no processed files |
| AudioSeparatorAdvanced.UploadPanel.InitializeModel | src/components/AudioSeparatorAdvanced.tsx:24-45 | nothing once loaded; otherwise loaded exactly on success, with the ready or failure status |
| AudioSeparatorAdvanced.UploadPanel.Advance | src/components/AudioSeparatorAdvanced.tsx:64-65 | progress and status set, the value logged |
| AudioSeparatorAdvanced.UploadPanel.Abort | src/components/AudioSeparatorAdvanced.tsx:100-105 | the error status is shown and processing ends |
| AudioSeparatorAdvanced.UploadPanel.RunStages | src/components/AudioSeparatorAdvanced.tsx:58-105 | processing ends. The logged progress is the trace for the fault and the last value is shown. Success shows the done text and appends the name; a fault shows the error and leaves the list alone |
| AudioSeparatorAdvanced.UploadPanel.LaterStages | src/components/AudioSeparatorAdvanced.tsx:73-105 | the stages after separation log the tail of the trace, with the same outcomes |
| AudioSeparatorAdvanced.UploadPanel.HandleFileUpload | src/components/AudioSeparatorAdvanced.tsx:52-106 | without a loaded model only the waiting status changes; otherwise the stage outcomes above |
| AudioSeparatorAdvanced.UploadPanel.ClearAfterSuccess | src/components/AudioSeparatorAdvanced.tsx:95-98 | status emptied and progress 0, that 0 logged like every other progress write |
| AudioSeparatorAdvanced.UploadPanel.HandleFileSelect | src/components/AudioSeparatorAdvanced.tsx:108-126 | nothing without a file; a rejection shows its message and starts nothing; an accepted file has exactly the outcome of the upload: the waiting status without a model, otherwise the progress trace of its fault, the done text and its name appended on success, the error status and an unchanged list on a fault. The list never shrinks |
| DemucsWasm.U16LE | src/lib/demucsWasm.ts:223 | two bytes; their little-endian reading is stated by DemucsWasm.U16RoundTrip |
| DemucsWasm.U32LE | src/lib/demucsWasm.ts:219 | four bytes; their little-endian reading is stated by DemucsWasm.U32RoundTrip |
| DemucsWasm.I16LE | src/lib/demucsWasm.ts:237 | two bytes; their little-endian reading is stated by DemucsWasm.I16RoundTrip |
| DemucsWasm.Ascii | src/lib/demucsWasm.ts:212-216 | one byte per character, the character code for codes below 256 |
| DemucsWasm.U16RoundTrip | src/lib/demucsWasm.ts:223-228 | reading two written bytes gives the value modulo 2^16, the value itself when it fits |
| DemucsWasm.U32RoundTrip | src/lib/demucsWasm.ts:219-226 | reading four written bytes gives the value modulo 2^32, the value itself when it fits |
| DemucsWasm.I16RoundTrip | src/lib/demucsWasm.ts:237 | a signed 16-bit read gives back any value in -32768..32767 |
| DemucsWasm.DataSize | src/lib/demucsWasm.ts:230 | an even byte count which, divided by two bytes per channel, gives back the frame count |
| DemucsWasm.RiffChunk | src/lib/demucsWasm.ts:218-220 | 12 bytes |
| DemucsWasm.FmtChunk | src/lib/demucsWasm.ts:221-228 | 24 bytes |
| DemucsWasm.FmtBody | src/lib/demucsWasm.ts:223-228 | 16 bytes |
| DemucsWasm.DataChunkHeader | src/lib/demucsWasm.ts:229-230 | 8 bytes |
| DemucsWasm.Header | src/lib/demucsWasm.ts:218-230 | 44 bytes |
| DemucsWasm.Quantize | src/lib/demucsWasm.ts:236-237 | within ±32767, saturating at ±1.0; inside (-1, 1) the scaled sample truncated toward zero: the largest integer not above x·32767 for x ≥ 0, the smallest not below it for x < 0 |
| DemucsWasm.WavBytes | src/lib/demucsWasm.ts:208-240 | 44 + data size bytes, starting with the header |
| DemucsWasm.RiffFields | src/lib/demucsWasm.ts:219 | the RIFF size field reads 36 + data size modulo 2^32 |
| DemucsWasm.FmtBodyFields | src/lib/demucsWasm.ts:223-228 | format 1, channels, sample rate, byte rate, block size and bit depth read back, each modulo its width |
| DemucsWasm.FmtFields | src/lib/demucsWasm.ts:221-228 | chunk size 16 and the format fields read back at their offsets within the chunk |
| DemucsWasm.DataChunkFields | src/lib/demucsWasm.ts:230 | the data size field reads the data size modulo 2^32 |
| DemucsWasm.ChunksInPlace | src/lib/demucsWasm.ts:218-230 | the three chunk headers sit at offsets 0, 12 and 36 of the file |
| DemucsWasm.TagsInPlace | src/lib/demucsWasm.ts:218-229 | "RIFF", "WAVE", "fmt " and "data" at offsets 0, 8, 12 and 36 |
| DemucsWasm.HeaderFields | src/lib/demucsWasm.ts:218-230 | every header field at its absolute offset reads the written value modulo its width |
| DemucsWasm.HeaderReadsBack | src/lib/demucsWasm.ts:218-230 | the same for any bytes starting with the header |
| DemucsWasm.SizesReadBack | src/lib/demucsWasm.ts:219-230 | when the sizes fit, the RIFF size is the file length less 8 and the data size is the length less 44 |
| DemucsWasm.ChannelsReadBack | src/lib/demucsWasm.ts:224-227 | when it fits, offset 22 reads the channel count and offset 32 reads twice that |
| DemucsWasm.SampleRateReadBack | src/lib/demucsWasm.ts:225 | when it fits, offset 24 reads the sample rate |
| DemucsWasm.ByteRateReadBack | src/lib/demucsWasm.ts:226 | when it fits, offset 28 reads rate × channels × 2 |
| DemucsWasm.DataByte | src/lib/demucsWasm.ts:233 | data byte j sits at offset 44 + j |
| DemucsWasm.SampleBytesOf | src/lib/demucsWasm.ts:234-238 | data bytes 2(i·n + c) and the next one hold the two bytes of channel c's sample i |
| DemucsWasm.SampleAt | src/lib/demucsWasm.ts:233-240 | channel c's sample i is stored at offset 44 + 2(i·n + c) |
| DemucsWasm.StoredSampleReadsBack | src/lib/demucsWasm.ts:237 | a stored sample reads back as the quantised value |
| DemucsWasm.SampleReadBack | src/lib/demucsWasm.ts:233-240 | a signed read at offset 44 + 2(i·n + c) of the file gives the quantised sample |
| DemucsWasm.SetUint16 | src/lib/demucsWasm.ts:223 | two bytes at the offset hold the encoding; no other byte changes |
| DemucsWasm.SetInt16 | src/lib/demucsWasm.ts:237 | two bytes at the offset hold the signed encoding; no other byte changes |
| DemucsWasm.SetUint32 | src/lib/demucsWasm.ts:219 | four bytes at the offset hold the encoding; no other byte changes |
| DemucsWasm.WriteString | src/lib/demucsWasm.ts:212-216 | the characters' codes are written from the offset on, nothing else changes |
| DemucsWasm.WriteRiffChunk | src/lib/demucsWasm.ts:218-220 | bytes 0..12 hold the RIFF chunk; the rest unchanged |
| DemucsWasm.WriteFmtChunk | src/lib/demucsWasm.ts:221-228 | bytes 12..36 hold the format chunk; the rest unchanged |
| DemucsWasm.WriteFmtBody | src/lib/demucsWasm.ts:223-228 | bytes 20..36 hold the format fields; the rest unchanged |
| DemucsWasm.WriteDataChunkHeader | src/lib/demucsWasm.ts:229-230 | bytes 36..44 hold the data chunk header; the rest unchanged |
| DemucsWasm.WriteHeader | src/lib/demucsWasm.ts:218-230 | the first 44 bytes are the header; later bytes unchanged |
| DemucsWasm.WavInterleaved | src/lib/demucsWasm.ts:233-240 | the file has the right length and holds every sample of every frame at its interleaved offset |
| DemucsWasm.WriteSample | src/lib/demucsWasm.ts:236-238 | the prefix that agrees with the file grows by the sample's two bytes |
| DemucsWasm.WriteFrame | src/lib/demucsWasm.ts:235-239 | one frame written: the offset advances by 2n and the agreeing prefix reaches it |
| DemucsWasm.WriteFrames | src/lib/demucsWasm.ts:233-240 | every frame written: the whole buffer agrees with the file |
| DemucsWasm.AudioBufferToBlob | src/lib/demucsWasm.ts:202-243 | a buffer of 44 + length × channels × 2 bytes whose contents are exactly the WAV file |
| DemucsWasm.DemucsSeparator.constructor | src/lib/demucsWasm.ts:11-18 | neither loaded nor loading |
| DemucsWasm.DemucsSeparator.BeginLoad | src/lib/demucsWasm.ts:20-23 | starts exactly when neither loaded nor loading, and is then loading; otherwise nothing changes |
| DemucsWasm.DemucsSeparator.FinishLoad | src/lib/demucsWasm.ts:25-35 | loaded exactly on success, no longer loading |
| DemucsWasm.LoadingSession | src/lib/demucsWasm.ts:20-36 | a first call starts, a concurrent one does not, a retry after failure starts, a call after success does not |

## Left out

- JSX rendering, CSS, icons, `isAdvancedMode` and the disabled state of the sliders: presentation only.
- Web Audio calls (`AudioContext`, oscillator and gain nodes, `decodeAudioData`, `FileReader`, `Blob`, `URL.createObjectURL`): foreign browser calls. The click is returned as a `Click` value (pitch, volume). The early return of `playClick` without an audio context is not modelled.
- The `track.audioElement` branches of the advanced mixer (src/components/AdvancedTrackMixer.tsx:108-110, 123-125 and 316-318): `audioElement` is declared on the track type (line 16) but never assigned anywhere in the repository, so these branches never run.
- Floating-point gain arithmetic (audio element volumes, the metronome gain, the YouTube progress percentage): float presentation values outside the logic.
- Quantize: samples are Dafny reals, not IEEE doubles. The clamp, the ×32767 and the truncation toward zero of `setInt16` are modelled; double rounding is not. A NaN sample is not modelled either: `Math.min`/`Math.max` pass NaN through and `setInt16` then stores 0, while Dafny reals have no NaN.
- AudioBufferToBlob: the sample rate is a natural number. A fractional rate, and the `ToUint32` conversion of one, are not modelled. The `Blob` wrapper and its MIME type are the returned array.
- `processWithWasm`, `initializeWasmModule`, `WasmLoader`, `fileToAudioBuffer`, `separateAudio` and `getModelInfo`: placeholders, fetches or browser decoding with no logic to state. The stages that call them are represented only by whether they throw.
- `isModelLoaded()` and `isModelLoading()` of `DemucsSeparator` are plain getters; the model reads the fields directly.
- Real timer timing, drift and the asynchronous interleaving of `await`s. A timer firing is the `Tick` event, and an upload runs to completion in one method call.
- The YouTube player object (`playVideo`, `pauseVideo`, `seekTo`, `setVolume`), the volume and restart handlers and progress polling: only the play/pause branch choice is modelled; how the player answers a command is the assumption `AudioController.StateAfter`, not code of this repository.
- MetronomeController.Metronome.SetBpm: takes 40..240 as a precondition, the slider's range; `Number` of arbitrary text is not modelled.
- MetronomeController.ParseInt: handles unsigned decimal text only. Leading whitespace and signs, which `parseInt` also accepts, never occur in the offered signatures.
- AudioController.FormatTime: takes a non-negative integer number of seconds. Fractional and negative times, for which `Math.floor` matters, are not modelled.
- src/lib/audioSeparationAPI.ts, src/lib/demucs.ts, src/components/AudioSeparator.tsx and src/app/page.tsx are not part of this model: an HTTP client, placeholders and UI glue.
