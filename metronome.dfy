/**
 * The metronome. While it is switched on and the music plays, a repeating
 * timer clicks once per beat, the first beat of every bar accented. The
 * component re-runs its timer effect whenever one of its dependencies changes
 * value: the previous run's cleanup clears the old timer, then a new timer is
 * made (with a fresh beat counter) or the handle is cleared. A timer firing is
 * an abstract `Tick` event; real time is not modelled.
 */
module MetronomeController {
  import opened Wrappers
  import opened Text
  import opened Arith

  const TimeSignatures: seq<string> := ["2/4", "3/4", "4/4", "6/8"]
  const CommonBpms: seq<int> := [60, 80, 100, 120, 140, 160, 180]
  const MinBpm := 40
  const MaxBpm := 240

  // ---- beats per bar: parseInt(timeSignature.split('/')[0]) ----

  /** The text before the first '/', or all of it when there is none. */
  function Numerator(sig: string): (r: string)
    ensures |r| <= |sig| && r == sig[..|r|]
    ensures forall k :: 0 <= k < |r| ==> r[k] != '/'
    ensures |r| < |sig| ==> sig[|r|] == '/'
  {
    if sig == [] || sig[0] == '/' then [] else [sig[0]] + Numerator(sig[1..])
  }

  /** The longest prefix made of decimal digits. */
  function LeadingDigits(s: string): (r: string)
    ensures |r| <= |s| && r == s[..|r|] && AllDigits(r)
    ensures |r| < |s| ==> !IsDigit(s[|r|])
  {
    if s == [] || !IsDigit(s[0]) then [] else [s[0]] + LeadingDigits(s[1..])
  }

  /** parseInt on unsigned decimal text: None stands for NaN (no leading digit). */
  function ParseInt(s: string): (r: Option<nat>)
    ensures r.None? <==> (s == [] || !IsDigit(s[0]))
  {
    var d := LeadingDigits(s);
    if d == [] then None else Some(ParseNat(d))
  }

  /** `parseInt(timeSignature.split('/')[0])`. */
  function BeatsPerBar(sig: string): (r: Option<nat>)
    ensures r.None? <==> (Numerator(sig) == [] || !IsDigit(Numerator(sig)[0]))
  {
    ParseInt(Numerator(sig))
  }

  lemma {:induction false} NumeratorOfDigits(digits: string, denom: string)
    requires AllDigits(digits)
    ensures Numerator(digits + "/" + denom) == digits
  {
    if digits != [] {
      assert (digits + "/" + denom)[1..] == digits[1..] + "/" + denom;
      NumeratorOfDigits(digits[1..], denom);
    }
  }

  lemma {:induction false} LeadingDigitsOfDigits(digits: string)
    requires AllDigits(digits)
    ensures LeadingDigits(digits) == digits
  {
    if digits != [] {
      LeadingDigitsOfDigits(digits[1..]);
    }
  }

  /** A signature written "n/d" has n beats per bar. */
  lemma BeatsPerBarIsNumerator(n: nat, denom: string)
    ensures BeatsPerBar(NatToString(n) + "/" + denom) == Some(n)
  {
    NumeratorOfDigits(NatToString(n), denom);
    LeadingDigitsOfDigits(NatToString(n));
    ParseNatToString(n);
  }

  /** The single-digit case, written with the digit character itself. */
  lemma BeatsPerBarOfDigit(d: nat, denom: string)
    requires d < 10
    ensures BeatsPerBar([DigitChar(d)] + "/" + denom) == Some(d)
  {
    assert NatToString(d) == [DigitChar(d)];
    BeatsPerBarIsNumerator(d, denom);
  }

  lemma BeatsPerBarOfSignatures()
    ensures BeatsPerBar("2/4") == Some(2) && BeatsPerBar("3/4") == Some(3)
    ensures BeatsPerBar("4/4") == Some(4) && BeatsPerBar("6/8") == Some(6)
  {
    assert "2/4" == [DigitChar(2)] + "/" + "4";
    assert "3/4" == [DigitChar(3)] + "/" + "4";
    assert "4/4" == [DigitChar(4)] + "/" + "4";
    assert "6/8" == [DigitChar(6)] + "/" + "8";
    BeatsPerBarOfDigit(2, "4");
    BeatsPerBarOfDigit(3, "4");
    BeatsPerBarOfDigit(4, "4");
    BeatsPerBarOfDigit(6, "8");
  }

  /** Beats per bar of one of the offered signatures. */
  function SignatureBeats(sig: string): (n: nat)
    requires sig in TimeSignatures
    ensures BeatsPerBar(sig) == Some(n) && 2 <= n <= 6
  {
    var written: (nat, string) := if sig == "2/4" then (2, "4") else if sig == "3/4" then (3, "4")
                                  else if sig == "4/4" then (4, "4") else (6, "8");
    var d, denom := written.0, written.1;
    assert sig == [DigitChar(d)] + "/" + denom;
    BeatsPerBarOfDigit(d, denom);
    d
  }

  /** Every quick-tempo button passes a value the slider also allows. */
  lemma CommonBpmsInRange()
    ensures forall b :: b in CommonBpms ==> MinBpm <= b <= MaxBpm
  {
  }

  // ---- timing, beats and clicks ----

  /** The timer period in milliseconds, `60000 / bpm`. */
  function IntervalMs(bpm: int): (ms: real)
    requires bpm > 0
    ensures ms * bpm as real == 60000.0
    ensures bpm == 120 ==> ms == 500.0
  {
    60000.0 / bpm as real
  }

  /** The oscillator frequency of a click: 1000 Hz accented, 800 Hz otherwise. */
  function ClickFrequency(accent: bool): (hz: int)
    ensures accent <==> hz == 1000
    ensures !accent <==> hz == 800
  {
    if accent then 1000 else 800
  }

  function NextBeat(beat: nat, beatsPerBar: nat): (next: nat)
    requires beatsPerBar > 0
    ensures next < beatsPerBar
  {
    (beat + 1) % beatsPerBar
  }

  /** The beat counter after `k` ticks of a freshly started timer. */
  function BeatAfter(beatsPerBar: nat, k: nat): (beat: nat)
    requires beatsPerBar > 0
    ensures beat < beatsPerBar
  {
    if k == 0 then 0 else NextBeat(BeatAfter(beatsPerBar, k - 1), beatsPerBar)
  }

  /** Counting modulo `b` one step at a time agrees with reducing the count. */
  lemma ModStep(x: nat, b: nat)
    requires b > 0
    ensures (x % b + 1) % b == (x + 1) % b
  {
    var q, r := x / b, x % b;
    assert x == q * b + r;
    if r + 1 == b {
      assert x + 1 == (q + 1) * b;
      DivModUnique(r + 1, b, 1, 0);
      DivModUnique(x + 1, b, q + 1, 0);
    } else {
      DivModUnique(r + 1, b, 0, r + 1);
      DivModUnique(x + 1, b, q, r + 1);
    }
  }

  lemma {:induction false} BeatAfterIsMod(beatsPerBar: nat, k: nat)
    requires beatsPerBar > 0
    ensures BeatAfter(beatsPerBar, k) == k % beatsPerBar
  {
    if k == 0 {
      DivModUnique(0, beatsPerBar, 0, 0);
    } else {
      BeatAfterIsMod(beatsPerBar, k - 1);
      BeatAfterStep(beatsPerBar, k);
    }
  }

  /** One tick advances a counter that is the reduced count to the next reduced count. */
  lemma BeatAfterStep(beatsPerBar: nat, k: nat)
    requires beatsPerBar > 0 && k > 0
    requires BeatAfter(beatsPerBar, k - 1) == (k - 1) % beatsPerBar
    ensures BeatAfter(beatsPerBar, k) == k % beatsPerBar
  {
    var prev := BeatAfter(beatsPerBar, k - 1);
    assert BeatAfter(beatsPerBar, k) == NextBeat(prev, beatsPerBar);
    ModStep(k - 1, beatsPerBar);
  }

  /** Whether each of the first `n` ticks after a start is accented. */
  function AccentPattern(beatsPerBar: nat, n: nat): (p: seq<bool>)
    requires beatsPerBar > 0
    ensures |p| == n
    ensures forall k :: 0 <= k < n ==> (p[k] <==> k % beatsPerBar == 0)
  {
    var p := seq(n, k requires 0 <= k => BeatAfter(beatsPerBar, k) == 0);
    assert forall k :: 0 <= k < n ==> (p[k] <==> k % beatsPerBar == 0) by {
      forall k | 0 <= k < n {
        BeatAfterIsMod(beatsPerBar, k);
      }
    }
    p
  }

  /** Running "4/4": accent, three plain clicks, accent. */
  lemma FourFourPattern()
    ensures AccentPattern(SignatureBeats("4/4"), 5) == [true, false, false, false, true]
  {
    var p := AccentPattern(SignatureBeats("4/4"), 5);
    assert SignatureBeats("4/4") == 4;
    assert p[1] == false && p[2] == false && p[3] == false && p[4] == true;
  }

  // ---- the component ----

  /** A live repeating timer and the configuration its callback captured. */
  datatype Timer = Timer(handle: nat, period: real, beatsPerBar: nat, volume: int)

  /** One click handed to the sound emitter. */
  datatype Click = Click(accent: bool, frequency: int, volume: int)

  class Metronome {
    var bpm: int
    var volume: int
    var isMetronomeOn: bool
    var isPlaying: bool
    var timeSignature: string
    /** `intervalRef.current`. */
    var interval: Option<Timer>
    /** The `beat` variable captured by the current timer's callback. */
    var beat: nat
    var nextHandle: nat
    var unmounted: bool
    /** Handles of the host timers that were created and not cleared. */
    ghost var live: set<nat>
    /** Clicks made by the current timer. */
    ghost var ticks: nat

    ghost predicate ConfigOk()
      reads this
    {
      MinBpm <= bpm <= MaxBpm && timeSignature in TimeSignatures
    }

    /** The current timer is the one made from the current configuration. */
    ghost predicate TimerMatches()
      reads this
      requires ConfigOk()
    {
      interval.Some? ==>
        var t := interval.value;
        t.handle < nextHandle && t.period == IntervalMs(bpm) &&
        t.beatsPerBar == SignatureBeats(timeSignature) && t.volume == volume &&
        beat == BeatAfter(t.beatsPerBar, ticks)
    }

    ghost predicate Valid()
      reads this
    {
      && ConfigOk()
      && (unmounted ==> live == {})
      && (!unmounted ==>
            && (interval.Some? <==> isMetronomeOn && isPlaying)
            && live == (if interval.Some? then {interval.value.handle} else {})
            && TimerMatches())
    }

    /** A timer made by the last effect run, with handle `h` and a reset counter. */
    ghost predicate FreshlyStarted(h: nat)
      reads this
    {
      interval.Some? && interval.value.handle == h && beat == 0 && ticks == 0 && live == {h}
    }

    /** No timer: the handle is cleared and every host timer is cleared. */
    ghost predicate Stopped()
      reads this
    {
      interval == None && live == {}
    }

    constructor (isPlaying: bool)
      ensures Valid() && !unmounted
      ensures bpm == 120 && volume == 50 && isMetronomeOn && timeSignature == "4/4"
      ensures this.isPlaying == isPlaying
      ensures isPlaying ==> FreshlyStarted(0) && nextHandle == 1
      ensures !isPlaying ==> Stopped()
    {
      bpm, volume, isMetronomeOn, timeSignature := 120, 50, true, "4/4";
      this.isPlaying := isPlaying;
      interval, beat, nextHandle, unmounted := None, 0, 0, false;
      live, ticks := {}, 0;
      new;
      RunEffect();
    }

    /** The previous effect run's cleanup followed by the effect body. */
    method RunEffect()
      requires ConfigOk() && !unmounted
      requires live == (if interval.Some? then {interval.value.handle} else {})
      requires interval.Some? ==> interval.value.handle < nextHandle
      modifies this
      ensures Valid() && !unmounted
      ensures bpm == old(bpm) && volume == old(volume) && timeSignature == old(timeSignature)
      ensures isMetronomeOn == old(isMetronomeOn) && isPlaying == old(isPlaying)
      ensures isMetronomeOn && isPlaying ==> FreshlyStarted(old(nextHandle)) && nextHandle == old(nextHandle) + 1
      ensures !(isMetronomeOn && isPlaying) ==> Stopped() && nextHandle == old(nextHandle)
    {
      // cleanup: clearInterval(intervalRef.current)
      if interval.Some? {
        live := live - {interval.value.handle};
      }
      if isMetronomeOn && isPlaying {
        var beatsPerBar := SignatureBeats(timeSignature);
        beat, ticks := 0, 0;
        interval := Some(Timer(nextHandle, IntervalMs(bpm), beatsPerBar, volume));
        live := live + {nextHandle};
        nextHandle := nextHandle + 1;
      } else if interval.Some? {
        live := live - {interval.value.handle};
        interval := None;
      }
    }

    /** The host fires timer `h`: play a click, then advance the beat counter. */
    method Tick(h: nat) returns (click: Click)
      requires Valid() && h in live
      modifies this`beat, this`ticks
      ensures Valid()
      ensures interval.Some? && h == interval.value.handle
      ensures click.accent <==> old(ticks) % interval.value.beatsPerBar == 0
      ensures click.frequency == ClickFrequency(click.accent) && click.volume == volume
      ensures ticks == old(ticks) + 1 && beat < interval.value.beatsPerBar
    {
      var beatsPerBar := interval.value.beatsPerBar;
      BeatAfterIsMod(beatsPerBar, ticks);
      var accent := beat == 0;
      click := Click(accent, ClickFrequency(accent), volume);
      beat := NextBeat(beat, beatsPerBar);
      ticks := ticks + 1;
    }

    method SetBpm(newBpm: int)
      requires Valid() && !unmounted && MinBpm <= newBpm <= MaxBpm
      modifies this
      ensures Valid() && bpm == newBpm
      ensures newBpm == old(bpm) ==> unchanged(this)
      ensures newBpm != old(bpm) ==> Restarted(old(nextHandle))
      ensures volume == old(volume) && timeSignature == old(timeSignature)
      ensures isMetronomeOn == old(isMetronomeOn) && isPlaying == old(isPlaying)
    {
      if newBpm != bpm {
        bpm := newBpm;
        RunEffect();
      }
    }

    method SetVolume(newVolume: int)
      requires Valid() && !unmounted
      modifies this
      ensures Valid() && volume == newVolume
      ensures newVolume == old(volume) ==> unchanged(this)
      ensures newVolume != old(volume) ==> Restarted(old(nextHandle))
      ensures bpm == old(bpm) && timeSignature == old(timeSignature)
      ensures isMetronomeOn == old(isMetronomeOn) && isPlaying == old(isPlaying)
    {
      if newVolume != volume {
        volume := newVolume;
        RunEffect();
      }
    }

    method SetTimeSignature(sig: string)
      requires Valid() && !unmounted && sig in TimeSignatures
      modifies this
      ensures Valid() && timeSignature == sig
      ensures sig == old(timeSignature) ==> unchanged(this)
      ensures sig != old(timeSignature) ==> Restarted(old(nextHandle))
      ensures bpm == old(bpm) && volume == old(volume)
      ensures isMetronomeOn == old(isMetronomeOn) && isPlaying == old(isPlaying)
    {
      if sig != timeSignature {
        timeSignature := sig;
        RunEffect();
      }
    }

    /** The host's transport changed (the `isPlaying` prop). */
    method SetPlaying(playing: bool)
      requires Valid() && !unmounted
      modifies this
      ensures Valid() && isPlaying == playing
      ensures playing == old(isPlaying) ==> unchanged(this)
      ensures playing != old(isPlaying) ==> Restarted(old(nextHandle))
      ensures bpm == old(bpm) && volume == old(volume) && timeSignature == old(timeSignature)
      ensures isMetronomeOn == old(isMetronomeOn)
    {
      if playing != isPlaying {
        isPlaying := playing;
        RunEffect();
      }
    }

    method ToggleMetronome()
      requires Valid() && !unmounted
      modifies this
      ensures Valid() && isMetronomeOn == !old(isMetronomeOn)
      ensures Restarted(old(nextHandle))
      ensures bpm == old(bpm) && volume == old(volume) && timeSignature == old(timeSignature)
      ensures isPlaying == old(isPlaying)
    {
      isMetronomeOn := !isMetronomeOn;
      RunEffect();
    }

    /** Unmounting runs the last cleanup: no timer is left to fire. */
    method Unmount()
      requires Valid() && !unmounted
      modifies this
      ensures Valid() && unmounted && live == {}
    {
      if interval.Some? {
        live := live - {interval.value.handle};
      }
      unmounted := true;
    }

    /** After an effect re-run: a fresh timer exactly when on and playing, else none. */
    ghost predicate Restarted(h: nat)
      reads this
    {
      !unmounted &&
      (isMetronomeOn && isPlaying ==> FreshlyStarted(h) && nextHandle == h + 1) &&
      (!(isMetronomeOn && isPlaying) ==> Stopped() && nextHandle == h)
    }
  }

  /**
   * A session: start playing in 4/4 at 120 bpm, hear five clicks, change the
   * tempo to 60 bpm and hear one more. The first click after the change is
   * accented, and a paused transport leaves no timer.
   */
  method Session() returns (accents: seq<bool>, period: real)
    ensures accents == [true, false, false, false, true, true]
    ensures period == 1000.0
  {
    var m := new Metronome(true);
    assert m.interval.value.beatsPerBar == 4;
    var c0 := m.Tick(0);
    var c1 := m.Tick(0);
    var c2 := m.Tick(0);
    var c3 := m.Tick(0);
    var c4 := m.Tick(0);
    accents := [c0.accent, c1.accent, c2.accent, c3.accent, c4.accent];
    m.SetBpm(60);
    var c := m.Tick(1);
    accents := accents + [c.accent];
    period := m.interval.value.period;
    m.SetPlaying(false);
    assert m.Stopped();
  }
}
