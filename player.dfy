/** The logic of the watch-page video player (public/js/player.js): the clock format, clamping,
    the progress bar, "next episode", and the player state that seeking, volume, mute, double
    tap, dragging and the saved position update. The video element is modelled by the fields it
    exposes (currentTime, duration, volume, muted); times are exact real numbers. */
module Player {
  import opened Js

  // ---------------------------------------------------------------------------
  // Pure helpers

  /** `String(s).padStart(2, "0")`. */
  function Pad2(s: nat): (r: string)
    ensures s < 60 ==> |r| == 2 && AllDigits(r)
  {
    var d := NatToString(s);
    NumeralLength(s);
    if |d| < 2 then "0" + d else d
  }

  lemma NumeralLength(n: nat)
    ensures n < 10 ==> |NatToString(n)| == 1
    ensures 10 <= n < 100 ==> |NatToString(n)| == 2
  {
    if 10 <= n < 100 {
      assert NatToString(n) == NatToString(n / 10) + [DigitChar(n % 10)];
    }
  }

  /** fmt: a negative time shows as "0:00"; otherwise the whole minutes, a colon and the
      remaining whole seconds on two digits. */
  function Fmt(t: real): (r: string)
    ensures t < 0.0 ==> r == "0:00"
    ensures t >= 0.0 ==> t.Floor >= 0 && r == NatToString(t.Floor / 60) + ":" + Pad2(t.Floor % 60)
  {
    if t < 0.0 then "0:00"
    else
      var m := (t / 60.0).Floor;
      var s := (t - m as real * 60.0).Floor;
      FloorSplit(t, m, s);
      NatToString(m) + ":" + Pad2(s)
  }

  /** The minutes and seconds fmt computes are the quotient and remainder of the whole seconds. */
  lemma FloorSplit(t: real, m: int, s: int)
    requires t >= 0.0 && m == (t / 60.0).Floor && s == (t - m as real * 60.0).Floor
    ensures m >= 0 && 0 <= s < 60
    ensures t.Floor == m * 60 + s
  {
    assert m as real <= t / 60.0 < m as real + 1.0;
    assert m as real * 60.0 <= t < m as real * 60.0 + 60.0;
    assert (m * 60 + s) as real <= t < (m * 60 + s + 1) as real;
  }

  /** Reads back an "m:ss" clock: whole minutes, a colon, exactly two digits below 60. */
  function ParseClock(s: string): (r: Option<int>)
    ensures r.Some? ==> r.value >= 0
  {
    var k := FirstColon(s);
    if k < |s| && 0 < k && AllDigits(s[..k]) && |s[k + 1..]| == 2 && AllDigits(s[k + 1..]) && DigitsValue(s[k + 1..]) < 60
    then Some(DigitsValue(s[..k]) * 60 + DigitsValue(s[k + 1..]))
    else None
  }

  /** Round trip: the clock fmt shows for a non-negative time reads back as its whole seconds. */
  lemma {:induction false} ParseFmt(t: real)
    requires t >= 0.0
    ensures ParseClock(Fmt(t)) == Some(t.Floor)
  {
    var f := t.Floor;
    var m, s := f / 60, f % 60;
    assert f == m * 60 + s;
    assert Fmt(t) == NatToString(m) + ":" + Pad2(s);
    ParseClockOf(m, s);
  }

  /** Reading back "m:ss" gives m * 60 + ss. */
  lemma {:induction false} ParseClockOf(m: nat, s: nat)
    requires s < 60
    ensures ParseClock(NatToString(m) + ":" + Pad2(s)) == Some(m * 60 + s)
  {
    var mins, secs := NatToString(m), Pad2(s);
    var shown := mins + ":" + secs;
    assert ':' !in mins by {
      assert forall i :: 0 <= i < |mins| ==> IsDigit(mins[i]);
    }
    ColonAfterHead(mins, secs);
    assert shown[..|mins|] == mins;
    assert shown[|mins| + 1..] == secs;
    DigitsValueOfNatToString(m);
    Pad2Value(s);
  }

  lemma {:induction false} Pad2Value(s: nat)
    requires s < 60
    ensures DigitsValue(Pad2(s)) == s
  {
    var d := NatToString(s);
    DigitsValueOfNatToString(s);
    NumeralLength(s);
    if |d| < 2 {
      var p := Pad2(s);
      assert p == "0" + d;
      assert p[..1] == "0" && p[1] == d[0];
      assert DigitsValue(p[..1]) == 0;
      assert d == [d[0]];
      assert DigitsValue(d) == DigitsValue([]) * 10 + (d[0] as int - '0' as int);
    }
  }

  /** clamp: `min(max(n, lo), hi)`. */
  function Clamp(n: real, lo: real, hi: real): (r: real)
    ensures lo <= hi ==> lo <= r <= hi
    ensures lo <= n <= hi ==> r == n
    ensures n < lo && lo <= hi ==> r == lo
    ensures n > hi ==> r == hi
    ensures hi < lo ==> r == hi
  {
    var m := if n > lo then n else lo;
    if m < hi then m else hi
  }

  /** The progress bar's width in percent: the played fraction of the duration, kept within
      [0, 100]; 0 while the duration is unknown (0). */
  function ProgressPercent(currentTime: real, duration: real): (pct: real)
    ensures 0.0 <= pct <= 100.0
    ensures duration == 0.0 ==> pct == 0.0
    ensures 0.0 <= currentTime <= duration && duration > 0.0 ==> pct == currentTime / duration * 100.0
  {
    var p := if duration != 0.0 then currentTime / duration else 0.0;
    Clamp(p * 100.0, 0.0, 100.0)
  }

  /** The fraction of the track a pointer at `clientX` designates: its offset from the track's
      left edge, clamped to the track, over the track's width; 0 for a track of no width. */
  function ClientXToPercent(clientX: real, left: real, width: real): (f: real)
    ensures width == 0.0 ==> f == 0.0
    ensures width > 0.0 ==> 0.0 <= f <= 1.0
    ensures width > 0.0 && left <= clientX <= left + width ==> f == (clientX - left) / width
    ensures width > 0.0 && clientX <= left ==> f == 0.0
    ensures width > 0.0 && clientX >= left + width ==> f == 1.0
  {
    var x := Clamp(clientX - left, 0.0, width);
    if width != 0.0 then x / width else 0.0
  }

  /** A fraction of a non-negative duration lies within it. */
  lemma ScaleWithin(f: real, d: real)
    requires 0.0 <= f <= 1.0 && 0.0 <= d
    ensures 0.0 <= f * d <= d
  {
    assert d - f * d == (1.0 - f) * d;
  }

  // ---------------------------------------------------------------------------
  // Next episode

  /** An entry of the episode list the page embeds. */
  datatype EpisodeLink = EpisodeLink(unlock: bool, href: string)

  /** goNext: the first unlocked episode after the current one, or none. The scan starts at
      `currentIndex + 1`; an index below -1 makes it read an element before the start of the
      list, which throws. */
  method GoNext(eps: seq<EpisodeLink>, currentIndex: int) returns (r: Completion<Option<nat>>)
    ensures currentIndex < -1 ==> r == Thrown
    ensures currentIndex >= -1 ==> r.Normal?
    ensures r.Normal? && r.value.Some? ==>
              var j := r.value.value;
              && currentIndex < j < |eps| && eps[j].unlock
              && forall k :: currentIndex < k < j ==> !eps[k].unlock
    ensures r.Normal? && r.value.None? ==> forall k :: currentIndex < k < |eps| ==> !eps[k].unlock
  {
    var j := currentIndex + 1;
    while j < |eps|
      invariant currentIndex + 1 <= j
      invariant currentIndex >= -1 ==> forall k :: currentIndex < k < j && k < |eps| ==> !eps[k].unlock
      invariant currentIndex < -1 ==> j == currentIndex + 1
      decreases |eps| - j
    {
      if j < 0 {
        return Thrown;
      }
      if eps[j].unlock {
        return Normal(Some(j));
      }
      j := j + 1;
    }
    return Normal(None);
  }

  // ---------------------------------------------------------------------------
  // Player state

  /** The keys of the keyboard shortcuts that change the player state. */
  datatype Key = ArrowRight | ArrowLeft | KeyM | OtherKey

  /** The lowest saved time restoreProgress considers, and how far from the end a restored time
      must stay (seconds). */
  const RestoreAfter: real := 3.0
  const RestoreMargin: real := 2.0

  /** saveProgress's throttle window (milliseconds) and the double-tap window (milliseconds). */
  const SaveEvery: int := 1500
  const DoubleTapWithin: int := 280

  /** The gaps between successive save times are all at least the throttle window. */
  ghost predicate Spaced(times: seq<int>) {
    forall i :: 0 < i < |times| ==> times[i] - times[i - 1] >= SaveEvery
  }

  /** A saved time is applied when it lies more than 3 s in and more than 2 s before the end. */
  predicate RestoreWindow(t: real, duration: real) {
    t > RestoreAfter && duration != 0.0 && t < duration - RestoreMargin
  }

  /** A restored time lies strictly inside the video. */
  lemma RestoredWithinVideo(t: real, duration: real)
    requires RestoreWindow(t, duration)
    ensures 0.0 < t < duration && duration > RestoreAfter + RestoreMargin
  {
  }

  class PlayerState {
    var currentTime: real
    var duration: real
    var volume: real
    var muted: bool
    var dragging: bool
    var lastTap: int
    var saveTick: int
    /** The position kept in local storage for this episode. */
    var saved: Option<real>
    /** The times at which a position was written to local storage. */
    ghost var writes: seq<int>

    ghost predicate Valid()
      reads this
    {
      && 0.0 <= duration
      && 0.0 <= currentTime <= duration
      && 0.0 <= volume <= 1.0
      && Spaced(writes)
      && (writes != [] ==> writes[|writes| - 1] <= saveTick)
    }

    constructor (duration: real, saved: Option<real>)
      requires duration >= 0.0
      ensures Valid()
      ensures this.duration == duration && currentTime == 0.0 && volume == 1.0 && !muted && !dragging
      ensures lastTap == 0 && saveTick == 0 && this.saved == saved && writes == []
    {
      this.duration := duration;
      currentTime := 0.0;
      volume := 1.0;
      muted := false;
      dragging := false;
      lastTap := 0;
      saveTick := 0;
      this.saved := saved;
      writes := [];
    }

    /** seekTo: jumps to the fraction (clamped to [0, 1]) of the duration; nothing happens while
        the duration is 0. */
    method SeekTo(fraction: real)
      requires Valid()
      modifies this
      ensures Valid()
      ensures duration == old(duration) && volume == old(volume) && muted == old(muted) && dragging == old(dragging)
      ensures lastTap == old(lastTap) && saveTick == old(saveTick) && saved == old(saved) && writes == old(writes)
      ensures duration == 0.0 ==> currentTime == old(currentTime)
      ensures duration != 0.0 ==> currentTime == Clamp(fraction, 0.0, 1.0) * duration
    {
      if duration == 0.0 {
        return;
      }
      var f, d := Clamp(fraction, 0.0, 1.0), duration;
      var t := f * d;
      ScaleWithin(f, d);
      assert 0.0 <= t <= d;
      currentTime := t;
    }

    /** seekBy: moves by `seconds`, staying within [0, duration]; nothing happens while the
        duration is 0. */
    method SeekBy(seconds: real)
      requires Valid()
      modifies this
      ensures Valid()
      ensures duration == old(duration) && volume == old(volume) && muted == old(muted) && dragging == old(dragging)
      ensures lastTap == old(lastTap) && saveTick == old(saveTick) && saved == old(saved) && writes == old(writes)
      ensures duration == 0.0 ==> currentTime == old(currentTime)
      ensures duration != 0.0 ==> currentTime == Clamp(old(currentTime) + seconds, 0.0, duration)
      ensures duration != 0.0 && 0.0 <= old(currentTime) + seconds <= duration ==> currentTime == old(currentTime) + seconds
    {
      if duration == 0.0 {
        return;
      }
      currentTime := Clamp(currentTime + seconds, 0.0, duration);
    }

    /** The volume slider: the value is clamped to [0, 1], and the player is muted exactly when
        the clamped value is 0. */
    method OnVolumeInput(value: real)
      requires Valid()
      modifies this
      ensures Valid()
      ensures volume == Clamp(value, 0.0, 1.0)
      ensures muted <==> volume == 0.0
      ensures value <= 0.0 ==> muted
      ensures currentTime == old(currentTime) && duration == old(duration) && dragging == old(dragging)
      ensures lastTap == old(lastTap) && saveTick == old(saveTick) && saved == old(saved) && writes == old(writes)
    {
      var val := Clamp(value, 0.0, 1.0);
      volume := val;
      muted := val == 0.0;
    }

    /** The mute button: toggles muting, and unmuting at volume 0 sets the volume to 0.6 so
        that something is heard. */
    method ToggleMute()
      requires Valid()
      modifies this
      ensures Valid()
      ensures muted == !old(muted)
      ensures !muted && old(volume) == 0.0 ==> volume == 0.6
      ensures muted || old(volume) != 0.0 ==> volume == old(volume)
      ensures !muted ==> volume > 0.0
      ensures currentTime == old(currentTime) && duration == old(duration) && dragging == old(dragging)
      ensures lastTap == old(lastTap) && saveTick == old(saveTick) && saved == old(saved) && writes == old(writes)
    {
      muted := !muted;
      if !muted && volume == 0.0 {
        volume := 0.6;
      }
    }

    /** The keyboard shortcuts: the arrows seek 5 s, M toggles muting (without the volume
        restore of the mute button); other keys change nothing here. */
    method OnKey(key: Key)
      requires Valid()
      modifies this
      ensures Valid()
      ensures key == ArrowRight ==> duration != 0.0 ==> currentTime == Clamp(old(currentTime) + 5.0, 0.0, duration)
      ensures key == ArrowLeft ==> duration != 0.0 ==> currentTime == Clamp(old(currentTime) - 5.0, 0.0, duration)
      ensures key == KeyM ==> muted == !old(muted) && volume == old(volume) && currentTime == old(currentTime)
      ensures key == OtherKey ==> muted == old(muted) && volume == old(volume) && currentTime == old(currentTime)
      ensures key != KeyM ==> muted == old(muted) && volume == old(volume)
      ensures duration == old(duration) && dragging == old(dragging)
      ensures lastTap == old(lastTap) && saveTick == old(saveTick) && saved == old(saved) && writes == old(writes)
    {
      match key
      case ArrowRight => SeekBy(5.0);
      case ArrowLeft => SeekBy(-5.0);
      case KeyM => muted := !muted;
      case OtherKey =>
    }

    /** A touch ending at time `now` (ms) at horizontal offset `touchX` within a video `width`
        wide: within 280 ms of the previous touch end it seeks back 10 s on the left half and
        forward 10 s on the right half; the time of every touch end is remembered. */
    method OnTouchEnd(now: int, touchX: Option<real>, width: real)
      requires Valid()
      modifies this
      ensures Valid()
      ensures lastTap == now
      ensures now - old(lastTap) < DoubleTapWithin && touchX.Some? && duration != 0.0 ==>
                currentTime == Clamp(old(currentTime) + (if touchX.value < width / 2.0 then -10.0 else 10.0), 0.0, duration)
      ensures now - old(lastTap) >= DoubleTapWithin || touchX.None? || duration == 0.0 ==> currentTime == old(currentTime)
      ensures duration == old(duration) && volume == old(volume) && muted == old(muted) && dragging == old(dragging)
      ensures saveTick == old(saveTick) && saved == old(saved) && writes == old(writes)
    {
      var dt := now - lastTap;
      lastTap := now;
      if dt < DoubleTapWithin {
        if touchX.None? {
          return;
        }
        var isLeft := touchX.value < width / 2.0;
        SeekBy(if isLeft then -10.0 else 10.0);
      }
    }

    /** Pressing on the progress track starts a drag and seeks to the pointer. */
    method PointerDown(clientX: real, left: real, width: real)
      requires Valid()
      modifies this
      ensures Valid()
      ensures dragging
      ensures duration != 0.0 ==> currentTime == Clamp(ClientXToPercent(clientX, left, width), 0.0, 1.0) * duration
      ensures duration == 0.0 ==> currentTime == old(currentTime)
      ensures duration == old(duration) && volume == old(volume) && muted == old(muted)
      ensures lastTap == old(lastTap) && saveTick == old(saveTick) && saved == old(saved) && writes == old(writes)
    {
      dragging := true;
      SeekTo(ClientXToPercent(clientX, left, width));
    }

    /** Moving the pointer seeks only during a drag. */
    method PointerMove(clientX: real, left: real, width: real)
      requires Valid()
      modifies this
      ensures Valid()
      ensures dragging == old(dragging)
      ensures old(dragging) && duration != 0.0 ==> currentTime == Clamp(ClientXToPercent(clientX, left, width), 0.0, 1.0) * duration
      ensures !old(dragging) || duration == 0.0 ==> currentTime == old(currentTime)
      ensures duration == old(duration) && volume == old(volume) && muted == old(muted)
      ensures lastTap == old(lastTap) && saveTick == old(saveTick) && saved == old(saved) && writes == old(writes)
    {
      if !dragging {
        return;
      }
      SeekTo(ClientXToPercent(clientX, left, width));
    }

    /** Releasing or cancelling the pointer ends the drag. */
    method PointerUp()
      requires Valid()
      modifies this
      ensures Valid()
      ensures !dragging
      ensures currentTime == old(currentTime) && duration == old(duration) && volume == old(volume) && muted == old(muted)
      ensures lastTap == old(lastTap) && saveTick == old(saveTick) && saved == old(saved) && writes == old(writes)
    {
      dragging := false;
    }

    /** saveProgress at time `now` (ms): within 1500 ms of the last accepted call nothing
        happens; otherwise the call is accepted, and the position is written when it is past 0.
        Writes are therefore at least 1500 ms apart. */
    method SaveProgress(now: int)
      requires Valid()
      modifies this
      ensures Valid()
      ensures now - old(saveTick) < SaveEvery ==> saveTick == old(saveTick) && saved == old(saved) && writes == old(writes)
      ensures now - old(saveTick) >= SaveEvery ==> saveTick == now
      ensures now - old(saveTick) >= SaveEvery && currentTime > 0.0 ==> saved == Some(currentTime) && writes == old(writes) + [now]
      ensures now - old(saveTick) >= SaveEvery && currentTime <= 0.0 ==> saved == old(saved) && writes == old(writes)
      ensures currentTime == old(currentTime) && duration == old(duration) && volume == old(volume) && muted == old(muted)
      ensures dragging == old(dragging) && lastTap == old(lastTap)
    {
      if now - saveTick < SaveEvery {
        return;
      }
      saveTick := now;
      if currentTime > 0.0 {
        saved := Some(currentTime);
        writes := writes + [now];
      }
    }

    /** restoreProgress, once the metadata (and so the duration) is known: a saved time is
        applied only inside the restore window; a missing one reads as 0 and is never applied. */
    method RestoreOnMetadata()
      requires Valid()
      modifies this
      ensures Valid()
      ensures saved.Some? && RestoreWindow(saved.value, duration) ==> currentTime == saved.value
      ensures saved.None? || !RestoreWindow(saved.value, duration) ==> currentTime == old(currentTime)
      ensures duration == old(duration) && volume == old(volume) && muted == old(muted) && dragging == old(dragging)
      ensures lastTap == old(lastTap) && saveTick == old(saveTick) && saved == old(saved) && writes == old(writes)
    {
      var t := if saved.Some? then saved.value else 0.0;
      if t > RestoreAfter && duration != 0.0 && t < duration - RestoreMargin {
        currentTime := t;
      }
    }
  }
}
