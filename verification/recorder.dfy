/**
 * The audio recorder page: the recording timer, and the trim state around a
 * decoded recording (the two drag handles, apply-clip with a one-level undo,
 * start-over). The recording itself, its decoding and the waveform drawing
 * happen in the browser and enter the model as parameters.
 */
module Recorder {
  import opened Wrappers
  import opened Wav
  import Decimal

  // ---------------------------------------------------------------- the timer

  /** Recording stops by itself after this many seconds. */
  const MaxRecordingTime := 120

  /** Math.floor(ms / 1000): the whole seconds since recording started. */
  function ElapsedSeconds(ms: nat): nat {
    ms / 1000
  }

  /** The timer text: minutes and seconds, each padded to two digits with zeros. */
  function TimerText(elapsed: nat): string {
    Clock(elapsed / 60, elapsed % 60)
  }

  function Clock(minutes: nat, seconds: nat): string {
    Decimal.PadZeros(Decimal.NatString(minutes), 2) + ":" + Decimal.PadZeros(Decimal.NatString(seconds), 2)
  }

  /**
   * Below 100 minutes the text is "mm:ss": the two digits of the minutes, a
   * colon, the two digits of the seconds, which are below 60.
   */
  lemma TimerDigits(elapsed: nat)
    requires elapsed < 6000
    ensures var m, s := elapsed / 60, elapsed % 60;
      s < 60 && TimerText(elapsed) ==
        [Decimal.DigitChar(m / 10), Decimal.DigitChar(m % 10), ':', Decimal.DigitChar(s / 10), Decimal.DigitChar(s % 10)]
  {
    var m, s := elapsed / 60, elapsed % 60;
    assert m < 100 && s < 60;
    ClockDigits(m, s);
  }

  lemma ClockDigits(m: nat, s: nat)
    requires m < 100 && s < 100
    ensures Clock(m, s) ==
      [Decimal.DigitChar(m / 10), Decimal.DigitChar(m % 10), ':', Decimal.DigitChar(s / 10), Decimal.DigitChar(s % 10)]
  {
    Decimal.TwoDigits(m);
    Decimal.TwoDigits(s);
    ClockOfPairs(m, s, Decimal.DigitChar(m / 10), Decimal.DigitChar(m % 10), Decimal.DigitChar(s / 10), Decimal.DigitChar(s % 10));
  }

  lemma ClockOfPairs(m: nat, s: nat, m1: char, m0: char, s1: char, s0: char)
    requires Decimal.PadZeros(Decimal.NatString(m), 2) == [m1, m0]
    requires Decimal.PadZeros(Decimal.NatString(s), 2) == [s1, s0]
    ensures Clock(m, s) == [m1, m0, ':', s1, s0]
  {
  }

  /** One tick of the timer: the text shown and whether recording stops now. */
  function Tick(ms: nat): (r: (string, bool))
    ensures r.1 <==> ms >= MaxRecordingTime * 1000
    ensures r.0 == TimerText(ms / 1000)
  {
    (TimerText(ElapsedSeconds(ms)), ElapsedSeconds(ms) >= MaxRecordingTime)
  }

  // ---------------------------------------------------------------- trimming

  /** Math.floor(t * sampleRate): the frame at time t. */
  function FrameAt(t: real, sampleRate: nat): int {
    (t * sampleRate as real).Floor
  }

  /** Math.floor((end - start) * sampleRate): the length of the trimmed buffer. */
  function ClipLength(start: real, end: real, sampleRate: nat): int {
    ((end - start) * sampleRate as real).Floor
  }

  /** A trim the apply button acts on: within the recording, start before end, at least one frame. */
  predicate Trimmable(buf: AudioBuffer, start: real, end: real) {
    WellFormed(buf) && 0.0 <= start < end <= Duration(buf) && ClipLength(start, end, buf.sampleRate) >= 1
  }

  /** The frames of a trim lie inside the recording and hold at least the trimmed length. */
  lemma FrameBounds(buf: AudioBuffer, start: real, end: real)
    requires WellFormed(buf) && 0.0 <= start < end <= Duration(buf)
    ensures 0 <= FrameAt(start, buf.sampleRate) <= FrameAt(end, buf.sampleRate) <= buf.length
    ensures FrameAt(start, buf.sampleRate) + ClipLength(start, end, buf.sampleRate) <= FrameAt(end, buf.sampleRate)
  {
    var sr := buf.sampleRate as real;
    var s, e := start * sr, end * sr;
    MulLe(0.0, start, sr);
    MulLe(start, end, sr);
    var len := buf.length as real;
    assert Duration(buf) == len / sr;
    ScaleWithin(end, len, sr);
    FloorLe(0.0, s);
    FloorLe(s, e);
    FloorLe(e, len);
    assert (end - start) * sr == e - s;
    FloorDiff(e, s);
  }

  lemma MulLe(x: real, y: real, k: real)
    requires x <= y && k >= 0.0
    ensures x * k <= y * k
  {
  }

  /** A time within len / k seconds is within len frames at rate k. */
  lemma ScaleWithin(t: real, len: real, k: real)
    requires k > 0.0 && t <= len / k
    ensures t * k <= len
  {
    MulLe(t, len / k, k);
    assert (len / k) * k == len;
  }

  lemma FloorLe(x: real, y: real)
    requires x <= y
    ensures x.Floor <= y.Floor
  {
  }

  /** Flooring a difference loses at least as much as flooring its parts. */
  lemma FloorDiff(a: real, b: real)
    ensures (a - b).Floor + b.Floor <= a.Floor
  {
  }

  /** copyToChannel of source into a fresh, zero-filled channel of the given length. */
  function CopyToChannel(source: seq<real>, length: nat): seq<real> {
    seq(length, j requires 0 <= j < length => if j < |source| then source[j] else 0.0)
  }

  /** The buffer apply-clip builds: every channel sliced at the trim's frames and copied into the new length. */
  function Clipped(buf: AudioBuffer, start: real, end: real): AudioBuffer
    requires Trimmable(buf, start, end)
  {
    FrameBounds(buf, start, end);
    var from := FrameAt(start, buf.sampleRate);
    var to := FrameAt(end, buf.sampleRate);
    var length := ClipLength(start, end, buf.sampleRate);
    AudioBuffer(seq(|buf.data|, c requires 0 <= c < |buf.data| => CopyToChannel(buf.data[c][from..to], length)),
                buf.sampleRate, length)
  }

  /**
   * The clip is a well-formed buffer of the trimmed length whose every sample
   * is the original sample at the same time: the slice is never shorter than
   * the new buffer, so no zero padding is ever added.
   */
  lemma ClipIsSlice(buf: AudioBuffer, start: real, end: real)
    requires Trimmable(buf, start, end)
    ensures var r := Clipped(buf, start, end);
      WellFormed(r) && r.sampleRate == buf.sampleRate && r.length == ClipLength(start, end, buf.sampleRate) &&
      |r.data| == |buf.data| && FrameAt(start, buf.sampleRate) + r.length <= buf.length
    ensures var r := Clipped(buf, start, end);
      forall c, j :: 0 <= c < |r.data| && 0 <= j < r.length ==>
        r.data[c][j] == buf.data[c][FrameAt(start, buf.sampleRate) + j]
  {
    FrameBounds(buf, start, end);
  }

  /** The clip lasts at most the trimmed time, and less than one frame less. */
  lemma ClipDuration(buf: AudioBuffer, start: real, end: real)
    requires Trimmable(buf, start, end)
    ensures Duration(Clipped(buf, start, end)) <= end - start < Duration(Clipped(buf, start, end)) + 1.0 / buf.sampleRate as real
  {
    var sr := buf.sampleRate as real;
    var len := ClipLength(start, end, buf.sampleRate) as real;
    assert len <= (end - start) * sr < len + 1.0;
    assert Duration(Clipped(buf, start, end)) == len / sr;
    ScaleBack(len, end - start, sr);
  }

  /** A whole number of frames within one of d seconds' worth lasts within one frame's time of d. */
  lemma ScaleBack(len: real, d: real, sr: real)
    requires sr > 0.0 && len <= d * sr < len + 1.0
    ensures len / sr <= d < len / sr + 1.0 / sr
  {
    assert (len / sr) * sr == len;
    assert (len / sr + 1.0 / sr) * sr == len + 1.0;
  }

  // ---------------------------------------------------------------- dragging

  datatype Handle = StartHandle | EndHandle

  /** The time under the pointer: the position clamped into the waveform, scaled to the duration. */
  function TimeAt(x: real, width: real, duration: real): (t: real)
    requires width > 0.0 && duration >= 0.0
    ensures 0.0 <= t <= duration
  {
    var pos := if x < 0.0 then 0.0 else if x > width then width else x;
    assert 0.0 <= pos / width <= 1.0;
    pos / width * duration
  }

  // ---------------------------------------------------------------- the page

  class Recorder {
    var audio: Option<AudioBuffer>
    var previous: Option<AudioBuffer>
    var clipStart: real
    var clipEnd: real
    var dragging: Option<Handle>
    /** What the preview player plays. */
    var preview: seq<byte>
    var applyEnabled: bool
    var undoEnabled: bool
    var downloadEnabled: bool

    /**
     * The trim lies within the recording, start first; without a recording both points are 0.
     * Apply and download are enabled exactly while there is a recording; undo only while a
     * buffer is saved and a recording is shown.
     */
    ghost predicate Valid()
      reads this
    {
      (audio.Some? ==> WellFormed(audio.value) && 0.0 <= clipStart <= clipEnd <= Duration(audio.value)) &&
      (audio.None? ==> clipStart == 0.0 && clipEnd == 0.0) &&
      (previous.Some? ==> WellFormed(previous.value)) &&
      applyEnabled == audio.Some? && downloadEnabled == audio.Some? &&
      (undoEnabled ==> previous.Some? && audio.Some?)
    }

    constructor ()
      ensures Valid() && audio.None? && previous.None? && dragging.None? && preview == []
    {
      audio, previous := None, None;
      clipStart, clipEnd := 0.0, 0.0;
      dragging := None;
      preview := [];
      applyEnabled, undoEnabled, downloadEnabled := false, false, false;
    }

    /** Stop: the decoded recording becomes the buffer, trimmed to all of it; the saved buffer stays. */
    method Stop(decoded: AudioBuffer, recorded: seq<byte>)
      requires Valid() && WellFormed(decoded)
      modifies this
      ensures Valid()
      ensures audio == Some(decoded) && clipStart == 0.0 && clipEnd == Duration(decoded)
      ensures previous == old(previous) && dragging == old(dragging) && preview == recorded
      ensures applyEnabled && !undoEnabled && downloadEnabled
    {
      audio := Some(decoded);
      clipStart, clipEnd := 0.0, Duration(decoded);
      applyEnabled, undoEnabled, downloadEnabled := true, false, true;
      preview := recorded;
    }

    /** Start over: no recording, no saved buffer, both trim points 0. */
    method StartOver()
      requires Valid()
      modifies this
      ensures Valid()
      ensures audio.None? && previous.None? && clipStart == 0.0 && clipEnd == 0.0
      ensures dragging == old(dragging) && preview == []
      ensures !applyEnabled && !undoEnabled && !downloadEnabled
    {
      audio, previous := None, None;
      clipStart, clipEnd := 0.0, 0.0;
      preview := [];
      applyEnabled, undoEnabled, downloadEnabled := false, false, false;
    }

    /**
     * Apply clip: with a recording and start < end, saves the buffer and
     * replaces it by the clip, trimmed to all of it. A clip shorter than one
     * frame makes createBuffer throw after the buffer was saved.
     */
    method ApplyClip()
      requires Valid()
      modifies this
      ensures Valid()
      ensures dragging == old(dragging) && applyEnabled == old(applyEnabled) && downloadEnabled == old(downloadEnabled)
      ensures (old(audio).None? || old(clipStart) >= old(clipEnd)) ==>
        audio == old(audio) && previous == old(previous) && clipStart == old(clipStart) && clipEnd == old(clipEnd) &&
        preview == old(preview) && undoEnabled == old(undoEnabled)
      ensures (old(audio).Some? && old(clipStart) < old(clipEnd) && !Trimmable(old(audio).value, old(clipStart), old(clipEnd))) ==>
        previous == old(audio) && audio == old(audio) && clipStart == old(clipStart) && clipEnd == old(clipEnd) &&
        preview == old(preview) && undoEnabled == old(undoEnabled)
      ensures (old(audio).Some? && Trimmable(old(audio).value, old(clipStart), old(clipEnd))) ==>
        previous == old(audio) && audio == Some(Clipped(old(audio).value, old(clipStart), old(clipEnd))) &&
        clipStart == 0.0 && clipEnd == Duration(audio.value) && preview == WavBytes(audio.value) && undoEnabled
    {
      if audio.None? || clipStart >= clipEnd {
        return;
      }
      var buf := audio.value;
      previous := audio;
      var length := ClipLength(clipStart, clipEnd, buf.sampleRate);
      if length < 1 {
        return;
      }
      assert Trimmable(buf, clipStart, clipEnd);
      var clip := Clip(buf, clipStart, clipEnd, length);
      ClipIsSlice(buf, clipStart, clipEnd);
      Show(clip);
      undoEnabled := true;
    }

    /** What apply-clip and undo do with their new buffer: trim to all of it and preview its WAV file. */
    method Show(buf: AudioBuffer)
      requires WellFormed(buf)
      modifies this
      ensures audio == Some(buf) && clipStart == 0.0 && clipEnd == Duration(buf) && preview == WavBytes(buf)
      ensures 0.0 <= clipEnd
      ensures previous == old(previous) && dragging == old(dragging)
      ensures applyEnabled == old(applyEnabled) && undoEnabled == old(undoEnabled) && downloadEnabled == old(downloadEnabled)
    {
      audio := Some(buf);
      clipStart, clipEnd := 0.0, Duration(buf);
      assert 0.0 <= clipEnd by {
        assert 0.0 <= buf.length as real / buf.sampleRate as real;
      }
      var wav := EncodeWav(buf);
      preview := wav[..];
    }

    /** The new buffer of apply-clip, built by createBuffer and one copyToChannel per channel. */
    static method Clip(buf: AudioBuffer, start: real, end: real, length: int) returns (clip: AudioBuffer)
      requires Trimmable(buf, start, end) && length == ClipLength(start, end, buf.sampleRate)
      ensures clip == Clipped(buf, start, end)
    {
      FrameBounds(buf, start, end);
      var from := (start * buf.sampleRate as real).Floor;
      var to := (end * buf.sampleRate as real).Floor;
      var data := CopyChannels(buf, from, to, length);
      clip := AudioBuffer(data, buf.sampleRate, length);
      ghost var r := Clipped(buf, start, end);
      assert from == FrameAt(start, buf.sampleRate) && to == FrameAt(end, buf.sampleRate);
      assert r.data == seq(|buf.data|, c requires 0 <= c < |buf.data| => CopyToChannel(buf.data[c][from..to], length));
      assert |r.data| == |data|;
      forall c | 0 <= c < |data|
        ensures data[c] == r.data[c]
      {
      }
    }

    /** The channel loop of apply-clip: channel ch of the new buffer is the slice [from, to) of channel ch, copied in. */
    static method CopyChannels(buf: AudioBuffer, from: int, to: int, length: nat) returns (data: seq<seq<real>>)
      requires WellFormed(buf) && 0 <= from <= to <= buf.length
      ensures |data| == |buf.data|
      ensures forall c :: 0 <= c < |data| ==> data[c] == CopyToChannel(buf.data[c][from..to], length)
    {
      data := [];
      for ch := 0 to |buf.data|
        invariant |data| == ch
        invariant forall c :: 0 <= c < ch ==> data[c] == CopyToChannel(buf.data[c][from..to], length)
      {
        var channelData := buf.data[ch][from..to];
        data := data + [CopyToChannel(channelData, length)];
      }
    }

    /**
     * A press on undo: while the button is disabled the press does nothing, even with a
     * buffer still saved (a new take disables it); otherwise the saved buffer comes back,
     * trimmed to all of it, and is no longer saved.
     */
    method Undo()
      requires Valid()
      modifies this
      ensures Valid()
      ensures dragging == old(dragging) && applyEnabled == old(applyEnabled) && downloadEnabled == old(downloadEnabled)
      ensures (!old(undoEnabled) || old(previous).None?) ==>
        audio == old(audio) && previous == old(previous) && clipStart == old(clipStart) && clipEnd == old(clipEnd) &&
        preview == old(preview) && undoEnabled == old(undoEnabled)
      ensures (old(undoEnabled) && old(previous).Some?) ==>
        audio == old(previous) && previous.None? && clipStart == 0.0 && clipEnd == Duration(audio.value) &&
        preview == WavBytes(audio.value) && !undoEnabled
    {
      if !undoEnabled || previous.None? {
        return;
      }
      var saved := previous.value;
      previous := None;
      Show(saved);
      undoEnabled := false;
    }

    /** A press on a handle starts dragging it. */
    method Press(handle: Handle)
      requires Valid()
      modifies this
      ensures Valid() && dragging == Some(handle)
      ensures audio == old(audio) && previous == old(previous) && clipStart == old(clipStart) && clipEnd == old(clipEnd)
    {
      dragging := Some(handle);
    }

    /** Releasing the pointer ends any drag. */
    method Release()
      requires Valid()
      modifies this
      ensures Valid() && dragging.None?
      ensures audio == old(audio) && previous == old(previous) && clipStart == old(clipStart) && clipEnd == old(clipEnd)
    {
      dragging := None;
    }

    /**
     * A pointer move at x pixels from the waveform's left edge: the start
     * handle moves to the time under the pointer but not past the end, the
     * end handle likewise but not before the start.
     */
    method Drag(x: real, width: real)
      requires Valid() && width > 0.0
      modifies this
      ensures Valid()
      ensures audio == old(audio) && previous == old(previous) && dragging == old(dragging) && preview == old(preview)
      ensures (old(dragging).None? || old(audio).None?) ==> clipStart == old(clipStart) && clipEnd == old(clipEnd)
      ensures (old(dragging) == Some(StartHandle) && old(audio).Some?) ==>
        var t := TimeAt(x, width, Duration(audio.value));
        clipEnd == old(clipEnd) && clipStart == (if t <= clipEnd then t else clipEnd)
      ensures (old(dragging) == Some(EndHandle) && old(audio).Some?) ==>
        var t := TimeAt(x, width, Duration(audio.value));
        clipStart == old(clipStart) && clipEnd == (if t >= clipStart then t else clipStart)
    {
      if dragging.None? || audio.None? {
        return;
      }
      var time := TimeAt(x, width, Duration(audio.value));
      if dragging == Some(StartHandle) {
        clipStart := if time < clipEnd then time else clipEnd;
      } else {
        clipEnd := if time > clipStart then time else clipStart;
      }
    }

    /** Download: the WAV file of the current buffer is what gets sent for conversion. */
    method Download() returns (upload: Option<seq<byte>>)
      requires Valid()
      ensures audio.None? ==> upload.None?
      ensures audio.Some? ==> upload == Some(WavBytes(audio.value))
    {
      if audio.None? {
        return None;
      }
      var wav := EncodeWav(audio.value);
      return Some(wav[..]);
    }
  }
}
