/**
 * The voice recorder (`components/voice-recorder.tsx`): a recording keeps a
 * microphone stream, an audio context, a media recorder and a one-second
 * timer; stopping releases them; the recorded audio is handed to the
 * transcriber, and a transcript that is not blank reaches the composer
 * trimmed. The elapsed time is shown as minutes and two-digit seconds.
 *
 * The browser objects are modelled by whether their references are set;
 * the microphone permission, the recorded audio and the transcriber's
 * answer are parameters.
 */
module VoiceRecorder {
  import opened Wrappers
  import opened Text

  /** `formatDuration`: whole minutes, a colon, and the remaining seconds padded to two digits. */
  function FormatDuration(seconds: nat): (r: string)
    ensures |r| == |NatToString(seconds / 60)| + 3 && r[|r| - 3] == ':'
  {
    LessThanSixtyHasTwoDigits(seconds % 60);
    NatToString(seconds / 60) + ":" + PadStart(NatToString(seconds % 60), 2, '0')
  }

  /** A number below 60 takes one or two decimal digits. */
  lemma LessThanSixtyHasTwoDigits(n: nat)
    requires n < 60
    ensures |NatToString(n)| <= 2
  {
    if n >= 10 {
      assert NatToString(n) == ToRadix(n / 10, 10) + [DigitChar(n % 10)];
    }
  }

  /** Reads `minutes:seconds` back as a number of seconds. */
  function ReadDuration(text: string): Option<nat> {
    var parts := Split(text, ':');
    if |parts| == 2 then Some(RadixValue(parts[0], 10) * 60 + RadixValue(parts[1], 10)) else None
  }

  /** A leading zero does not change the value of a digit string. */
  lemma {:induction false} LeadingZero(s: string, radix: Radix)
    ensures RadixValue("0" + s, radix) == RadixValue(s, radix)
    decreases |s|
  {
    if s != [] {
      var t := "0" + s;
      assert t[..|t| - 1] == "0" + s[..|s| - 1];
      LeadingZero(s[..|s| - 1], radix);
    }
  }

  /** Decimal digits contain no colon. */
  lemma DigitsHaveNoColon(s: string)
    requires forall i :: 0 <= i < |s| ==> IsDigit(s[i], 10)
    ensures ':' !in s
  {
  }

  /** The shown duration splits at its colon into the minutes and the padded seconds. */
  lemma DurationParts(seconds: nat)
    ensures Split(FormatDuration(seconds), ':') ==
      [NatToString(seconds / 60), PadStart(NatToString(seconds % 60), 2, '0')]
  {
    var mins, padded := NatToString(seconds / 60), PadStart(NatToString(seconds % 60), 2, '0');
    DigitsHaveNoColon(mins);
    DigitsHaveNoColon(padded);
    SplitConcat(mins, padded, ':');
    SplitNoSeparator(mins, ':');
    SplitNoSeparator(padded, ':');
    assert FormatDuration(seconds) == mins + [':'] + padded;
  }

  /** The seconds part has two digits and reads back as the seconds. */
  lemma PaddedSeconds(n: nat)
    requires n < 60
    ensures |PadStart(NatToString(n), 2, '0')| == 2
    ensures RadixValue(PadStart(NatToString(n), 2, '0'), 10) == n
  {
    var secs := NatToString(n);
    LessThanSixtyHasTwoDigits(n);
    ToRadixRoundTrip(n, 10);
    if |secs| < 2 {
      assert PadStart(secs, 2, '0') == "0" + secs;
      LeadingZero(secs, 10);
    }
  }

  /**
   * The shown duration reads back as the elapsed seconds: the minutes
   * times 60 plus the seconds part, which is below 60.
   */
  lemma FormatDurationRoundTrip(seconds: nat)
    ensures ReadDuration(FormatDuration(seconds)) == Some(seconds)
    ensures var parts := Split(FormatDuration(seconds), ':');
      |parts| == 2 && |parts[1]| == 2 && RadixValue(parts[1], 10) < 60
  {
    DurationParts(seconds);
    PaddedSeconds(seconds % 60);
    ToRadixRoundTrip(seconds / 60, 10);
  }

  /** What a transcription attempt ends with. */
  datatype Transcribed = Delivered(text: string) | NoSpeech | TranscriptionFailed

  class Recorder {
    var isRecording: bool
    var isTranscribing: bool
    var duration: nat
    var audioLevel: real
    /** Whether each reference holds its browser object. */
    var hasMediaRecorder: bool
    var hasAudioContext: bool
    var hasAnalyser: bool
    var hasStream: bool
    var hasInterval: bool
    var hasAnimation: bool
    /** The sizes of the recorded chunks. */
    var chunks: seq<nat>

    constructor ()
      ensures !isRecording && !isTranscribing && duration == 0 && audioLevel == 0.0
      ensures !hasMediaRecorder && !hasAudioContext && !hasAnalyser && !hasStream && !hasInterval && !hasAnimation
      ensures chunks == []
    {
      isRecording, isTranscribing, duration, audioLevel := false, false, 0, 0.0;
      hasMediaRecorder, hasAudioContext, hasAnalyser, hasStream, hasInterval, hasAnimation := false, false, false, false, false, false;
      chunks := [];
    }

    /**
     * `startRecording`: with microphone access, every resource is set up,
     * the chunks are emptied, the duration restarts at 0 and the timer runs;
     * the first level reading is taken, but no animation frame is requested
     * because the level callback sees the recording flag of the render
     * before the start. Without access nothing changes.
     */
    method Start(granted: bool, firstLevel: real)
      modifies this
      ensures granted ==>
        && isRecording && duration == 0 && chunks == [] && audioLevel == firstLevel
        && hasStream && hasAudioContext && hasAnalyser && hasMediaRecorder && hasInterval
        && hasAnimation == old(hasAnimation) && isTranscribing == old(isTranscribing)
      ensures !granted ==>
        && isRecording == old(isRecording) && duration == old(duration) && chunks == old(chunks)
        && audioLevel == old(audioLevel) && hasStream == old(hasStream) && hasAudioContext == old(hasAudioContext)
        && hasAnalyser == old(hasAnalyser) && hasMediaRecorder == old(hasMediaRecorder)
        && hasInterval == old(hasInterval) && hasAnimation == old(hasAnimation) && isTranscribing == old(isTranscribing)
    {
      if !granted {
        return;
      }
      hasStream := true;
      hasAudioContext := true;
      hasAnalyser := true;
      hasMediaRecorder := true;
      chunks := [];
      isRecording := true;
      duration := 0;
      hasInterval := true;
      audioLevel := firstLevel;
    }

    /** One tick of the one-second timer. */
    method Tick()
      modifies this`duration
      ensures duration == old(duration) + 1
    {
      duration := duration + 1;
    }

    /** `ondataavailable`: only chunks with data are kept, in order. */
    method DataAvailable(size: nat)
      modifies this`chunks
      ensures size > 0 ==> chunks == old(chunks) + [size]
      ensures size == 0 ==> chunks == old(chunks)
    {
      if size > 0 {
        chunks := chunks + [size];
      }
    }

    /**
     * `stopRecording`, with the recording flag its closure saw: the recorder
     * is stopped (which starts the transcription) only when there is one and
     * the flag was set; the stream, the audio context, the timer and the
     * animation frame are released; recording ends with the level at 0. The
     * recorder and analyser references are kept.
     */
    method Stop(seenRecording: bool) returns (stopsRecorder: bool)
      modifies this
      ensures stopsRecorder <==> old(hasMediaRecorder) && seenRecording
      ensures !isRecording && audioLevel == 0.0
      ensures !hasStream && !hasAudioContext && !hasInterval && !hasAnimation
      ensures hasMediaRecorder == old(hasMediaRecorder) && hasAnalyser == old(hasAnalyser)
      ensures duration == old(duration) && chunks == old(chunks) && isTranscribing == old(isTranscribing)
    {
      stopsRecorder := hasMediaRecorder && seenRecording;
      hasStream := false;
      hasAudioContext := false;
      hasInterval := false;
      hasAnimation := false;
      isRecording := false;
      audioLevel := 0.0;
    }

    /**
     * `handleTranscription`, with the transcriber's answer (`None` when it
     * throws): a transcript that is not blank is delivered trimmed; a blank
     * one and a failure deliver nothing; the spinner is off afterwards.
     */
    method HandleTranscription(answer: Option<string>) returns (result: Transcribed)
      modifies this`isTranscribing
      ensures !isTranscribing
      ensures result.Delivered? <==> answer.Some? && Trim(answer.value) != ""
      ensures result.Delivered? ==> result.text == Trim(answer.value) && Trimmed(result.text) && result.text != ""
      ensures result == TranscriptionFailed <==> answer.None?
    {
      isTranscribing := true;
      if answer.None? {
        result := TranscriptionFailed;
      } else if Trim(answer.value) != "" {
        result := Delivered(Trim(answer.value));
      } else {
        result := NoSpeech;
      }
      isTranscribing := false;
    }
  }
}
