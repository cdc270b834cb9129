/** The input box's logic: the submit guard shared by the send button and
    the Enter key, the accumulation of speech-recognition results into the
    input, and the recording flag. */
module ChatInput {
  import opened Js
  import opened Text
  import opened Store

  /** The input after a submit attempt, and the text handed to `onSend`, if any. */
  datatype Submission = Submission(input: string, sent: Option<string>)

  /** `handleSubmit`: a non-blank input is sent trimmed and cleared, unless a
      reply is loading; otherwise nothing happens. */
  function Submit(input: string, isLoading: bool): (r: Submission)
    ensures r.sent.Some? <==> !IsBlank(input) && !isLoading
    ensures r.sent.Some? ==> r.sent.value == Trim(input) && r.input == ""
    ensures r.sent.None? ==> r.input == input
  {
    if Trim(input) != "" && !isLoading then Submission("", Some(Trim(input))) else Submission(input, None)
  }

  /** What is sent is never empty and neither starts nor ends with whitespace. */
  lemma SentTextIsTrimmed(input: string, isLoading: bool)
    ensures var r := Submit(input, isLoading);
      r.sent.Some? ==> r.sent.value != "" && !IsWhitespace(r.sent.value[0]) && !IsWhitespace(r.sent.value[|r.sent.value| - 1])
  {
  }

  /** `handleKeyDown`: Enter without Shift submits; any other key, or
      Shift+Enter, leaves the input alone. */
  function KeyDown(key: string, shiftKey: bool, input: string, isLoading: bool): (r: Submission)
    ensures key == "Enter" && !shiftKey ==> r == Submit(input, isLoading)
    ensures key != "Enter" || shiftKey ==> r == Submission(input, None)
  {
    if key == "Enter" && !shiftKey then Submit(input, isLoading) else Submission(input, None)
  }

  /** One speech-recognition result, through its first alternative. */
  datatype SpeechResult = SpeechResult(transcript: string, isFinal: bool)

  /** The final transcripts of `results`, in order, each followed by a space. */
  function FinalText(results: seq<SpeechResult>): string {
    if results == [] then ""
    else
      var last := results[|results| - 1];
      FinalText(results[..|results| - 1]) + (if last.isFinal then last.transcript + " " else "")
  }

  /** The final text of consecutive stretches of results is the final text
      of the first stretch followed by that of the second. */
  lemma {:induction false} FinalTextAppend(a: seq<SpeechResult>, b: seq<SpeechResult>)
    ensures FinalText(a + b) == FinalText(a) + FinalText(b)
    decreases |b|
  {
    if b == [] {
      assert a + b == a;
    } else {
      var n := |b|;
      var init := b[..n - 1];
      assert (a + b)[..|a + b| - 1] == a + init;
      assert (a + b)[|a + b| - 1] == b[n - 1];
      FinalTextAppend(a, init);
      var last := if b[n - 1].isFinal then b[n - 1].transcript + " " else "";
      assert FinalText(a + b) == FinalText(a + init) + last;
      assert FinalText(b) == FinalText(init) + last;
    }
  }

  /** `onresult`: the final transcripts from `resultIndex` on are appended to
      the input; interim ones are not. */
  method OnResult(input: string, results: seq<SpeechResult>, resultIndex: nat) returns (next: string)
    ensures resultIndex >= |results| ==> next == input
    ensures resultIndex < |results| ==> next == input + FinalText(results[resultIndex..])
  {
    var finalTranscript := "";
    var i := resultIndex;
    while i < |results|
      invariant resultIndex < |results| ==> resultIndex <= i <= |results| && finalTranscript == FinalText(results[resultIndex..i])
      invariant resultIndex >= |results| ==> i == resultIndex && finalTranscript == ""
      decreases |results| - i
    {
      var seen := results[resultIndex..i + 1];
      assert |seen| == i + 1 - resultIndex;
      assert seen[..|seen| - 1] == results[resultIndex..i];
      assert seen[|seen| - 1] == results[i];
      if results[i].isFinal {
        finalTranscript := finalTranscript + results[i].transcript + " ";
      }
      i := i + 1;
    }
    if resultIndex < |results| {
      assert results[resultIndex..i] == results[resultIndex..];
    }
    if finalTranscript != "" {
      next := input + finalTranscript;
    } else {
      next := input;
      assert input + finalTranscript == input;
    }
  }

  /** Interim results never reach the input: whatever an interim result
      says, the appended text is the same. */
  lemma {:induction false} InterimNeverReachesInput(results: seq<SpeechResult>, k: int, transcript: string)
    requires 0 <= k < |results| && !results[k].isFinal
    ensures FinalText(results[k := SpeechResult(transcript, false)]) == FinalText(results)
    decreases |results|
  {
    var changed := results[k := SpeechResult(transcript, false)];
    var n := |results|;
    if k < n - 1 {
      assert changed[..n - 1] == results[..n - 1][k := SpeechResult(transcript, false)];
      InterimNeverReachesInput(results[..n - 1], k, transcript);
    } else {
      assert changed[..n - 1] == results[..n - 1];
    }
  }

  /** The mic button. Without a recognizer nothing changes; with one, the
      recording flag flips (starting or stopping the recognizer). */
  function ToggleRecording(s: State, hasRecognizer: bool): (r: State)
    ensures hasRecognizer ==> r.isRecording == !s.isRecording
    ensures !hasRecognizer ==> r == s
    ensures r.(isRecording := s.isRecording) == s
  {
    if !hasRecognizer then s
    else if s.isRecording then SetRecording(s, false)
    else SetRecording(s, true)
  }

  /** The recognizer's `onerror` and `onend` events stop recording. */
  function RecognitionStopped(s: State): (r: State)
    ensures !r.isRecording && r.(isRecording := s.isRecording) == s
  {
    SetRecording(s, false)
  }
}
