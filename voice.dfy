/**
 * The speech-input component (`VoiceRecorder`): the support check at
 * mount, the `isRecording` flag driven by the recognizer's start, error and
 * end events, the guarded start and stop buttons, and the folding of a
 * result event into final and interim transcripts.
 *
 * The Speech API is modelled by what the component sees of it: a result
 * list whose entries carry `isFinal` and the transcript of their first
 * alternative, and the calls the component makes on its recognizer.
 */
module Voice {
  import opened Wrappers

  /** One entry of `event.results`: `isFinal` and `result[0].transcript`. */
  datatype SpeechResult = SpeechResult(isFinal: bool, transcript: string)

  /** A call the component makes on its recognizer. */
  datatype RecognizerCall = Start | Stop | Abort

  /** The transcripts of the results whose `isFinal` equals `final`, concatenated in index order. */
  function Collect(rs: seq<SpeechResult>, final: bool): string
  {
    if rs == [] then ""
    else
      var last := rs[|rs| - 1];
      Collect(rs[..|rs| - 1], final) + (if last.isFinal == final then last.transcript else "")
  }

  /** Collecting distributes over concatenation of result lists. */
  lemma {:induction false} CollectAppend(a: seq<SpeechResult>, b: seq<SpeechResult>, final: bool)
    ensures Collect(a + b, final) == Collect(a, final) + Collect(b, final)
    decreases |b|
  {
    if b == [] {
      assert a + b == a;
    } else {
      var b' := b[..|b| - 1];
      assert (a + b)[..|a + b| - 1] == a + b';
      CollectAppend(a, b', final);
    }
  }

  /** Every result goes to exactly one of the two transcripts. */
  lemma {:induction false} CollectPartition(rs: seq<SpeechResult>)
    ensures |Collect(rs, true)| + |Collect(rs, false)| == TotalLength(rs)
    decreases |rs|
  {
    if rs != [] {
      CollectPartition(rs[..|rs| - 1]);
    }
  }

  function TotalLength(rs: seq<SpeechResult>): nat
  {
    if rs == [] then 0 else TotalLength(rs[..|rs| - 1]) + |rs[|rs| - 1].transcript|
  }

  /** A list that is all final (or all interim) contributes nothing to the other transcript. */
  lemma {:induction false} CollectOthers(rs: seq<SpeechResult>, final: bool)
    requires forall i :: 0 <= i < |rs| ==> rs[i].isFinal == final
    ensures Collect(rs, !final) == ""
    decreases |rs|
  {
    if rs != [] {
      CollectOthers(rs[..|rs| - 1], final);
    }
  }

  /** The results the loop visits: from `resultIndex` to the end, none if it is past the end. */
  function Unprocessed(results: seq<SpeechResult>, resultIndex: nat): seq<SpeechResult>
  {
    if resultIndex <= |results| then results[resultIndex..] else []
  }

  /** Results before `resultIndex` play no part: lists that agree from there on fold alike. */
  lemma EarlierResultsIgnored(r1: seq<SpeechResult>, r2: seq<SpeechResult>, resultIndex: nat)
    requires |r1| == |r2|
    requires forall i :: resultIndex <= i < |r1| ==> r1[i] == r2[i]
    ensures Unprocessed(r1, resultIndex) == Unprocessed(r2, resultIndex)
  {
  }

  /** The `for` loop of `onresult`: the final and the interim transcripts of the unprocessed results. */
  method FoldResults(results: seq<SpeechResult>, resultIndex: nat) returns (final: string, interim: string)
    ensures final == Collect(Unprocessed(results, resultIndex), true)
    ensures interim == Collect(Unprocessed(results, resultIndex), false)
  {
    final, interim := "", "";
    var i := resultIndex;
    while i < |results|
      invariant resultIndex <= i
      invariant resultIndex <= |results| ==> i <= |results|
      invariant resultIndex <= |results| ==> final == Collect(results[resultIndex..i], true)
      invariant resultIndex <= |results| ==> interim == Collect(results[resultIndex..i], false)
      invariant resultIndex > |results| ==> final == "" && interim == ""
    {
      var result := results[i];
      assert results[resultIndex..i + 1][..i - resultIndex] == results[resultIndex..i];
      if result.isFinal {
        final := final + result.transcript;
      } else {
        interim := interim + result.transcript;
      }
      i := i + 1;
    }
    if resultIndex <= |results| {
      assert results[resultIndex..i] == results[resultIndex..];
    }
  }

  class VoiceRecorder {
    /** Both speech recognition and speech synthesis are available. */
    const isSupported: bool
    /** `recognitionRef.current` is set. */
    const hasRecognizer: bool
    /** `synthesisRef.current` is set. */
    const hasSynthesizer: bool
    var isRecording: bool
    var transcript: string
    /** The calls made on the recognizers, in order. */
    var calls: seq<RecognizerCall>
    /** How many recognizers the mount effect has constructed. */
    var recognizers: nat

    /** A recognizer (and a synthesizer) exists exactly when voice is supported. */
    predicate Valid()
      reads this
    {
      hasRecognizer == isSupported && hasSynthesizer == isSupported
    }

    /** The mount effect: the support check, and a recognizer only when supported. */
    constructor (recognitionAvailable: bool, synthesisAvailable: bool)
      ensures Valid()
      ensures isSupported == (recognitionAvailable && synthesisAvailable)
      ensures !isRecording && transcript == "" && calls == []
      ensures recognizers == (if isSupported then 1 else 0)
    {
      var supported := recognitionAvailable && synthesisAvailable;
      isSupported := supported;
      hasRecognizer := supported;
      hasSynthesizer := supported;
      isRecording := false;
      transcript := "";
      calls := [];
      recognizers := if supported then 1 else 0;
    }

    /** `startRecording`: start the recognizer only if there is one and it is not recording. */
    method StartRecording()
      requires Valid()
      modifies this
      ensures Valid() && isRecording == old(isRecording) && transcript == old(transcript) && recognizers == old(recognizers)
      ensures calls == old(calls) + (if hasRecognizer && !old(isRecording) then [Start] else [])
      ensures !isSupported ==> calls == old(calls)
    {
      if hasRecognizer && !isRecording {
        calls := calls + [Start];
      }
    }

    /** `stopRecording`: stop the recognizer only if there is one and it is recording. */
    method StopRecording()
      requires Valid()
      modifies this
      ensures Valid() && isRecording == old(isRecording) && transcript == old(transcript) && recognizers == old(recognizers)
      ensures calls == old(calls) + (if hasRecognizer && old(isRecording) then [Stop] else [])
      ensures !isSupported ==> calls == old(calls)
    {
      if hasRecognizer && isRecording {
        calls := calls + [Stop];
      }
    }

    /** `onstart`: recording, with the transcript cleared. */
    method OnStart()
      requires Valid() && hasRecognizer
      modifies this
      ensures Valid() && isRecording && transcript == "" && calls == old(calls) && recognizers == old(recognizers)
    {
      isRecording := true;
      transcript := "";
    }

    /**
     * `onresult`: fold the results from `resultIndex` on, show the final
     * transcript if there is one and the interim one otherwise, and hand the
     * final transcript to `onTranscript` exactly when it is not empty.
     */
    method OnResult(results: seq<SpeechResult>, resultIndex: nat) returns (emitted: Option<string>)
      requires Valid() && hasRecognizer
      modifies this
      ensures Valid() && isRecording == old(isRecording) && calls == old(calls) && recognizers == old(recognizers)
      ensures var final := Collect(Unprocessed(results, resultIndex), true);
        var interim := Collect(Unprocessed(results, resultIndex), false);
        && (final != "" ==> transcript == final && emitted == Some(final))
        && (final == "" ==> transcript == interim && emitted == None)
    {
      var final, interim := FoldResults(results, resultIndex);
      transcript := if final != "" then final else interim;
      emitted := if final != "" then Some(final) else None;
    }

    /** `onerror`: no longer recording (the toast is left out). */
    method OnError()
      requires Valid() && hasRecognizer
      modifies this
      ensures Valid() && !isRecording && transcript == old(transcript) && calls == old(calls) && recognizers == old(recognizers)
    {
      isRecording := false;
    }

    /** `onend`: no longer recording. */
    method OnEnd()
      requires Valid() && hasRecognizer
      modifies this
      ensures Valid() && !isRecording && transcript == old(transcript) && calls == old(calls) && recognizers == old(recognizers)
    {
      isRecording := false;
    }

    /** The effect's cleanup: abort the recognizer if there is one. */
    method Unmount()
      requires Valid()
      modifies this
      ensures Valid() && isRecording == old(isRecording) && transcript == old(transcript)
      ensures calls == old(calls) + (if hasRecognizer then [Abort] else [])
      ensures recognizers == old(recognizers)
    {
      if hasRecognizer {
        calls := calls + [Abort];
      }
    }

    /**
     * The effect runs again because its `onTranscript` dependency changed:
     * the cleanup aborts the current recognizer, and the effect repeats the
     * support check and constructs a fresh recognizer. The React state
     * (`isRecording`, `transcript`) survives.
     */
    method Remount()
      requires Valid()
      modifies this
      ensures Valid() && isRecording == old(isRecording) && transcript == old(transcript)
      ensures calls == old(calls) + (if hasRecognizer then [Abort] else [])
      ensures recognizers == old(recognizers) + (if isSupported then 1 else 0)
    {
      if hasRecognizer {
        calls := calls + [Abort];
      }
      if isSupported {
        recognizers := recognizers + 1;
      }
    }
  }
}
