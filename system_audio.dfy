/** The system-audio panel: it checks that a source and a speech-to-text
    provider are configured before capture starts, and when a recording comes
    back it transcribes it and appends the text to the prompt input. The
    transcription service is an input: what it answers for a recording. */
module SystemAudio {
  import opened Base
  import opened AudioCapture

  const NoSourceError: string := "Please select an audio source first."
  const NoProviderError: string := "Please configure a speech-to-text provider in settings first."
  const ProviderMissingError: string := "Speech provider configuration not found. Please check your settings."
  const TranscribeError: string := "Failed to transcribe audio. Please try again."

  /** The provider chosen in the settings, by id, with its key ("" when unset). */
  datatype SttSelection = SttSelection(provider: string, apiKey: string)

  /** A known provider configuration. */
  datatype SttConfig = SttConfig(id: string, baseUrl: string, endpoint: string)

  /** What the transcription call gives: a text, or a thrown error. */
  datatype Transcription = Transcribed(text: string) | TranscriptionFailed

  /** The part of the completion state the panel writes, and its own flag. */
  datatype PanelState = PanelState(input: string, error: Option<string>, isTranscribing: bool)

  /** The checks before capture, in their order: a source, then a provider
      and a key. `None` means capture may start. */
  function StartGuard(selectedDevice: string, sel: SttSelection): (e: Option<string>)
    ensures selectedDevice == "" ==> e == Some(NoSourceError)
    ensures selectedDevice != "" && (sel.provider == "" || sel.apiKey == "") ==> e == Some(NoProviderError)
    ensures e.None? <==> selectedDevice != "" && sel.provider != "" && sel.apiKey != ""
  {
    if selectedDevice == "" then Some(NoSourceError)
    else if sel.provider == "" || sel.apiKey == "" then Some(NoProviderError)
    else None
  }

  /** `allSttProviders.find`: the first configuration with the id. */
  function FindProvider(ps: seq<SttConfig>, id: string): (r: Option<SttConfig>)
    ensures r.Some? ==> r.value in ps && r.value.id == id
    ensures r.None? ==> forall i :: 0 <= i < |ps| ==> ps[i].id != id
  {
    if ps == [] then None
    else if ps[0].id == id then Some(ps[0])
    else FindProvider(ps[1..], id)
  }

  /** The found configuration is the one at the least index with the id. */
  lemma {:induction false} FindProviderFirst(ps: seq<SttConfig>, id: string, i: nat)
    requires i < |ps| && ps[i].id == id
    ensures exists j :: 0 <= j <= i && ps[j].id == id && (forall k :: 0 <= k < j ==> ps[k].id != id)
                        && FindProvider(ps, id) == Some(ps[j])
    decreases i
  {
    if ps[0].id == id {
      assert FindProvider(ps, id) == Some(ps[0]);
    } else {
      FindProviderFirst(ps[1..], id, i - 1);
      var j :| 0 <= j <= i - 1 && ps[1..][j].id == id && (forall k :: 0 <= k < j ==> ps[1..][k].id != id)
               && FindProvider(ps[1..], id) == Some(ps[1..][j]);
      assert ps[1..][j] == ps[j + 1];
      forall k | 0 <= k < j + 1
        ensures ps[k].id != id
      {
        if k > 0 {
          assert ps[1..][k - 1] == ps[k];
        }
      }
    }
  }

  /** The prompt after a transcription: a non-empty text is appended, after a
      space when there is text already; an empty one changes nothing. */
  function AppendTranscript(input: string, t: string): (r: string)
    ensures t == "" ==> r == input
    ensures |r| == |input| + |t| + (if input != "" && t != "" then 1 else 0)
    ensures input <= r && r[|r| - |t|..] == t
    ensures input != "" && t != "" ==> r[|input|] == ' '
  {
    if t == "" then input
    else input + (if input != "" then " " else "") + t
  }

  /** Two recordings transcribed into an empty prompt read as their texts
      separated by one space. */
  lemma AppendTwo(a: string, b: string)
    requires a != "" && b != ""
    ensures AppendTranscript(AppendTranscript("", a), b) == a + " " + b
  {
    assert "" + "" + a == a;
  }

  /** The callback run with a finished recording of `blobSize` bytes. */
  function OnRecording(s: PanelState, blobSize: nat, providers: seq<SttConfig>, sel: SttSelection,
                       answer: Transcription): (t: PanelState)
    ensures blobSize == 0 ==> t == s
    ensures blobSize > 0 ==> !t.isTranscribing
    ensures blobSize > 0 && FindProvider(providers, sel.provider).None? ==>
              t == s.(error := Some(ProviderMissingError), isTranscribing := false)
    ensures blobSize > 0 && FindProvider(providers, sel.provider).Some? ==>
              match answer
              case Transcribed(text) => t == s.(input := AppendTranscript(s.input, text), isTranscribing := false)
              case TranscriptionFailed => t == s.(error := Some(TranscribeError), isTranscribing := false)
  {
    if blobSize == 0 then s
    else if FindProvider(providers, sel.provider).None? then
      s.(error := Some(ProviderMissingError), isTranscribing := false)
    else match answer
      case Transcribed(text) => s.(input := AppendTranscript(s.input, text), isTranscribing := false)
      case TranscriptionFailed => s.(error := Some(TranscribeError), isTranscribing := false)
  }

  /** A capture stopped before any audio arrived hands over an empty recording,
      and the panel then does nothing at all. */
  lemma SilentCaptureTranscribesNothing(c: CaptureState, last: Chunk, s: PanelState, providers: seq<SttConfig>,
                                        sel: SttSelection, answer: Transcription)
    requires Coherent(c) && c.hasRecorder && c.isCapturing && c.hasCallback
    requires c.chunks == [] && last.size == 0
    ensures OnRecording(s, BlobSize(Stop(c, last).delivered[|c.delivered|]), providers, sel, answer) == s
  {
    DeliveredSize(c, last);
  }

  /** The panel's state updates and its start handler. */
  class Panel {
    var input: string
    var error: Option<string>
    var isTranscribing: bool

    function State(): PanelState
      reads this
    {
      PanelState(input, error, isTranscribing)
    }

    constructor (input: string)
      ensures State() == PanelState(input, None, false)
    {
      this.input, error, isTranscribing := input, None, false;
    }

    /** `handleStartCapture`: report the first missing setting, or start
        capturing with the transcription callback. */
    method HandleStartCapture(capture: CaptureHook, sel: SttSelection, outcome: StartOutcome)
      requires capture.Valid()
      modifies this`error, capture
      ensures capture.Valid()
      ensures StartGuard(old(capture.selectedDevice), sel).Some? ==>
                State() == old(State()).(error := StartGuard(old(capture.selectedDevice), sel))
                && capture.State() == old(capture.State())
      ensures StartGuard(old(capture.selectedDevice), sel).None? ==>
                State() == old(State()) && capture.State() == Start(old(capture.State()), outcome, true)
    {
      if capture.selectedDevice == "" {
        error := Some(NoSourceError);
        return;
      }
      if sel.provider == "" || sel.apiKey == "" {
        error := Some(NoProviderError);
        return;
      }
      capture.StartCapture(outcome, true);
    }

    /** `handleStopCapture`. */
    method HandleStopCapture(capture: CaptureHook, last: Chunk)
      requires capture.Valid()
      modifies capture
      ensures capture.Valid()
      ensures capture.State() == Stop(old(capture.State()), last)
    {
      capture.StopCapture(last);
    }

    /** The transcription callback; `isTranscribing` is reset on every path
        once it has been set. */
    method OnAudioData(blob: seq<Chunk>, providers: seq<SttConfig>, sel: SttSelection, answer: Transcription)
      modifies this
      ensures State() == OnRecording(old(State()), BlobSize(blob), providers, sel, answer)
    {
      if BlobSize(blob) > 0 {
        isTranscribing := true;
        var config := FindProvider(providers, sel.provider);
        if config.None? {
          error := Some(ProviderMissingError);
          isTranscribing := false;
          return;
        }
        match answer {
          case Transcribed(text) =>
            if text != "" {
              input := input + (if input != "" then " " else "") + text;
            }
          case TranscriptionFailed =>
            error := Some(TranscribeError);
        }
        isTranscribing := false;
      }
    }
  }
}
