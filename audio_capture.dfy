/** Audio capture for transcription: the list of sources offered to the user,
    the choice of capture source, and the recorder's chunk buffer that is
    handed over as one recording when capture stops. The browser's media
    calls are inputs: what they return or whether they throw. */
module AudioCapture {
  import opened Base

  datatype DeviceKind = AudioInput | AudioOutput | VideoInput

  /** An entry of the browser's device enumeration. */
  datatype MediaDevice = MediaDevice(deviceId: string, deviceLabel: string, kind: DeviceKind)

  /** A source offered to the user. */
  datatype AudioDevice = AudioDevice(deviceId: string, deviceLabel: string)

  const SystemAudioId: string := "system-audio"
  const SystemAudioDevice: AudioDevice := AudioDevice("system-audio", "System Audio (requires screen share)")
  const DevicesError: string := "Failed to access audio devices. Please check permissions."
  const CaptureError: string := "Failed to start audio capture. Please check permissions."

  // ---------------------------------------------------------------------
  // The source list

  /** The label shown for an input: its own, or one made from the first eight
      characters of its id when the browser gives none. */
  function DisplayLabel(d: MediaDevice): (l: string)
    ensures d.deviceLabel != "" ==> l == d.deviceLabel
    ensures d.deviceLabel == "" ==>
              var n := if |d.deviceId| < 8 then |d.deviceId| else 8;
              l == "Audio Input " + d.deviceId[..n]
  {
    if d.deviceLabel != "" then d.deviceLabel
    else "Audio Input " + d.deviceId[..if |d.deviceId| < 8 then |d.deviceId| else 8]
  }

  /** The audio inputs of an enumeration, in its order, as offered sources. */
  function AudioInputs(devices: seq<MediaDevice>): (r: seq<AudioDevice>)
    ensures |r| <= |devices|
  {
    if devices == [] then []
    else
      (if devices[0].kind == AudioInput then [AudioDevice(devices[0].deviceId, DisplayLabel(devices[0]))] else [])
      + AudioInputs(devices[1..])
  }

  /** Filtering distributes over concatenation: the order of the enumeration
      is kept. */
  lemma {:induction false} AudioInputsAppend(a: seq<MediaDevice>, b: seq<MediaDevice>)
    ensures AudioInputs(a + b) == AudioInputs(a) + AudioInputs(b)
    decreases |a|
  {
    if a == [] {
      assert a + b == b;
    } else {
      AudioInputsAppend(a[1..], b);
      assert (a + b)[1..] == a[1..] + b;
    }
  }

  /** Exactly the audio inputs are offered, each under its display label. */
  lemma {:induction false} AudioInputsMembers(devices: seq<MediaDevice>, x: AudioDevice)
    ensures x in AudioInputs(devices) <==>
              exists d :: d in devices && d.kind == AudioInput && x == AudioDevice(d.deviceId, DisplayLabel(d))
    decreases |devices|
  {
    if devices != [] {
      AudioInputsMembers(devices[1..], x);
      var d0 := devices[0];
      if x in AudioInputs(devices[1..]) {
        var d :| d in devices[1..] && d.kind == AudioInput && x == AudioDevice(d.deviceId, DisplayLabel(d));
        assert d in devices;
      }
      if exists d :: d in devices && d.kind == AudioInput && x == AudioDevice(d.deviceId, DisplayLabel(d)) {
        var d :| d in devices && d.kind == AudioInput && x == AudioDevice(d.deviceId, DisplayLabel(d));
        if d != d0 {
          assert d in devices[1..];
        }
      }
    }
  }

  /** The offered list: the audio inputs, then the screen-share source last if
      the browser can capture the screen. */
  function DeviceList(devices: seq<MediaDevice>, hasDisplayMedia: bool): (r: seq<AudioDevice>)
    ensures |r| == |AudioInputs(devices)| + (if hasDisplayMedia then 1 else 0)
    ensures r[..|AudioInputs(devices)|] == AudioInputs(devices)
    ensures hasDisplayMedia ==> r[|r| - 1] == SystemAudioDevice
  {
    AudioInputs(devices) + (if hasDisplayMedia then [SystemAudioDevice] else [])
  }

  // ---------------------------------------------------------------------
  // Capture

  /** Where the audio comes from: a screen share, or the microphone with an
      exact device id when one is selected. */
  datatype Source = DisplayCapture | MicrophoneCapture(exactDevice: Option<string>)

  function SourceFor(selected: string): (s: Source)
    ensures s.DisplayCapture? <==> selected == SystemAudioId
    ensures s.MicrophoneCapture? ==> (s.exactDevice == if selected == "" then None else Some(selected))
  {
    if selected == SystemAudioId then DisplayCapture
    else MicrophoneCapture(if selected != "" then Some(selected) else None)
  }

  /** How the browser answers a start: it refuses the source, or grants it
      but refuses to build the recorder, or recording begins. */
  datatype StartOutcome = SourceRefused | RecorderRefused | Recording

  /** A piece of recorded audio, of the given size in bytes. */
  datatype Chunk = Chunk(size: nat)

  /** The size of a recording made of the given chunks. */
  function BlobSize(chunks: seq<Chunk>): (r: nat)
    ensures chunks == [] ==> r == 0
    ensures forall i :: 0 <= i < |chunks| ==> chunks[i].size <= r
  {
    if chunks == [] then 0 else BlobSize(chunks[..|chunks| - 1]) + chunks[|chunks| - 1].size
  }

  predicate AllNonEmpty(chunks: seq<Chunk>)
  {
    forall i :: 0 <= i < |chunks| ==> chunks[i].size > 0
  }

  /** When every chunk holds data, the recording is empty exactly when no
      chunk was kept. */
  lemma {:induction false} BlobSizeZero(chunks: seq<Chunk>)
    requires AllNonEmpty(chunks)
    ensures BlobSize(chunks) == 0 <==> chunks == []
  {
    if chunks != [] {
      assert chunks[|chunks| - 1].size > 0;
    }
  }

  lemma {:induction false} BlobSizeAppend(a: seq<Chunk>, b: seq<Chunk>)
    ensures BlobSize(a + b) == BlobSize(a) + BlobSize(b)
    decreases |b|
  {
    if b == [] {
      assert a + b == a;
    } else {
      BlobSizeAppend(a, b[..|b| - 1]);
      assert (a + b)[..|a + b| - 1] == a + b[..|b| - 1];
    }
  }

  /** The hook's state: whether it is capturing, the offered sources, the
      selection, the error shown, whether it holds a recorder and a stream
      (and which source the stream comes from), the buffered chunks, whether
      the running recorder has a callback, and the recordings handed to
      callbacks so far. */
  datatype CaptureState = CaptureState(
    isCapturing: bool,
    devices: seq<AudioDevice>,
    selected: string,
    error: Option<string>,
    hasRecorder: bool,
    stream: Option<Source>,
    chunks: seq<Chunk>,
    hasCallback: bool,
    delivered: seq<seq<Chunk>>)

  /** What the hook keeps true: only chunks with data are buffered, and it
      captures only while it holds a recorder and a stream. */
  ghost predicate Coherent(s: CaptureState)
  {
    AllNonEmpty(s.chunks) && (s.isCapturing ==> s.hasRecorder && s.stream.Some?)
  }

  /** `getAudioDevices`: `found` is the enumeration, or `None` when the
      permission request or the enumeration throws. */
  function RefreshDevices(s: CaptureState, found: Option<seq<MediaDevice>>, hasDisplayMedia: bool): (t: CaptureState)
    ensures found.Some? ==> t == s.(devices := DeviceList(found.value, hasDisplayMedia), error := None)
    ensures found.None? ==> t == s.(error := Some(DevicesError))
  {
    match found
    case Some(ds) => s.(devices := DeviceList(ds, hasDisplayMedia), error := None)
    case None => s.(error := Some(DevicesError))
  }

  /** `startCapture`: the stream is kept and the buffer emptied as soon as the
      source is granted, even if the recorder is then refused. */
  function Start(s: CaptureState, outcome: StartOutcome, hasCallback: bool): (t: CaptureState)
    ensures outcome == SourceRefused ==> t == s.(error := Some(CaptureError), isCapturing := false)
    ensures outcome != SourceRefused ==> t.stream == Some(SourceFor(s.selected)) && t.chunks == []
    ensures outcome == Recording ==> t.isCapturing && t.hasRecorder && t.error == None
    ensures outcome == Recording ==> t.hasCallback == hasCallback
    ensures outcome != Recording ==> t.hasRecorder == s.hasRecorder && t.hasCallback == s.hasCallback
    ensures outcome != Recording ==> !t.isCapturing && t.error == Some(CaptureError)
    ensures t.devices == s.devices && t.selected == s.selected && t.delivered == s.delivered
    ensures Coherent(s) ==> Coherent(t)
  {
    match outcome
    case SourceRefused => s.(error := Some(CaptureError), isCapturing := false)
    case RecorderRefused =>
      s.(stream := Some(SourceFor(s.selected)), chunks := [], error := Some(CaptureError), isCapturing := false)
    case Recording =>
      s.(stream := Some(SourceFor(s.selected)), chunks := [], hasRecorder := true, hasCallback := hasCallback,
         error := None, isCapturing := true)
  }

  /** The recorder delivers a chunk: only chunks with data are kept. */
  function DataAvailable(s: CaptureState, c: Chunk): (t: CaptureState)
    ensures t.chunks == if c.size > 0 then s.chunks + [c] else s.chunks
    ensures t.(chunks := s.chunks) == s
    ensures Coherent(s) ==> Coherent(t)
  {
    if c.size > 0 then s.(chunks := s.chunks + [c]) else s
  }

  /** `stopCapture`. Stopping a running recorder flushes its last chunk
      (`last`), hands the buffered chunks to the callback as one recording and
      empties the buffer; in every case the hook ends without stream or
      recorder and not capturing. */
  function Stop(s: CaptureState, last: Chunk): (t: CaptureState)
    ensures !t.isCapturing && !t.hasRecorder && t.stream == None
    ensures s.hasRecorder && s.isCapturing ==>
              t.chunks == [] &&
              t.delivered == s.delivered + (if s.hasCallback then [DataAvailable(s, last).chunks] else [])
    ensures !(s.hasRecorder && s.isCapturing) ==> t.chunks == s.chunks && t.delivered == s.delivered
    ensures t.devices == s.devices && t.selected == s.selected && t.error == s.error
    ensures Coherent(s) ==> Coherent(t)
  {
    var flushed :=
      if s.hasRecorder && s.isCapturing then
        var f := DataAvailable(s, last);
        f.(chunks := [], delivered := f.delivered + (if f.hasCallback then [f.chunks] else []))
      else s;
    flushed.(stream := None, isCapturing := false, hasRecorder := false)
  }

  /** Stopping twice is stopping once. */
  lemma StopIdempotent(s: CaptureState, last: Chunk, again: Chunk)
    ensures Stop(Stop(s, last), again) == Stop(s, last)
  {
  }

  /** A recording handed over on stop is empty only if no chunk with data
      arrived while capturing. */
  lemma DeliveredSize(s: CaptureState, last: Chunk)
    requires Coherent(s) && s.hasRecorder && s.isCapturing && s.hasCallback
    ensures var blob := Stop(s, last).delivered[|s.delivered|];
      BlobSize(blob) == BlobSize(s.chunks) + last.size
      && (BlobSize(blob) == 0 <==> s.chunks == [] && last.size == 0)
  {
    var blob := DataAvailable(s, last).chunks;
    assert Stop(s, last).delivered[|s.delivered|] == blob;
    BlobSizeAppend(s.chunks, [last]);
    assert BlobSize([last]) == last.size by {
      assert [last][..0] == [];
    }
    if last.size > 0 {
      assert blob == s.chunks + [last];
    } else {
      assert blob == s.chunks;
    }
    BlobSizeZero(s.chunks);
  }

  /** The chunks that carry data, in their order. */
  function NonEmptyChunks(cs: seq<Chunk>): (r: seq<Chunk>)
    ensures AllNonEmpty(r) && |r| <= |cs|
  {
    if cs == [] then []
    else NonEmptyChunks(cs[..|cs| - 1]) + (if cs[|cs| - 1].size > 0 then [cs[|cs| - 1]] else [])
  }

  /** The recorder delivering the chunks `cs`, one `ondataavailable` after
      another. */
  function FeedAll(s: CaptureState, cs: seq<Chunk>): CaptureState
  {
    if cs == [] then s else DataAvailable(FeedAll(s, cs[..|cs| - 1]), cs[|cs| - 1])
  }

  /** Feeding chunks appends exactly those with data, in order, and changes
      nothing else. */
  lemma {:induction false} FeedAllChunks(s: CaptureState, cs: seq<Chunk>)
    ensures FeedAll(s, cs).chunks == s.chunks + NonEmptyChunks(cs)
    ensures FeedAll(s, cs).(chunks := s.chunks) == s
  {
    if cs != [] {
      FeedAllChunks(s, cs[..|cs| - 1]);
    }
  }

  /** From start to stop: a recording started with a callback hands it, on
      stop, exactly the chunks with data that arrived (the flushed last one
      included), in order, as one recording; without a callback nothing is
      handed over. Either way the buffer ends empty. */
  lemma CallbackReceivesRecording(s: CaptureState, withCallback: bool, cs: seq<Chunk>, last: Chunk)
    ensures var t := Stop(FeedAll(Start(s, Recording, withCallback), cs), last);
      t.chunks == []
      && t.delivered == s.delivered + (if withCallback then [NonEmptyChunks(cs + [last])] else [])
  {
    var u0 := Start(s, Recording, withCallback);
    var u := FeedAll(u0, cs);
    FeedAllChunks(u0, cs);
    assert u.(chunks := u0.chunks) == u0;
    assert u.hasRecorder && u.isCapturing && u.hasCallback == withCallback && u.delivered == s.delivered;
    assert u.chunks == NonEmptyChunks(cs);
    var all := cs + [last];
    assert all[..|cs|] == cs && all[|cs|] == last;
    assert NonEmptyChunks(all) == NonEmptyChunks(cs) + (if last.size > 0 then [last] else []);
    assert DataAvailable(u, last).chunks == NonEmptyChunks(all);
  }

  /** The hook as the page holds it: React state and refs as fields. */
  class CaptureHook {
    var isCapturing: bool
    var audioDevices: seq<AudioDevice>
    var selectedDevice: string
    var error: Option<string>
    var hasRecorder: bool
    var stream: Option<Source>
    var chunks: seq<Chunk>
    var hasCallback: bool
    /** The recordings the callback has received. */
    var delivered: seq<seq<Chunk>>

    function State(): CaptureState
      reads this
    {
      CaptureState(isCapturing, audioDevices, selectedDevice, error, hasRecorder, stream, chunks, hasCallback, delivered)
    }

    ghost predicate Valid()
      reads this
    {
      Coherent(State())
    }

    constructor ()
      ensures Valid()
      ensures State() == CaptureState(false, [], "", None, false, None, [], false, [])
    {
      isCapturing, audioDevices, selectedDevice, error := false, [], "", None;
      hasRecorder, stream, chunks, hasCallback, delivered := false, None, [], false, [];
    }

    method SetSelectedDevice(id: string)
      requires Valid()
      modifies this`selectedDevice
      ensures Valid()
      ensures State() == old(State()).(selected := id)
    {
      selectedDevice := id;
    }

    method GetAudioDevices(found: Option<seq<MediaDevice>>, hasDisplayMedia: bool)
      requires Valid()
      modifies this`audioDevices, this`error
      ensures Valid()
      ensures State() == RefreshDevices(old(State()), found, hasDisplayMedia)
    {
      if found.None? {
        error := Some(DevicesError);
        return;
      }
      var inputs := AudioInputs(found.value);
      audioDevices := inputs;
      if hasDisplayMedia {
        audioDevices := audioDevices + [SystemAudioDevice];
      }
      error := None;
    }

    method StartCapture(outcome: StartOutcome, onAudioData: bool)
      requires Valid()
      modifies this
      ensures Valid()
      ensures State() == Start(old(State()), outcome, onAudioData)
    {
      error := None;
      if outcome == SourceRefused {
        error := Some(CaptureError);
        isCapturing := false;
        return;
      }
      stream := Some(SourceFor(selectedDevice));
      chunks := [];
      if outcome == RecorderRefused {
        error := Some(CaptureError);
        isCapturing := false;
        return;
      }
      hasRecorder := true;
      hasCallback := onAudioData;
      isCapturing := true;
    }

    /** The running recorder's `ondataavailable`. */
    method OnDataAvailable(c: Chunk)
      requires Valid()
      modifies this`chunks
      ensures Valid()
      ensures State() == DataAvailable(old(State()), c)
    {
      if c.size > 0 {
        chunks := chunks + [c];
      }
    }

    method StopCapture(last: Chunk)
      requires Valid()
      modifies this
      ensures Valid()
      ensures State() == Stop(old(State()), last)
    {
      if hasRecorder && isCapturing {
        // stopping the recorder flushes its last chunk, then runs `onstop`
        OnDataAvailable(last);
        if hasCallback {
          delivered := delivered + [chunks];
        }
        chunks := [];
      }
      stream := None;
      isCapturing := false;
      hasRecorder := false;
    }
  }
}
