/**
 * The voice-recording component: a recorder held in a ref, a ref-held buffer
 * of recorded chunks, and React state for `isRecording` and `audioUrl`.
 *
 * The recorder's `dataavailable` and `stop` events are events of their own
 * (`DataAvailable`, `RecorderStopped`), delivered by the browser after
 * `start()` and `stop()`. Chunks are byte strings.
 */
module Voice {
  import opened Wrappers
  import opened Devices

  type Chunk = seq<bv8>

  const MicDenied: string := "Microphone access denied."

  /**
   * The bytes of a blob built from `chunks`, in order: the first chunk leads,
   * and the blob is empty exactly when every chunk is.
   */
  function Concat(chunks: seq<Chunk>): (bytes: Chunk)
    ensures chunks != [] ==> chunks[0] <= bytes
    ensures bytes == [] <==> forall i :: 0 <= i < |chunks| ==> chunks[i] == []
    decreases |chunks|
  {
    if chunks == [] then [] else chunks[0] + Concat(chunks[1..])
  }

  /** Appending a chunk appends its bytes to the blob. */
  lemma {:induction false} ConcatAppend(chunks: seq<Chunk>, last: Chunk)
    ensures Concat(chunks + [last]) == Concat(chunks) + last
    decreases |chunks|
  {
    if chunks == [] {
      assert chunks + [last] == [last];
    } else {
      assert (chunks + [last])[1..] == chunks[1..] + [last];
      ConcatAppend(chunks[1..], last);
    }
  }

  /** The chunks the buffer keeps from a series of `dataavailable` events: the non-empty ones. */
  function Kept(events: seq<Chunk>): (kept: seq<Chunk>)
    ensures forall i :: 0 <= i < |kept| ==> |kept[i]| > 0
    ensures |kept| <= |events|
    decreases |events|
  {
    if events == [] then []
    else if |events[|events| - 1]| > 0 then Kept(events[..|events| - 1]) + [events[|events| - 1]]
    else Kept(events[..|events| - 1])
  }

  /** Dropping empty chunks loses no recorded byte: the blob is the same. */
  lemma {:induction false} KeptPreservesRecording(events: seq<Chunk>)
    ensures Concat(Kept(events)) == Concat(events)
    decreases |events|
  {
    if events != [] {
      var init, last := events[..|events| - 1], events[|events| - 1];
      assert events == init + [last];
      KeptPreservesRecording(init);
      ConcatAppend(init, last);
      if |last| > 0 {
        ConcatAppend(Kept(init), last);
      } else {
        assert last == [];
        assert Concat(init) + last == Concat(init);
      }
    }
  }

  /** The browser's `MediaRecorder` on one stream. */
  class Recorder {
    const stream: MediaStream
    var recording: bool

    constructor (s: MediaStream)
      ensures stream == s && !recording
    {
      stream := s;
      recording := false;
    }
  }

  class VoiceModule {
    var isRecording: bool
    var audioUrl: Option<string>
    var recorder: Recorder?           // mediaRecorderRef.current
    var chunks: seq<Chunk>            // chunksRef.current

    /**
     * `isRecording` mirrors the recorder's state, the buffer holds only
     * non-empty chunks, and a recorder that is not recording has released
     * its microphone.
     */
    ghost predicate Valid()
      reads this, recorder, if recorder == null then {} else {recorder.stream.tracks}
    {
      && (isRecording <==> recorder != null && recorder.recording)
      && (forall i :: 0 <= i < |chunks| ==> |chunks[i]| > 0)
      && (recorder != null && !recorder.recording ==> recorder.stream.Released())
    }

    ghost function Held(): set<object>
      reads this
    {
      if recorder == null then {} else {recorder, recorder.stream.tracks}
    }

    constructor ()
      ensures Valid() && !isRecording && audioUrl.None? && recorder == null && chunks == []
    {
      isRecording := false;
      audioUrl := None;
      recorder := null;
      chunks := [];
    }

    /**
     * `startRun`, reached from the record button (shown while not recording).
     * `acquired` is what `getUserMedia` resolved to, or `None` when it rejected;
     * `alert` is the message shown, if any.
     */
    method StartRun(acquired: Option<MediaStream>) returns (alert: Option<string>)
      requires Valid() && !isRecording
      modifies this
      ensures Valid()
      ensures acquired.None? ==> alert == Some(MicDenied) && !isRecording && recorder == old(recorder)
      ensures acquired.Some? ==>
        alert.None? && isRecording && fresh(recorder) && recorder.stream == acquired.value && recorder.recording
      ensures chunks == old(chunks) && audioUrl == old(audioUrl)
    {
      match acquired
      case None =>
        alert := Some(MicDenied);
      case Some(s) =>
        var r := new Recorder(s);
        recorder := r;
        r.recording := true;        // start()
        isRecording := true;
        alert := None;
    }

    /** `ondataavailable`: an empty chunk is dropped, any other appended last. */
    method DataAvailable(data: Chunk)
      requires Valid()
      modifies this
      ensures Valid()
      ensures chunks == if |data| > 0 then old(chunks) + [data] else old(chunks)
      ensures isRecording == old(isRecording) && audioUrl == old(audioUrl) && recorder == old(recorder)
    {
      if |data| > 0 {
        chunks := chunks + [data];
      }
    }

    /**
     * `onstop`: one blob from every buffered chunk in order, its object URL
     * `url` becomes `audioUrl`, and the buffer is emptied.
     */
    method RecorderStopped(url: string) returns (blob: Chunk)
      requires Valid()
      modifies this
      ensures Valid()
      ensures blob == Concat(old(chunks)) && audioUrl == Some(url) && chunks == []
      ensures isRecording == old(isRecording) && recorder == old(recorder)
    {
      blob := Concat(chunks);
      audioUrl := Some(url);
      chunks := [];
    }

    /**
     * `stopRun`: only with a recorder that is recording; it stops the
     * recorder, clears `isRecording` and stops every microphone track.
     */
    method StopRun()
      requires Valid()
      modifies this, Held()
      ensures Valid()
      ensures recorder == old(recorder) && !isRecording
      ensures old(isRecording) ==> !recorder.recording && recorder.stream.Released()
      ensures !old(isRecording) ==> recorder == null || unchanged(recorder)
      ensures chunks == old(chunks) && audioUrl == old(audioUrl)
    {
      if recorder != null && isRecording {
        recorder.recording := false;    // stop()
        isRecording := false;
        recorder.stream.StopTracks();
      }
    }
  }

  /**
   * One recording: the buffer collects the non-empty chunks of the events and
   * the stop handler hands over a blob of exactly the recorded bytes.
   */
  method RecordOnce(events: seq<Chunk>, url: string) returns (blob: Chunk, audio: Option<string>)
    ensures blob == Concat(events) && audio == Some(url)
  {
    var mic := new MediaStream(1);
    var voice := new VoiceModule();
    var alert := voice.StartRun(Some(mic));
    var i := 0;
    while i < |events|
      invariant 0 <= i <= |events|
      invariant voice.Valid() && voice.recorder != null && voice.chunks == Kept(events[..i])
      invariant voice.recorder.stream == mic
      modifies voice
    {
      assert events[..i + 1][..i] == events[..i];
      voice.DataAvailable(events[i]);
      i := i + 1;
    }
    voice.StopRun();
    blob := voice.RecorderStopped(url);
    audio := voice.audioUrl;
    assert events[..|events|] == events;
    KeptPreservesRecording(events);
  }
}
