/**
  The backend's microphone capture (`AudioCapture`). The sound device stream
  is left out: the device delivers chunks through `AudioCallback`, which
  queues them only while recording; `Stop` drains the queue in arrival order
  and returns the concatenated samples. A sample is of an abstract type `T`.
*/
module Capture {

  /** `RecordingState`. */
  datatype RecordingState = Idle | Recording | Stopped

  /** The enum's `.value`, as reported by `/status`. */
  function Value(s: RecordingState): (v: string)
    ensures v == "recording" <==> s == Recording
    ensures v == "idle" <==> s == Idle
    ensures v == "stopped" <==> s == Stopped
  {
    match s
    case Idle => "idle"
    case Recording => "recording"
    case Stopped => "stopped"
  }

  /** The number of samples in a list of chunks. */
  function TotalLength<T>(chunks: seq<seq<T>>): (n: nat)
    decreases |chunks|
  {
    if chunks == [] then 0 else |chunks[0]| + TotalLength(chunks[1..])
  }

  /** `np.concatenate` of 1-D chunks: the chunks' samples, chunk after chunk. */
  function Flatten<T>(chunks: seq<seq<T>>): (r: seq<T>)
    ensures |r| == TotalLength(chunks)
    ensures chunks != [] ==> r[..|chunks[0]|] == chunks[0]
    decreases |chunks|
  {
    if chunks == [] then [] else chunks[0] + Flatten(chunks[1..])
  }

  /** Concatenation keeps the order of the chunks: the first list's samples come first. */
  lemma {:induction false} FlattenAppend<T>(a: seq<seq<T>>, b: seq<seq<T>>)
    ensures Flatten(a + b) == Flatten(a) + Flatten(b)
    decreases |a|
  {
    if a == [] {
      assert a + b == b;
    } else {
      assert (a + b)[1..] == a[1..] + b;
      FlattenAppend(a[1..], b);
    }
  }

  /** The result is empty exactly when every chunk is. */
  lemma {:induction false} FlattenEmpty<T>(chunks: seq<seq<T>>)
    ensures Flatten(chunks) == [] <==> forall i :: 0 <= i < |chunks| ==> chunks[i] == []
    decreases |chunks|
  {
    if chunks != [] {
      FlattenEmpty(chunks[1..]);
      assert forall i :: 1 <= i < |chunks| ==> chunks[i] == chunks[1..][i - 1];
    }
  }

  class AudioCapture<T> {
    var state: RecordingState
    /** `_audio_queue`: chunks delivered by the device and not yet collected. */
    var audioQueue: seq<seq<T>>
    /** `_recorded_chunks`. */
    var recordedChunks: seq<seq<T>>

    /** Nothing is collected into `recordedChunks` during a recording. */
    ghost predicate Valid()
      reads this
    {
      state == Recording ==> recordedChunks == []
    }

    constructor ()
      ensures Valid() && state == Idle && audioQueue == [] && recordedChunks == []
    {
      state := Idle;
      audioQueue := [];
      recordedChunks := [];
    }

    /** `is_recording`. */
    function IsRecording(): (b: bool)
      reads this
      ensures b <==> state == Recording
    {
      state == Recording
    }

    /** `_audio_callback`: a chunk from the device is queued only while recording. */
    method AudioCallback(indata: seq<T>)
      requires Valid()
      modifies this
      ensures Valid()
      ensures state == old(state) && recordedChunks == old(recordedChunks)
      ensures audioQueue == if old(state) == Recording then old(audioQueue) + [indata] else old(audioQueue)
    {
      if state == Recording {
        audioQueue := audioQueue + [indata];
      }
    }

    /** `start`: ignored while recording; otherwise discards earlier audio and records, from Idle or Stopped alike. */
    method Start()
      requires Valid()
      modifies this
      ensures Valid()
      ensures old(state) == Recording ==>
                state == old(state) && audioQueue == old(audioQueue) && recordedChunks == old(recordedChunks)
      ensures old(state) != Recording ==> state == Recording && audioQueue == [] && recordedChunks == []
    {
      if state == Recording {
        return;
      }
      recordedChunks := [];
      while audioQueue != []
        invariant state == old(state) && recordedChunks == []
        decreases |audioQueue|
      {
        audioQueue := audioQueue[1..];
      }
      state := Recording;
    }

    /**
      `stop`: outside a recording returns nothing and changes nothing. Otherwise
      drains the queue, oldest chunk first, onto the recorded chunks and returns
      their concatenation; with no chunk at all the state is left Stopped, not Idle.
    */
    method Stop() returns (audio: seq<T>)
      requires Valid()
      modifies this
      ensures Valid()
      ensures old(state) != Recording ==>
                audio == [] && state == old(state) && audioQueue == old(audioQueue) &&
                recordedChunks == old(recordedChunks)
      ensures old(state) == Recording ==>
                audioQueue == [] && recordedChunks == old(audioQueue) && audio == Flatten(old(audioQueue)) &&
                state == (if old(audioQueue) == [] then Stopped else Idle)
    {
      if state != Recording {
        return [];
      }
      state := Stopped;
      while audioQueue != []
        invariant state == Stopped
        invariant recordedChunks + audioQueue == old(audioQueue)
        decreases |audioQueue|
      {
        assert audioQueue == [audioQueue[0]] + audioQueue[1..];
        recordedChunks := recordedChunks + [audioQueue[0]];
        audioQueue := audioQueue[1..];
      }
      if recordedChunks == [] {
        return [];
      }
      audio := Flatten(recordedChunks);
      state := Idle;
    }
  }
}
