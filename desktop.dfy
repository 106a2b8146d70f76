/** The socket handlers of `dream_recorder_desktop.py`: the recording
    session (start, stream a chunk, stop and hand the chunks to the
    pipeline) and the playback cursor over the stored dreams. */
module Desktop {
  import opened Results
  import opened Session
  import opened Audio
  import Text

  /** The `data` field of a `stream_recording` message: a list of integers,
      or `None` when the message has no such key. */
  datatype StreamPayload = StreamPayload(data: Option<seq<int>>)

  /** `bytes(data['data'])`: the `KeyError` of a missing field, the
      `ValueError` of a value outside a byte, or the bytes. */
  function ChunkBytes(p: StreamPayload): (r: Result<seq<byte>, string>)
    ensures r.Success? <==> p.data.Some? && forall i :: 0 <= i < |p.data.value| ==> 0 <= p.data.value[i] < 256
    ensures r.Success? ==> |r.value| == |p.data.value|
                           && forall i :: 0 <= i < |r.value| ==> r.value[i] as int == p.data.value[i]
  {
    match p.data
    case None => Failure("'data'")
    case Some(xs) =>
      if forall i :: 0 <= i < |xs| ==> 0 <= xs[i] < 256 then
        Success(seq(|xs|, i requires 0 <= i < |xs| && 0 <= xs[i] < 256 => xs[i] as byte))
      else
        Failure("bytes must be in range(0, 256)")
  }

  /** The module-level globals of the server: the `recording_state` dict
      (never rebound), the `audio_chunks` list (rebound by each start), and
      the `video_playback_state` dict. */
  class Recorder {
    const state: RecordingState
    var chunks: ChunkList
    const playback: Playback

    constructor ()
      ensures fresh(state) && fresh(chunks) && fresh(playback)
      ensures state.View() == StateView(false, Ready, "", "", None)
      ensures chunks.items == []
      ensures playback.currentIndex == 0 && !playback.isPlaying
    {
      state := new RecordingState();
      chunks := new ChunkList();
      playback := new Playback();
    }

    /** `initiate_recording`: mark the session as recording, clear the
        transcription and the prompt, and bind a new empty chunk list. The
        video URL of the previous run stays. */
    method InitiateRecording()
      modifies this, state
      ensures state.View() == StateView(true, Recording, "", "", old(state.videoUrl))
      ensures fresh(chunks) && chunks.items == []
    {
      state.isRecording := true;
      state.status := Recording;
      state.transcription := "";
      state.videoPrompt := "";
      chunks := new ChunkList();
    }

    /** `handle_start_recording`: starts only when not already recording
        (whatever the status says), and then reports the new state to the
        sender; otherwise it changes nothing and emits nothing. */
    method HandleStartRecording() returns (emitted: seq<Event>)
      modifies this, state
      ensures old(state.isRecording) ==>
                && state.View() == old(state.View())
                && chunks == old(chunks) && chunks.items == old(chunks.items)
                && emitted == []
      ensures !old(state.isRecording) ==>
                && state.View() == StateView(true, Recording, "", "", old(state.videoUrl))
                && fresh(chunks) && chunks.items == []
                && emitted == [Event(Sender, StateUpdate(state.View()))]
    {
      if !state.isRecording {
        InitiateRecording();
        emitted := [Event(Sender, StateUpdate(state.View()))];
      } else {
        emitted := [];
      }
    }

    /** `handle_audio_data`: while recording, appends the chunk's bytes at
        the end of the list, or reports to the sender a chunk that cannot be
        converted and keeps the list; when not recording it does nothing. */
    method HandleAudioData(payload: StreamPayload) returns (emitted: seq<Event>)
      modifies chunks
      ensures state.isRecording && ChunkBytes(payload).Success? ==>
                chunks.items == old(chunks.items) + [ChunkBytes(payload).value] && emitted == []
      ensures state.isRecording && ChunkBytes(payload).Failure? ==>
                && chunks.items == old(chunks.items)
                && emitted == [Event(Sender, ErrorMessage("Error handling audio data: " + ChunkBytes(payload).error))]
      ensures !state.isRecording ==> chunks.items == old(chunks.items) && emitted == []
    {
      emitted := [];
      if state.isRecording {
        match ChunkBytes(payload) {
          case Success(audioBytes) =>
            chunks.Append(audioBytes);
          case Failure(e) =>
            emitted := [Event(Sender, ErrorMessage("Error handling audio data: " + e))];
        }
      }
    }

    /** `handle_stop_recording`: while recording, marks the session as
        processing, hands the current chunk list (the list object itself)
        to the pipeline and reports the new state to the sender; otherwise
        it changes nothing. The pipeline is started by the caller, after
        this handler returns. */
    method HandleStopRecording() returns (handoff: Option<ChunkList>, emitted: seq<Event>)
      modifies state
      ensures old(state.isRecording) ==>
                && state.View() == old(state.View()).(isRecording := false, status := Processing)
                && handoff == Some(chunks)
                && emitted == [Event(Sender, StateUpdate(state.View()))]
      ensures !old(state.isRecording) ==>
                state.View() == old(state.View()) && handoff == None && emitted == []
    {
      if state.isRecording {
        state.isRecording := false;
        state.status := Processing;
        handoff := Some(chunks);
        emitted := [Event(Sender, StateUpdate(state.View()))];
      } else {
        handoff, emitted := None, [];
      }
    }

    /** A stop followed, with nothing in between, by the pipeline run it
        spawns: the stop's state update comes first, then the pipeline's
        events; the pipeline works on the recorded chunks joined in order,
        and leaves the list empty and the session idle with a result. */
    method StopAndProcess(sid: string, timestamp: string, cfg: PromptConfig, svc: Services)
      returns (emitted: seq<Event>)
      modifies state, chunks
      ensures chunks == old(chunks)
      ensures !old(state.isRecording) ==>
                state.View() == old(state.View()) && chunks.items == old(chunks.items) && emitted == []
      ensures old(state.isRecording) ==>
                var o := RunPipeline(Concat(old(chunks.items)), timestamp, cfg, svc);
                && chunks.items == []
                && !state.isRecording
                && state.status == (if o.result.Success? then Complete else Error)
                && state.transcription == (if o.transcription.Some? then o.transcription.value else old(state.transcription))
                && state.videoPrompt == (if o.videoPrompt.Some? then o.videoPrompt.value else old(state.videoPrompt))
                && state.videoUrl == (if o.result.Success? then Some(o.result.value) else old(state.videoUrl))
                && |emitted| >= 2
                && emitted[0] == Event(Sender, StateUpdate(old(state.View()).(isRecording := false, status := Processing)))
                && emitted[1..] == PipelineEvents(o, PipelineTarget(sid))
    {
      var handoff, stopEvents := HandleStopRecording();
      emitted := stopEvents;
      if handoff.Some? {
        var pipelineEvents := ProcessAudio(sid, state, handoff.value, timestamp, cfg, svc);
        emitted := emitted + pipelineEvents;
      }
    }
  }

  /** The `video_playback_state` dict. */
  class Playback {
    var currentIndex: nat
    var isPlaying: bool

    constructor ()
      ensures currentIndex == 0 && !isPlaying
    {
      currentIndex := 0;
      isPlaying := false;
    }

    /** `handle_show_latest_dream`: plays the first (newest) dream in a loop
        for every client and points the cursor at it; with no dreams it
        reports an error and leaves the cursor alone. */
    method ShowLatestDream(dreams: Result<seq<DreamRecord>, string>) returns (emitted: seq<Event>)
      modifies this
      ensures dreams.Failure? ==>
                && currentIndex == old(currentIndex) && isPlaying == old(isPlaying)
                && emitted == [Event(Everyone, ErrorMessage("Error showing latest dream: " + dreams.error))]
      ensures dreams == Success([]) ==>
                && currentIndex == old(currentIndex) && isPlaying == old(isPlaying)
                && emitted == [Event(Everyone, ErrorMessage("No dreams found"))]
      ensures dreams.Success? && dreams.value != [] ==>
                && currentIndex == 0 && isPlaying
                && emitted == [Event(Everyone, PlayVideo(VideoUrl(dreams.value[0]), true))]
    {
      match dreams {
        case Failure(e) =>
          emitted := [Event(Everyone, ErrorMessage("Error showing latest dream: " + e))];
        case Success(all) =>
          if all == [] {
            emitted := [Event(Everyone, ErrorMessage("No dreams found"))];
          } else {
            currentIndex := 0;
            isPlaying := true;
            emitted := [Event(Everyone, PlayVideo(VideoUrl(all[0]), true))];
          }
      }
    }

    /** `handle_show_previous_dream`: with dreams, moves the cursor one dream
        on (wrapping to the newest after the oldest) when playing, or to the
        newest when not, and plays the dream under it in a loop for every
        client; with no dreams it does nothing and emits nothing. */
    method ShowPreviousDream(dreams: Result<seq<DreamRecord>, string>) returns (emitted: seq<Event>)
      modifies this
      ensures dreams.Failure? ==>
                && currentIndex == old(currentIndex) && isPlaying == old(isPlaying)
                && emitted == [Event(Everyone, ErrorMessage("Error showing previous dream: " + dreams.error))]
      ensures dreams == Success([]) ==>
                currentIndex == old(currentIndex) && isPlaying == old(isPlaying) && emitted == []
      ensures dreams.Success? && dreams.value != [] ==>
                && isPlaying
                && currentIndex == (if old(isPlaying) then Cycle(old(currentIndex), |dreams.value|) else 0)
                && currentIndex < |dreams.value|
                && emitted == [Event(Everyone, PlayVideo(VideoUrl(dreams.value[currentIndex]), true))]
    {
      match dreams {
        case Failure(e) =>
          emitted := [Event(Everyone, ErrorMessage("Error showing previous dream: " + e))];
        case Success(all) =>
          if all == [] {
            emitted := [];
          } else {
            if isPlaying {
              currentIndex := currentIndex + 1;
              if currentIndex >= |all| {
                currentIndex := 0;
              }
            } else {
              currentIndex := 0;
              isPlaying := true;
            }
            emitted := [Event(Everyone, PlayVideo(VideoUrl(all[currentIndex]), true))];
          }
      }
    }
  }

  /** The URL `play_video` carries for a dream. */
  function VideoUrl(d: DreamRecord): (url: string)
    ensures |url| >= 13 && url[..13] == "/media/video/"
    ensures d.videoFilename.Some? ==> url[13..] == d.videoFilename.value
    ensures d.videoFilename.None? ==> url[13..] == "None"
  {
    "/media/video/" + Render(d.videoFilename)
  }

  /** One step of the cursor while playing: the next dream, or the newest
      after the last one. */
  function Cycle(index: nat, count: nat): (next: nat)
    requires count > 0
    ensures next < count
    ensures index + 1 < count ==> next == index + 1
    ensures index + 1 >= count ==> next == 0
  {
    if index + 1 >= count then 0 else index + 1
  }

  /** The cursor after `steps` cycles. */
  function CycleTimes(index: nat, count: nat, steps: nat): nat
    requires count > 0
  {
    if steps == 0 then index else Cycle(CycleTimes(index, count, steps - 1), count)
  }

  /** While the end of the list is not reached, each cycle moves the
      cursor one dream on. */
  lemma {:induction false} CycleAdvances(index: nat, count: nat, steps: nat)
    requires index + steps < count
    ensures CycleTimes(index, count, steps) == index + steps
  {
    if steps > 0 {
      CycleAdvances(index, count, steps - 1);
    }
  }

  /** Cycles compose: `a` cycles then `b` cycles are `a + b` cycles. */
  lemma {:induction false} CycleCompose(index: nat, count: nat, a: nat, b: nat)
    requires count > 0
    ensures CycleTimes(index, count, a + b) == CycleTimes(CycleTimes(index, count, a), count, b)
  {
    if b > 0 {
      CycleCompose(index, count, a, b - 1);
    }
  }

  /** From any dream, the cursor comes back to the newest dream after the
      remaining dreams have been shown. */
  lemma CycleWraps(index: nat, count: nat)
    requires index < count
    ensures CycleTimes(index, count, count - index) == 0
  {
    CycleAdvances(index, count, count - index - 1);
  }

  /** Cycling shows every dream: from any dream, each dream comes up within
      fewer than `count` cycles, and after `count` cycles the cursor is back
      where it started. */
  lemma CycleVisitsAll(index: nat, count: nat, target: nat)
    requires index < count && target < count
    ensures exists steps: nat :: steps < count && CycleTimes(index, count, steps) == target
    ensures CycleTimes(index, count, count) == index
  {
    CycleWraps(index, count);
    CycleCompose(index, count, count - index, index);
    CycleAdvances(0, count, index);
    if target >= index {
      CycleAdvances(index, count, target - index);
    } else {
      CycleCompose(index, count, count - index, target);
      CycleAdvances(0, count, target);
      assert CycleTimes(index, count, count - index + target) == target;
    }
  }

  /** The chunks a recording keeps from a stream of payloads: the bytes of
      each payload that converts, in arrival order. */
  function Accepted(payloads: seq<StreamPayload>): seq<seq<byte>>
  {
    if payloads == [] then []
    else
      var last := payloads[|payloads| - 1];
      Accepted(payloads[..|payloads| - 1]) + (if ChunkBytes(last).Success? then [ChunkBytes(last).value] else [])
  }

  /** One recording from start to stop on a fresh server: the list handed to
      the pipeline holds exactly the convertible payloads' bytes, in the
      order they arrived, and every other payload was answered with one
      error event. */
  method RecordSession(payloads: seq<StreamPayload>) returns (handed: seq<seq<byte>>, errors: int)
    ensures handed == Accepted(payloads)
    ensures errors == |payloads| - |handed|
  {
    var r := new Recorder();
    var _ := r.HandleStartRecording();
    errors := 0;
    var i := 0;
    while i < |payloads|
      invariant 0 <= i <= |payloads|
      invariant fresh(r.chunks) && r.state.isRecording
      invariant r.chunks.items == Accepted(payloads[..i])
      invariant errors == i - |Accepted(payloads[..i])|
    {
      var emitted := r.HandleAudioData(payloads[i]);
      errors := errors + |emitted|;
      assert payloads[..i + 1][..i] == payloads[..i];
      i := i + 1;
    }
    assert payloads[..i] == payloads;
    var handoff, _ := r.HandleStopRecording();
    handed := handoff.value.items;
  }

  /** Services that all succeed: ffmpeg writes a 44-byte file, the
      transcription is "a dream", the chat replies "a prompt", and the video
      generator returns `dream.mp4`. */
  function AllSucceed(): Services
  {
    Services(
      audio => FfmpegFinished(Some(44)),
      wav => Success("a dream"),
      (system, user) => Success("a prompt"),
      (prompt, extend) => Success(("dream.mp4", "dream.png")),
      data => Success(()))
  }

  /** With every service succeeding, an (even empty) recording runs to
      completion and points the session at the generated video. */
  lemma AllSucceedCompletes(audioData: seq<byte>, timestamp: string, cfg: PromptConfig)
    ensures RunPipeline(audioData, timestamp, cfg, AllSucceed()).result == Success("/media/video/dream.mp4")
  {
    var svc := AllSucceed();
    var wav := RecordingName(timestamp);
    var extend := LumaExtend(cfg.lumaExtend);
    assert !Text.IsSpace('a') && !Text.IsSpace('t');
    assert Text.TrimStart("a prompt") == "a prompt";
    assert Text.TrimEnd("a prompt") == "a prompt";
    assert GenerateVideoPrompt("a dream", extend, cfg, svc.chat) == Some("a prompt");
    assert "/media/video/" + "dream.mp4" == "/media/video/dream.mp4";
    assert AfterPrompt("a dream", "a prompt", wav, extend, svc).result == Success("/media/video/dream.mp4");
  }

  /** The code has no run identifier: a run spawned by one stop writes its
      result into the session even after a new recording has started. The
      new recording is in progress while the status says `complete` and the
      URL names the old run's video; only the list the old run was handed
      is cleared, so the new recording's chunks survive. This holds for any
      services under which the old run succeeds, such as `AllSucceed()`. */
  method StaleRunOverwritesNewRecording(timestamp: string, cfg: PromptConfig, svc: Services)
    returns (view: StateView, liveChunks: seq<seq<byte>>)
    requires RunPipeline([], timestamp, cfg, svc).result.Success?
    ensures view.isRecording && view.status == Complete
    ensures view.videoUrl == Some(RunPipeline([], timestamp, cfg, svc).result.value)
    ensures liveChunks == [[7]]
  {
    var r, stale := RestartWhileProcessing();
    assert Concat(stale.items) == [];
    var _ := ProcessAudio("", r.state, stale, timestamp, cfg, svc);
    view := r.state.View();
    liveChunks := r.chunks.items;
  }

  /** Start, stop, start again and stream one chunk `[7]`: the list handed
      to the first run is empty and is not the live one, and the new
      recording is under way. */
  method RestartWhileProcessing() returns (r: Recorder, stale: ChunkList)
    ensures fresh(r) && fresh(r.state) && fresh(stale)
    ensures r.state.isRecording && r.chunks.items == [[7]]
    ensures stale.items == [] && stale != r.chunks
  {
    r := new Recorder();
    var _ := r.HandleStartRecording();
    var handoff, _ := r.HandleStopRecording();
    stale := handoff.value;
    var _ := r.HandleStartRecording();
    assert ChunkBytes(StreamPayload(Some([7]))).value == [7];
    var _ := r.HandleAudioData(StreamPayload(Some([7])));
  }
}
