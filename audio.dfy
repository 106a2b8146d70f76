/** The processing pipeline of `functions/audio.py`: join the streamed chunks,
    write them to a temporary file in 8192-byte slices and transcode it,
    transcribe the audio, ask a language model for a video prompt, generate
    the video, save the dream record, and report each step on the socket.

    The external services (ffmpeg, the transcription service, the chat
    model, the video generator and the dream database) are functions passed
    in: each maps what the pipeline sends it to what it answers, a
    `Failure` standing for the exception it raises. */
module Audio {
  import opened Results
  import opened Text
  import opened Session

  /** The slice size of the write loop in `save_wav_file`. */
  const ChunkSize: nat := 8192

  /** The number of bytes in all the chunks, counted from the last one. */
  function TotalSize(chunks: seq<seq<byte>>): nat
  {
    if chunks == [] then 0 else TotalSize(chunks[..|chunks| - 1]) + |chunks[|chunks| - 1]|
  }

  /** Counting from the first chunk gives the same total. */
  lemma {:induction false} TotalSizeFirst(chunks: seq<seq<byte>>)
    requires chunks != []
    ensures TotalSize(chunks) == |chunks[0]| + TotalSize(chunks[1..])
    decreases |chunks|
  {
    if |chunks| > 1 {
      var init := chunks[..|chunks| - 1];
      TotalSizeFirst(init);
      assert init[1..] == chunks[1..][..|chunks[1..]| - 1];
    } else {
      assert chunks[..0] == [];
    }
  }

  /** `b''.join(chunks)`: as many bytes as the chunks hold together. */
  function Concat(chunks: seq<seq<byte>>): (r: seq<byte>)
    ensures |r| == TotalSize(chunks)
  {
    if chunks == [] then []
    else
      TotalSizeFirst(chunks);
      chunks[0] + Concat(chunks[1..])
  }

  lemma {:induction false} ConcatAppend(chunks: seq<seq<byte>>, last: seq<byte>)
    ensures Concat(chunks + [last]) == Concat(chunks) + last
  {
    if chunks != [] {
      assert (chunks + [last])[1..] == chunks[1..] + [last];
      ConcatAppend(chunks[1..], last);
    }
  }

  /** Joining two runs of chunks one after the other gives the two joins one
      after the other: no byte is lost, duplicated or reordered. */
  lemma {:induction false} ConcatSplit(a: seq<seq<byte>>, b: seq<seq<byte>>)
    ensures Concat(a + b) == Concat(a) + Concat(b)
  {
    if a != [] {
      assert (a + b)[0] == a[0];
      assert (a + b)[1..] == a[1..] + b;
      ConcatSplit(a[1..], b);
    } else {
      assert a + b == b;
    }
  }

  function Min(a: int, b: int): int
  {
    if a < b then a else b
  }

  /** The write loop of `save_wav_file`: `audio_data[i:i + 8192]` for
      `i` in `range(0, len(audio_data), 8192)`. Returns the slices in the
      order they are written. */
  method WriteInChunks(data: seq<byte>) returns (writes: seq<seq<byte>>)
    ensures Concat(writes) == data
    ensures forall k :: 0 <= k < |writes| ==> 0 < |writes[k]| <= ChunkSize
    ensures forall k :: 0 <= k < |writes| ==> k * ChunkSize < |data|
    ensures forall k :: 0 <= k < |writes| ==>
              writes[k] == data[k * ChunkSize..Min((k + 1) * ChunkSize, |data|)]
    ensures |writes| * ChunkSize < |data| + ChunkSize
  {
    writes := [];
    var i := 0;
    while i < |data|
      invariant i == |writes| * ChunkSize
      invariant i < |data| + ChunkSize
      invariant Concat(writes) == data[..Min(i, |data|)]
      invariant forall k :: 0 <= k < |writes| ==> 0 < |writes[k]| <= ChunkSize
      invariant forall k :: 0 <= k < |writes| ==> k * ChunkSize < |data|
      invariant forall k :: 0 <= k < |writes| ==>
                  writes[k] == data[k * ChunkSize..Min((k + 1) * ChunkSize, |data|)]
    {
      var slice := data[i..Min(i + ChunkSize, |data|)];
      ConcatAppend(writes, slice);
      writes := writes + [slice];
      i := i + ChunkSize;
    }
  }

  /** What running ffmpeg on the temporary file gave: the `ffmpeg.Error`
      with its standard error text (empty when there was none), or the size
      of the output file, `None` when the file does not exist. */
  datatype Transcode =
    | FfmpegFailed(stderr: string)
    | FfmpegFinished(outputSize: Option<nat>)

  /** The default file name `recording_<timestamp>.wav`. */
  function RecordingName(timestamp: string): string
  {
    "recording_" + timestamp + ".wav"
  }

  /** The end of `save_wav_file`: fail with the ffmpeg error, fail when the
      output is missing or empty, otherwise return the file name. */
  function ConversionOutcome(t: Transcode, filename: string): (r: Result<string, string>)
    ensures r.Success? <==> t.FfmpegFinished? && t.outputSize.Some? && t.outputSize.value > 0
    ensures r.Success? ==> r.value == filename
  {
    match t
    case FfmpegFailed(stderr) =>
      Failure("FFmpeg conversion failed: " + (if stderr == "" then "Unknown FFmpeg error" else stderr))
    case FfmpegFinished(size) =>
      if size.None? || size.value == 0 then Failure("FFmpeg produced an empty or missing output file")
      else Success(filename)
  }

  /** `save_wav_file`: the temporary file receives the audio in slices, and
      the transcoder reads back exactly the audio it was given. The result
      is the file name (the given one, or `recording_<timestamp>.wav`) when
      the output exists and is not empty, and the error otherwise. */
  method SaveWavFile(audioData: seq<byte>, filename: Option<string>, timestamp: string,
                     transcode: seq<byte> -> Transcode)
    returns (r: Result<string, string>, writes: seq<seq<byte>>)
    ensures Concat(writes) == audioData
    ensures forall k :: 0 <= k < |writes| ==> 0 < |writes[k]| <= ChunkSize
    ensures r == ConversionOutcome(transcode(audioData),
                                   if filename.Some? then filename.value else RecordingName(timestamp))
  {
    var name := if filename.Some? then filename.value else RecordingName(timestamp);
    writes := WriteInChunks(audioData);
    var tempFile := Concat(writes);
    r := ConversionOutcome(transcode(tempFile), name);
  }

  /** `str(get_config()['LUMA_EXTEND']).lower() in ('1', 'true', 'yes')`,
      where `raw` is the `str()` of the configured value. */
  predicate LumaExtend(raw: string)
    ensures LumaExtend(raw) <==> raw == "1" || SameIgnoringCase(raw, "true") || SameIgnoringCase(raw, "yes")
  {
    LowerEquals(raw, "1");
    LowerEquals(raw, "true");
    LowerEquals(raw, "yes");
    assert SameIgnoringCase(raw, "1") ==> raw == "1" by {
      if SameIgnoringCase(raw, "1") {
        assert raw[0] == '1';
      }
    }
    Lower(raw) in ["1", "true", "yes"]
  }

  /** The flag accepts the spellings `str()` gives Python's booleans and
      numbers and the listed words in any case, and nothing with extra
      characters around them. */
  lemma LumaExtendExamples()
    ensures LumaExtend("True") && LumaExtend("1") && LumaExtend("YES") && LumaExtend("tRuE")
    ensures !LumaExtend("False") && !LumaExtend("0") && !LumaExtend("") && !LumaExtend(" true")
    ensures !LumaExtend("y") && !LumaExtend("on")
  {
    assert Lower("True") == "true";
    assert Lower("1") == "1";
    assert Lower("YES") == "yes";
    assert Lower("tRuE") == "true";
    assert Lower("False") == "false";
    assert Lower("0") == "0";
    assert Lower(" true") == " true";
    assert Lower("y") == "y";
    assert Lower("on") == "on";
  }

  /** The flag ignores case: lower-casing the raw value first changes
      nothing. */
  lemma LumaExtendCaseInsensitive(raw: string)
    ensures LumaExtend(raw) == LumaExtend(Lower(raw))
  {
    LowerIdempotent(raw);
  }

  /** The two system-prompt templates and the raw extend flag. */
  datatype PromptConfig = PromptConfig(systemPrompt: string, systemPromptExtend: string, lumaExtend: string)

  /** The template `generate_video_prompt` sends as the system message. */
  function SystemPrompt(cfg: PromptConfig, extend: bool): (p: string)
    ensures p == cfg.systemPrompt || p == cfg.systemPromptExtend
    ensures cfg.systemPrompt != cfg.systemPromptExtend ==> (p == cfg.systemPromptExtend <==> extend)
  {
    if extend then cfg.systemPromptExtend else cfg.systemPrompt
  }

  /** `generate_video_prompt`: `chat` maps the system and the user message
      to the reply text, or to the exception the call raised. Any exception
      gives `None`; otherwise the reply with surrounding whitespace
      stripped. */
  function GenerateVideoPrompt(transcription: string, extend: bool, cfg: PromptConfig,
                               chat: (string, string) -> Result<string, string>): (r: Option<string>)
    ensures r.None? <==> chat(SystemPrompt(cfg, extend), transcription).Failure?
    ensures r.Some? ==> r.value == [] || (!IsSpace(r.value[0]) && !IsSpace(r.value[|r.value| - 1]))
    ensures r.Some? ==>
              var reply := chat(SystemPrompt(cfg, extend), transcription).value;
              exists lo, hi ::
                && 0 <= lo <= hi <= |reply| && r.value == reply[lo..hi]
                && (forall i :: 0 <= i < lo ==> IsSpace(reply[i]))
                && (forall i :: hi <= i < |reply| ==> IsSpace(reply[i]))
  {
    match chat(SystemPrompt(cfg, extend), transcription)
    case Failure(_) => None
    case Success(reply) =>
      StripIsSlice(reply);
      Some(Strip(reply))
  }

  /** `not video_prompt`: no prompt, or an empty one. */
  predicate PromptMissing(p: Option<string>)
  {
    p.None? || p.value == ""
  }

  /** The pipeline gives up at the prompt step exactly when the chat call
      raised or its reply was all whitespace. */
  lemma PromptMissingIff(transcription: string, extend: bool, cfg: PromptConfig,
                         chat: (string, string) -> Result<string, string>)
    ensures var reply := chat(SystemPrompt(cfg, extend), transcription);
      PromptMissing(GenerateVideoPrompt(transcription, extend, cfg, chat))
      <==> reply.Failure? || forall i :: 0 <= i < |reply.value| ==> IsSpace(reply.value[i])
  {
    var reply := chat(SystemPrompt(cfg, extend), transcription);
    if reply.Success? {
      StripEmptyIff(reply.value);
    }
  }

  /** The fields of the `DreamData` record handed to `save_dream`. */
  datatype DreamData = DreamData(
    userPrompt: string,
    generatedPrompt: string,
    audioFilename: string,
    videoFilename: string,
    thumbFilename: string,
    status: string)

  /** The external services, each as the answer it gives to what it is
      sent. `transcribe` receives the name of the saved WAV file;
      `generateVideo` the prompt and the extend flag and answers the video
      and thumbnail file names. */
  datatype Services = Services(
    transcode: seq<byte> -> Transcode,
    transcribe: string -> Result<string, string>,
    chat: (string, string) -> Result<string, string>,
    generateVideo: (string, bool) -> Result<(string, string), string>,
    saveDream: DreamData -> Result<(), string>)

  /** How far one run of the pipeline got: the transcription and the video
      prompt it stored (if it reached those steps), the record the database
      accepted, and the video URL or the message of the exception that ended
      the run. */
  datatype Outcome = Outcome(
    transcription: Option<string>,
    videoPrompt: Option<string>,
    saved: Option<DreamData>,
    result: Result<string, string>)

  /** The steps of `process_audio` on the joined audio, as a value. */
  function RunPipeline(audioData: seq<byte>, timestamp: string, cfg: PromptConfig, svc: Services): (o: Outcome)
    ensures WellFormed(o)
    ensures o.result.Success? <==> o.saved.Some?
    ensures o.videoPrompt.Some? ==> o.transcription.Some? && o.videoPrompt.value != ""
    ensures o.saved.Some? ==>
              && o.transcription.Some? && o.videoPrompt.Some?
              && o.saved.value == DreamData(o.transcription.value, o.videoPrompt.value, RecordingName(timestamp),
                                            o.saved.value.videoFilename, o.saved.value.thumbFilename, "completed")
              && svc.generateVideo(o.videoPrompt.value, LumaExtend(cfg.lumaExtend)).Success?
              && o.saved.value.videoFilename == svc.generateVideo(o.videoPrompt.value, LumaExtend(cfg.lumaExtend)).value.0
              && o.saved.value.thumbFilename == svc.generateVideo(o.videoPrompt.value, LumaExtend(cfg.lumaExtend)).value.1
              && svc.saveDream(o.saved.value).Success?
              && o.result.value == "/media/video/" + o.saved.value.videoFilename
    ensures o.transcription.Some? <==>
              && ConversionOutcome(svc.transcode(audioData), RecordingName(timestamp)).Success?
              && svc.transcribe(RecordingName(timestamp)).Success?
    ensures o.transcription.Some? ==> o.transcription.value == svc.transcribe(RecordingName(timestamp)).value
    ensures o.transcription.Some? ==>
              var p := GenerateVideoPrompt(o.transcription.value, LumaExtend(cfg.lumaExtend), cfg, svc.chat);
              && (o.videoPrompt.None? <==> PromptMissing(p))
              && (o.videoPrompt.Some? ==> o.videoPrompt == p)
              && (PromptMissing(p) ==> o.result == Failure("Failed to generate video prompt"))
  {
    AfterSavePrompt(RecordingName(timestamp), cfg, svc);
    match ConversionOutcome(svc.transcode(audioData), RecordingName(timestamp))
    case Failure(e) => Outcome(None, None, None, Failure("Failed to save audio: " + e))
    case Success(wavFile) => AfterSave(wavFile, cfg, svc)
  }

  /** The steps after the audio was saved as `wavFile`: transcribe it and
      ask for a video prompt. */
  function AfterSave(wavFile: string, cfg: PromptConfig, svc: Services): (o: Outcome)
    ensures o.transcription.Some? <==> svc.transcribe(wavFile).Success?
    ensures o.transcription.Some? ==> o.transcription.value == svc.transcribe(wavFile).value
    ensures o.videoPrompt.Some? ==> o.transcription.Some? && o.videoPrompt.value != ""
    ensures o.result.Success? <==> o.saved.Some?
    ensures o.saved.Some? ==>
              && o.transcription.Some? && o.videoPrompt.Some?
              && o.saved.value == DreamData(o.transcription.value, o.videoPrompt.value, wavFile,
                                            o.saved.value.videoFilename, o.saved.value.thumbFilename, "completed")
              && svc.generateVideo(o.videoPrompt.value, LumaExtend(cfg.lumaExtend)).Success?
              && o.saved.value.videoFilename == svc.generateVideo(o.videoPrompt.value, LumaExtend(cfg.lumaExtend)).value.0
              && o.saved.value.thumbFilename == svc.generateVideo(o.videoPrompt.value, LumaExtend(cfg.lumaExtend)).value.1
              && svc.saveDream(o.saved.value).Success?
              && o.result.value == "/media/video/" + o.saved.value.videoFilename
  {
    match svc.transcribe(wavFile)
    case Failure(e) => Outcome(None, None, None, Failure("Failed to transcribe audio: " + e))
    case Success(text) =>
      var prompt := GenerateVideoPrompt(text, LumaExtend(cfg.lumaExtend), cfg, svc.chat);
      if PromptMissing(prompt) then Outcome(Some(text), None, None, Failure("Failed to generate video prompt"))
      else AfterPrompt(text, prompt.value, wavFile, LumaExtend(cfg.lumaExtend), svc)
  }

  /** After the save step, the stored prompt is the stripped chat reply to
      the transcription, a missing prompt fails the run, and with a prompt,
      a generated video and a saved record the run succeeds with the
      video's URL. */
  lemma AfterSavePrompt(wavFile: string, cfg: PromptConfig, svc: Services)
    ensures var o := AfterSave(wavFile, cfg, svc);
            svc.transcribe(wavFile).Success? ==>
              var p := GenerateVideoPrompt(svc.transcribe(wavFile).value, LumaExtend(cfg.lumaExtend), cfg, svc.chat);
              && (o.videoPrompt.None? <==> PromptMissing(p))
              && (o.videoPrompt.Some? ==> o.videoPrompt == p)
              && (PromptMissing(p) ==> o.result == Failure("Failed to generate video prompt"))
    ensures var o := AfterSave(wavFile, cfg, svc);
            svc.transcribe(wavFile).Success? ==>
              var text := svc.transcribe(wavFile).value;
              var extend := LumaExtend(cfg.lumaExtend);
              var p := GenerateVideoPrompt(text, extend, cfg, svc.chat);
              !PromptMissing(p) ==>
                var g := svc.generateVideo(p.value, extend);
                g.Success? && svc.saveDream(DreamData(text, p.value, wavFile, g.value.0, g.value.1, "completed")).Success?
                ==> o.result == Success("/media/video/" + g.value.0)
  {
  }

  /** The steps after the prompt: generate the video and save the record. */
  function AfterPrompt(text: string, prompt: string, wavFile: string, extend: bool, svc: Services): (o: Outcome)
    ensures o.transcription == Some(text) && o.videoPrompt == Some(prompt)
    ensures o.result.Success? <==> o.saved.Some?
    ensures o.saved.Some? ==>
              && svc.generateVideo(prompt, extend).Success?
              && o.saved.value == DreamData(text, prompt, wavFile, svc.generateVideo(prompt, extend).value.0,
                                            svc.generateVideo(prompt, extend).value.1, "completed")
              && svc.saveDream(o.saved.value).Success?
              && o.result.value == "/media/video/" + o.saved.value.videoFilename
    ensures var g := svc.generateVideo(prompt, extend);
            g.Success? && svc.saveDream(DreamData(text, prompt, wavFile, g.value.0, g.value.1, "completed")).Success?
            ==> o.result == Success("/media/video/" + g.value.0)
  {
    match svc.generateVideo(prompt, extend)
    case Failure(e) => Outcome(Some(text), Some(prompt), None, Failure(e))
    case Success(files) =>
      var data := DreamData(text, prompt, wavFile, files.0, files.1, "completed");
      match svc.saveDream(data)
      case Failure(e) => Outcome(Some(text), Some(prompt), None, Failure("Failed to save to database: " + e))
      case Success(_) => Outcome(Some(text), Some(prompt), Some(data), Success("/media/video/" + files.0))
  }

  /** When every step succeeds, a run completes and points at the
      generated video: ffmpeg writes a non-empty file, the transcription
      service answers, the chat's reply is not blank, and the video
      generator and the database both succeed. */
  lemma PipelineCompletes(audioData: seq<byte>, timestamp: string, cfg: PromptConfig, svc: Services)
    requires svc.transcode(audioData).FfmpegFinished?
    requires svc.transcode(audioData).outputSize.Some? && svc.transcode(audioData).outputSize.value > 0
    requires svc.transcribe(RecordingName(timestamp)).Success?
    requires !PromptMissing(GenerateVideoPrompt(svc.transcribe(RecordingName(timestamp)).value,
                                                LumaExtend(cfg.lumaExtend), cfg, svc.chat))
    requires var text := svc.transcribe(RecordingName(timestamp)).value;
             var extend := LumaExtend(cfg.lumaExtend);
             var p := GenerateVideoPrompt(text, extend, cfg, svc.chat).value;
             var g := svc.generateVideo(p, extend);
             g.Success? && svc.saveDream(DreamData(text, p, RecordingName(timestamp), g.value.0, g.value.1, "completed")).Success?
    ensures var text := svc.transcribe(RecordingName(timestamp)).value;
            var extend := LumaExtend(cfg.lumaExtend);
            var p := GenerateVideoPrompt(text, extend, cfg, svc.chat).value;
            var o := RunPipeline(audioData, timestamp, cfg, svc);
            && o.result == Success("/media/video/" + svc.generateVideo(p, extend).value.0)
            && o.transcription == Some(text) && o.videoPrompt == Some(p)
  {
  }

  /** The progress events of a run: the transcription, then the video
      prompt, as far as the run got. */
  function UpdateEvents(o: Outcome, target: Target): seq<Event>
  {
    (if o.transcription.Some? then [Event(target, TranscriptionUpdate(o.transcription.value))] else [])
    + (if o.videoPrompt.Some? then [Event(target, VideoPromptUpdate(o.videoPrompt.value))] else [])
  }

  /** The last event of a run: the ready video, or the error. */
  function FinalEvent(o: Outcome, target: Target): Event
  {
    match o.result
    case Success(url) => Event(target, VideoReady(url))
    case Failure(e) => Event(target, ErrorMessage("Processing error: " + e))
  }

  /** The events a run emits, in order. */
  function PipelineEvents(o: Outcome, target: Target): seq<Event>
  {
    UpdateEvents(o, target) + [FinalEvent(o, target)]
  }

  /** A run stores a video prompt only after a transcription, and succeeds
      only after storing both. */
  predicate WellFormed(o: Outcome)
  {
    && (o.videoPrompt.Some? ==> o.transcription.Some?)
    && (o.result.Success? ==> o.videoPrompt.Some?)
  }

  /** A successful run emits exactly the transcription, the prompt and the
      ready video, in that order. A failed run emits exactly one error,
      last, with the "Processing error: " prefix, after the updates of the
      steps that did succeed. */
  lemma PipelineEventOrder(o: Outcome, target: Target)
    requires WellFormed(o)
    ensures var events := PipelineEvents(o, target);
            && (o.result.Success? ==>
                 events == [Event(target, TranscriptionUpdate(o.transcription.value)),
                            Event(target, VideoPromptUpdate(o.videoPrompt.value)),
                            Event(target, VideoReady(o.result.value))])
            && (o.result.Failure? ==>
                 && 1 <= |events| <= 3
                 && events[|events| - 1] == Event(target, ErrorMessage("Processing error: " + o.result.error))
                 && (forall i :: 0 <= i < |events| - 1 ==> !events[i].message.ErrorMessage?))
            && (forall i :: 0 <= i < |events| ==> events[i].target == target)
  {
  }

  /** The `try` block of `process_audio` from the generation step on:
      generate the video, save the record read back from `state`, then
      mark the state complete and report the video. The error, if any, is
      returned for the `except` block. */
  method GenerateAndSave(state: RecordingState, text: string, prompt: string, wavFile: string, extend: bool,
                         target: Target, svc: Services)
    returns (emitted: seq<Event>, error: Option<string>)
    requires state.transcription == text && state.videoPrompt == prompt
    modifies state
    ensures var o := AfterPrompt(text, prompt, wavFile, extend, svc);
            && state.isRecording == old(state.isRecording)
            && state.transcription == text && state.videoPrompt == prompt
            && (o.result.Success? ==>
                  && state.status == Complete && state.videoUrl == Some(o.result.value)
                  && error.None? && emitted == [FinalEvent(o, target)])
            && (o.result.Failure? ==>
                  && state.status == old(state.status) && state.videoUrl == old(state.videoUrl)
                  && error == Some(o.result.error) && emitted == [])
  {
    emitted, error := [], None;
    match svc.generateVideo(prompt, extend) {
      case Failure(e) =>
        error := Some(e);
      case Success(files) =>
        var data := DreamData(state.transcription, state.videoPrompt, wavFile, files.0, files.1, "completed");
        match svc.saveDream(data) {
          case Failure(e) =>
            error := Some("Failed to save to database: " + e);
          case Success(_) =>
            state.status := Complete;
            state.videoUrl := Some("/media/video/" + files.0);
            emitted := [Event(target, VideoReady(state.videoUrl.value))];
        }
    }
  }

  /** The `try` block of `process_audio` from the transcription step on:
      store and report the transcription, then the video prompt, then go
      on to the generation step. */
  method TranscribeAndPrompt(state: RecordingState, wavFile: string, target: Target, cfg: PromptConfig, svc: Services)
    returns (emitted: seq<Event>, error: Option<string>)
    modifies state
    ensures var o := AfterSave(wavFile, cfg, svc);
            && state.isRecording == old(state.isRecording)
            && state.transcription == (if o.transcription.Some? then o.transcription.value else old(state.transcription))
            && state.videoPrompt == (if o.videoPrompt.Some? then o.videoPrompt.value else old(state.videoPrompt))
            && (o.result.Success? ==>
                  && state.status == Complete && state.videoUrl == Some(o.result.value)
                  && error.None? && emitted == PipelineEvents(o, target))
            && (o.result.Failure? ==>
                  && state.status == old(state.status) && state.videoUrl == old(state.videoUrl)
                  && error == Some(o.result.error) && emitted == UpdateEvents(o, target))
  {
    emitted, error := [], None;
    ghost var o := AfterSave(wavFile, cfg, svc);
    match svc.transcribe(wavFile) {
      case Failure(e) =>
        error := Some("Failed to transcribe audio: " + e);
        assert o == Outcome(None, None, None, Failure(error.value));
      case Success(text) =>
        state.transcription := text;
        emitted := [Event(target, TranscriptionUpdate(text))];
        var extend := LumaExtend(cfg.lumaExtend);
        var prompt := GenerateVideoPrompt(text, extend, cfg, svc.chat);
        if PromptMissing(prompt) {
          error := Some("Failed to generate video prompt");
          assert o == Outcome(Some(text), None, None, Failure(error.value));
        } else {
          assert o == AfterPrompt(text, prompt.value, wavFile, extend, svc);
          state.videoPrompt := prompt.value;
          emitted := emitted + [Event(target, VideoPromptUpdate(prompt.value))];
          var rest;
          rest, error := GenerateAndSave(state, text, prompt.value, wavFile, extend, target, svc);
          emitted := emitted + rest;
        }
    }
  }

  /** `process_audio`: runs the steps on the chunks it was handed, writing
      `recording_state` as it goes; any failure sets the status to error
      and emits one error event; the list it was handed is always cleared.
      There is no check that `state` still belongs to the recording these
      chunks came from. */
  method ProcessAudio(sid: string, state: RecordingState, chunks: ChunkList, timestamp: string,
                      cfg: PromptConfig, svc: Services)
    returns (emitted: seq<Event>)
    modifies state, chunks
    ensures var o := RunPipeline(Concat(old(chunks.items)), timestamp, cfg, svc);
            && state.isRecording == old(state.isRecording)
            && state.status == (if o.result.Success? then Complete else Error)
            && state.transcription == (if o.transcription.Some? then o.transcription.value else old(state.transcription))
            && state.videoPrompt == (if o.videoPrompt.Some? then o.videoPrompt.value else old(state.videoPrompt))
            && state.videoUrl == (if o.result.Success? then Some(o.result.value) else old(state.videoUrl))
            && emitted == PipelineEvents(o, PipelineTarget(sid))
    ensures chunks.items == []
  {
    var target := PipelineTarget(sid);
    var error: Option<string>;
    var audioData := Concat(chunks.items);
    var saved, _ := SaveWavFile(audioData, Some(RecordingName(timestamp)), timestamp, svc.transcode);
    match saved {
      case Failure(e) =>
        emitted, error := [], Some("Failed to save audio: " + e);
      case Success(wavFile) =>
        emitted, error := TranscribeAndPrompt(state, wavFile, target, cfg, svc);
    }
    if error.Some? {
      state.status := Error;
      emitted := emitted + [Event(target, ErrorMessage("Processing error: " + error.value))];
    }
    chunks.Clear();
  }
}
