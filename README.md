# Dream recorder: recording session, processing pipeline and playback cursor

This Dafny project models the core of the desktop dream recorder. A browser
streams audio chunks over a socket while the session is recording. On stop,
the server hands the chunk list to a background pipeline. The pipeline joins
the audio and transcodes it with ffmpeg, transcribes it, asks a chat model
for a video prompt, generates a video and saves a dream record. Along the
way it writes the global `recording_state` and emits socket events. A
playback cursor cycles a display through the stored dreams, newest first.
Three HTTP routes hold small rules: the `/api/config` filter of sensitive
keys, the `/media/<type>/<file>` directory dispatch, and the best-effort file
clean-up of `DELETE /api/dreams/<id>`.

Files and modules:

- `results.dfy` (`Results`): `Option` and `Result`. They stand for Python's
  `None` and for raised exceptions.
- `text.dfy` (`Text`): the Python string operations the code relies on:
  `lower()`, `sub in s`, `strip()`, `split('/')` and `'/'.join`.
- `session.dfy` (`Session`): state shared by the handlers and the pipeline.
  - the `recording_state` dict is a class, `RecordingState`;
  - the `audio_chunks` list is a class, `ChunkList`, because the list object
    is shared by reference;
  - also the socket events and the dream record.
- `audio.dfy` (`Audio`): `functions/audio.py`.
  - `RunPipeline` states what one run computes, as a pure value;
  - `ProcessAudio` performs the run on the shared state, and its
    postcondition ties the new state and the emitted events to
    `RunPipeline`.
- `desktop.dfy` (`Desktop`): the socket handlers of
  `dream_recorder_desktop.py`.
  - class `Recorder` holds the module globals; class `Playback` holds the
    cursor;
  - `Cycle` is the cursor arithmetic, with lemmas about repeated cycling;
  - two scenario methods show what the handlers do in sequence.
- `routes.dfy` (`Routes`): the config filter, the media dispatch and
  `delete_dream`.

External services are parameters. ffmpeg, the transcription service, the
chat model, the video generator and the dream database are functions in a
`Services` value. Each maps what it is sent to what it answers, and a
`Failure` stands for the exception it raises. So the model can state what
each service was called with. The timestamp is also a parameter.

Behaviour of the code worth noting:

- Start is guarded by `is_recording`, not by `status`. The same flag gates
  the chunk handler.
- Stop hands the pipeline the live list object, not a copy. No run
  identifier is attached.
- The pipeline writes `recording_state` without checking that it still
  belongs to its recording. `StaleRunOverwritesNewRecording` shows a new
  recording whose status reads `complete` after a stale run finishes.
- The pipeline clears only the list it was handed. A start in between
  rebinds the global to a fresh list, so the new recording's chunks survive.
- With no dreams, "show previous" returns silently. "Show latest" reports an
  error in that case.

## Model

| member | source | states |
|---|---|---|
| `Text.TrimStart` | functions/audio.py:115 | The left half of `strip()`: the result is a suffix of the input. Everything removed is whitespace, and the result does not start with whitespace. |
| `Text.TrimEnd` | functions/audio.py:115 | The right half of `strip()`: the result is a prefix of the input. Everything removed is whitespace, and the result does not end with whitespace. |
| `Text.StripIsSlice` | functions/audio.py:115 | `strip()` returns the slice between the leading and trailing whitespace. That slice neither starts nor ends with whitespace. |
| `Text.StripEmptyIff` | functions/audio.py:115 | The stripped text is empty exactly when the input is all whitespace. |
| `Text.Lower` | dream_recorder_desktop.py:255 | `lower()` keeps the length and lower-cases each ASCII letter in place. |
| `Text.LowerEquals` | functions/audio.py:166 | The lower-cased text equals a word exactly when the two agree letter by letter up to case. |
| `Text.LowerIdempotent` | functions/audio.py:166 | Lower-casing twice is lower-casing once. |
| `Text.ContainsIff` | dream_recorder_desktop.py:255 | The recursive substring test `sub in s` agrees with "`sub` occurs at some position of `s`". |
| `Text.Split` | dream_recorder_desktop.py:318 | `split('/')` always yields at least one piece. |
| `Text.JoinSplit` | dream_recorder_desktop.py:318-321 | Joining the pieces of a split with the separator gives back the original string. |
| `Text.SplitPieces` | dream_recorder_desktop.py:318-319 | No piece contains the separator. There is more than one piece exactly when the separator occurs. |
| `Session.PipelineTarget` | functions/audio.py:160-163 | Pipeline events go to the room of the stopping client's id when that id is non-empty, and to every client exactly when it is empty. |
| `Session.RecordingState.constructor` | dream_recorder_desktop.py:28-34 | Initial session: not recording, status `ready`, empty transcription and prompt, no video URL. |
| `Session.ChunkList.Append` | dream_recorder_desktop.py:138 | `append` adds the chunk at the end and changes nothing else. |
| `Session.ChunkList.Clear` | functions/audio.py:232-234 | `clear` empties this list object in place. |
| `Audio.ConcatAppend` | functions/audio.py:125 | Joining chunks with one more chunk at the end appends that chunk's bytes. |
| `Audio.ConcatSplit` | functions/audio.py:125 | `b''.join` over two runs of chunks is the join of the first run followed by the join of the second. No byte is lost, duplicated or reordered. |
| `Audio.Concat` | functions/audio.py:125 | `b''.join` has exactly as many bytes as the chunks hold together, counted independently from the last chunk back. |
| `Audio.WriteInChunks` | functions/audio.py:40-42 | The write loop emits `data[i:i+8192]` for `i = 0, 8192, ...`. The writes concatenate back to the data. Each write is non-empty and at most 8192 bytes. |
| `Audio.ConversionOutcome` | functions/audio.py:67-81 | The file name is returned exactly when ffmpeg finished and the output exists and is non-empty. Otherwise the ffmpeg error, or the missing/empty-output error. |
| `Audio.SaveWavFile` | functions/audio.py:26-81 | The temporary file receives exactly the audio data, in slices of at most 8192 bytes. The transcoder reads that data. The name is the given one, or `recording_<timestamp>.wav` when none is given. |
| `Audio.LumaExtendExamples` | functions/audio.py:166 | `True`, `1`, `YES` and `tRuE` enable the extend flag. `False`, `0`, the empty string, ` true`, `y` and `on` do not. |
| `Audio.LumaExtendCaseInsensitive` | functions/audio.py:166 | The flag ignores case: lower-casing the raw value first never changes it. |
| `Audio.LumaExtend` | functions/audio.py:166 | The flag is set exactly by `1`, or by `true` or `yes` in any mix of cases, with nothing around them. |
| `Audio.SystemPrompt` | functions/audio.py:105 | The system message is one of the two templates. When the templates differ, it is the extend template exactly when the flag is set. |
| `Audio.GenerateVideoPrompt` | functions/audio.py:102-119 | The result is `None` exactly when the chat call raised. Otherwise it is the slice of the reply left after removing only whitespace at both ends, and the slice neither starts nor ends with whitespace. The chat receives the selected template and the transcription. |
| `Audio.PromptMissingIff` | functions/audio.py:169-177 | The prompt counts as missing (`not video_prompt`) exactly when the chat call raised or replied with whitespace only. `RunPipeline` states that a missing prompt fails the run. |
| `Audio.RunPipeline` | functions/audio.py:121-217 | A prompt is stored only after a transcription, and never an empty one. On success the record saved has `user_prompt` = the transcription, `generated_prompt` = the prompt, the WAV name, the generated files and status `completed`, and the URL is `/media/video/` + the video file. The transcription is stored exactly when saving and transcribing succeeded, and it is the service's answer. The stored prompt is `GenerateVideoPrompt`'s stripped reply to that transcription. A missing or blank prompt stores none and fails the run with `Failed to generate video prompt`. |
| `Audio.AfterSave` | functions/audio.py:144-217 | After the save step: the transcription is stored exactly when the transcription service succeeds, and success implies the record and URL above. |
| `Audio.AfterSavePrompt` | functions/audio.py:165-217 | After the save step, the stored prompt is the stripped chat reply. A missing prompt fails the run with `Failed to generate video prompt`. With a prompt, a successful generation and a successful save, the run succeeds with the generated video's URL. |
| `Audio.AfterPrompt` | functions/audio.py:186-217 | After the prompt step: the record holds the transcription, the prompt and the generated file names with status `completed`. The URL names the generated video. It succeeds exactly when both services do, and then with `/media/video/` + the generated video file. |
| `Audio.PipelineCompletes` | functions/audio.py:121-217 | For any services: when ffmpeg writes a non-empty file, transcription succeeds, the chat reply is not blank, and generation and save succeed, the run completes. It then has the generated video's URL, the transcription and the stripped prompt. |
| `Audio.PipelineEventOrder` | functions/audio.py:157-228 | A successful run emits transcription, prompt and video-ready events, in that order. A failed run emits exactly one error event, last, prefixed `Processing error: `. All go to one target. |
| `Audio.GenerateAndSave` | functions/audio.py:186-217 | Generation step on the state: complete status and video URL on success. On failure the state is untouched and the exception message is returned. |
| `Audio.TranscribeAndPrompt` | functions/audio.py:144-217 | Transcription and prompt steps on the state: each field is written only once its step succeeds. The events emitted match the outcome. |
| `Audio.ProcessAudio` | functions/audio.py:121-234 | The new state matches the run's outcome. Status is `complete` or `error`. Fields written before a failure are kept. `is_recording` is untouched. The events are exactly the run's events. The handed list is empty afterwards whatever the outcome. |
| `Desktop.ChunkBytes` | dream_recorder_desktop.py:136 | `bytes(data['data'])` succeeds exactly when the field exists and every value is a byte, and then keeps the values in order. |
| `Desktop.Recorder.constructor` | dream_recorder_desktop.py:28-47 | The globals start idle, with an empty chunk list and the cursor at 0, not playing. |
| `Desktop.Recorder.InitiateRecording` | dream_recorder_desktop.py:71-82 | Sets `is_recording`, status `recording`, empty transcription and prompt, and a fresh empty chunk list. The video URL is unchanged. |
| `Desktop.Recorder.HandleStartRecording` | dream_recorder_desktop.py:118-128 | While recording, nothing changes, the chunks are kept and nothing is emitted. Otherwise the session is initiated and one `state_update` goes to the sender. |
| `Desktop.Recorder.HandleAudioData` | dream_recorder_desktop.py:130-142 | While recording, a convertible chunk is appended at the end. A malformed one yields one error event to the sender and no change. When not recording, nothing happens. |
| `Desktop.Recorder.HandleStopRecording` | dream_recorder_desktop.py:144-167 | While recording: `is_recording` false, status `processing`, the live list handed off, one `state_update` to the sender. Otherwise no change and no event. |
| `Desktop.Recorder.StopAndProcess` | dream_recorder_desktop.py:144-167 | Stop followed by the run it spawns. First the processing `state_update`, then the run's events. The run gets the recorded chunks joined in order. The list ends empty, the status is `complete` or `error`, and the transcription, prompt and video URL are the run's, or kept where the run did not reach them. When not recording, nothing changes. |
| `Desktop.Playback.ShowLatestDream` | dream_recorder_desktop.py:205-231 | With dreams: index 0, playing, and dream 0's video played in a loop for everyone. With none: one `No dreams found` error and no change. A database failure gives one error and no change. |
| `Desktop.Playback.ShowPreviousDream` | dream_recorder_desktop.py:169-203 | With dreams: when playing, the index moves one on, wrapping to 0. When not playing, index 0 and playing. The index is in bounds and that dream plays in a loop. With none: no change and no event. |
| `Desktop.VideoUrl` | dream_recorder_desktop.py:192 | The URL is `/media/video/` followed by the record's video file name, or by `None` when the name is missing. |
| `Desktop.Cycle` | dream_recorder_desktop.py:181-183 | One cycle stays inside the list. It moves one dream on unless at the last dream. At or past the last dream it wraps to the newest (index 0), which covers a cursor left past the end after deletions. |
| `Desktop.CycleAdvances` | dream_recorder_desktop.py:181-183 | Before the end, `k` cycles move the cursor exactly `k` dreams on. |
| `Desktop.CycleCompose` | dream_recorder_desktop.py:181-183 | `a` cycles followed by `b` cycles equal `a + b` cycles. |
| `Desktop.CycleWraps` | dream_recorder_desktop.py:181-183 | From any dream, the cursor returns to the newest after the remaining dreams. |
| `Desktop.CycleVisitsAll` | dream_recorder_desktop.py:174-189 | Cycling reaches every dream in fewer cycles than there are dreams, and returns to its start after one full round. |
| `Desktop.RecordSession` | dream_recorder_desktop.py:118-167 | Start, stream, stop: the pipeline is handed exactly the convertible payloads' bytes in arrival order. Each other payload caused one error event. |
| `Desktop.AllSucceedCompletes` | functions/audio.py:121-217 | For one concrete set of succeeding answers (`a dream`, `a prompt`, `dream.mp4`), every recording completes with `/media/video/dream.mp4`. So the precondition of `StaleRunOverwritesNewRecording` can be met. |
| `Desktop.StaleRunOverwritesNewRecording` | functions/audio.py:157-234 | No run-identifier guard. Take any services under which a run over an empty recording succeeds. If that run finishes after a new start, the new, still-recording session is marked `complete` with the old run's video URL. The old run's `clear` leaves the new recording's chunk `[7]` in place. |
| `Routes.IsSensitive` | dream_recorder_desktop.py:255 | A sensitive key is at least three characters long, the length of the shortest word. |
| `Routes.IsSensitiveAt` | dream_recorder_desktop.py:255 | A key is sensitive exactly when `key`, `secret` or `password` occurs at some position of its lower-cased form. |
| `Routes.SafeConfig` | dream_recorder_desktop.py:254-255 | Keeps exactly the entries whose lower-cased key contains none of `key`, `secret`, `password`, with unchanged values. |
| `Routes.SafeConfigHidesSecrets` | dream_recorder_desktop.py:254-255 | No returned key has a sensitive word at any position of its lower-cased form. |
| `Routes.SafeConfigDropsSecrets` | dream_recorder_desktop.py:254-255 | Any key with a sensitive word at some position of its lower-cased form is dropped. |
| `Routes.SafeConfigIdempotent` | dream_recorder_desktop.py:254-255 | Filtering twice equals filtering once. |
| `Routes.ServeMedia` | dream_recorder_desktop.py:312-339 | 400 `Invalid media type` exactly for an unknown type. The file is sent exactly when the resolved file exists. Otherwise 404 `File not found: ` with the file name. |
| `Routes.ResolveMedia` | dream_recorder_desktop.py:317-333 | The only failure is `Invalid media type`, and only for a path with `/`. The file name is the whole path, or a proper suffix of it that follows a `/`. |
| `Routes.ResolveMediaCutsAtFirstSlash` | dream_recorder_desktop.py:318-330 | The path is cut at its first `/`: the prefix picks the directory (`video`, `thumbs`, `audio`) or yields 400. Everything after it, further slashes included, is the file name. |
| `Routes.ResolveMediaWithoutSlash` | dream_recorder_desktop.py:331-333 | A path without `/` is a file of the videos directory. |
| `Routes.MediaFiles.TryRemove` | dream_recorder_desktop.py:279-284 | A file is removed unless its removal raises. The failure is swallowed and nothing else changes. |
| `Routes.MediaOf` | dream_recorder_desktop.py:276-304 | The files tried are the video, thumbnail and audio file, each only when its name is set. |
| `Routes.DeleteDream` | dream_recorder_desktop.py:260-306 | Unknown id: 404 `Dream not found` and no change. Otherwise the record is removed. Every file of the record is removed unless its own removal fails, independently of the others. The answer is success. |

## Left out

- Concurrency. gevent's monkey-patching and the scheduling of `gevent.spawn` are not modelled. The spawned run is an ordinary call made after the stop handler returns. Interleavings appear only as explicit call orders, as in `StaleRunOverwritesNewRecording`.
- The external services are not modelled. ffmpeg, Whisper, the chat model, `generate_video` and `DreamDB` appear only as answers to what they are sent. The chat model name, temperature and token limit are not modelled. The `DreamDB` module is not part of this model.
- `create_wav_file`, `audio_buffer` and `wav_file`. `initiate_recording` also resets them, but no modelled code reads them.
- Side effects of `save_wav_file` besides the writes: `os.makedirs`, the temporary-file deletion, and joining with `RECORDINGS_DIR`. The transcription service receives the WAV file name.
- Logging, `print`, and `datetime.now()`. The timestamp is a parameter.
- `Audio.RunPipeline`: omits the `if not wav_filename` check (functions/audio.py:134-135). `save_wav_file` returns the non-empty name it was given, so the check cannot fire.
- `Desktop.Playback.ShowPreviousDream`: omits the `if not dream` check (dream_recorder_desktop.py:198-199), which cannot fire with a non-empty list. It also omits a record without a `video_filename` key.
- `Desktop.Playback.ShowLatestDream`: omits a record without a `video_filename` key. In the code the cursor is already set (dream_recorder_desktop.py:217-218) when the lookup at :223 raises and the error is emitted.
- `Desktop.ChunkBytes`: models a payload that is a list of integers or has no `data` key. Other payload types are not modelled.
- `Routes.ServeMedia`: the file name comes from the request and is joined to the media directory unchecked (dream_recorder_desktop.py:321, 335-339). A name such as `video/../../x` therefore reaches a file outside `VIDEOS_DIR`. The model's `SendFile(VideosDir, "../../x")` names the directory and the raw name only. It does not capture that escape or any other `os.path.join` resolution.
- `Text.Lower`: folds ASCII letters only. Python's `lower()` also folds other Unicode letters.
- `Routes.SafeConfig`: the configuration is a map, so key order is not modelled. An exception from loading the configuration (the 500 answer) is not modelled.
- `Routes.DeleteDream`: database exceptions (the 500 answer) are not modelled. Paths are (directory, file name) pairs, so `os.path.join` behaviour for absolute or `..` names is not modelled.
- The newest-first order of `get_all_dreams` is an assumption. The handlers receive the list as given.
- `handle_connect` and `handle_disconnect`, the page routes, `serve_thumbnail`, `serve_audio`, `init_sample_dreams_if_missing`, the `__main__` block and the browser script are not modelled. They hold no logic of the core.
