/** The state shared between the socket handlers of the desktop server and
    the processing pipeline: the global `recording_state` dict, the global
    `audio_chunks` list, and the events both sides emit on the socket. */
module Session {
  import opened Results

  /** A byte of streamed audio. */
  newtype byte = x: int | 0 <= x < 256

  /** The values `recording_state['status']` takes. */
  datatype Status = Ready | Recording | Processing | Complete | Error

  /** The dict as it is serialised into a `state_update` event. */
  datatype StateView = StateView(
    isRecording: bool,
    status: Status,
    transcription: string,
    videoPrompt: string,
    videoUrl: Option<string>)

  /** Who receives an event: the client whose message is being handled
      (`emit`), one client room (`socketio.emit(..., room=sid)`), or every
      client (`socketio.emit` without a room). */
  datatype Target = Sender | Room(sid: string) | Everyone

  datatype Message =
    | StateUpdate(state: StateView)
    | TranscriptionUpdate(text: string)
    | VideoPromptUpdate(text: string)
    | VideoReady(url: string)
    | PlayVideo(videoUrl: string, loop: bool)
    | ErrorMessage(message: string)

  datatype Event = Event(target: Target, message: Message)

  /** The pipeline addresses its events to the room of the client that
      stopped the recording when that client's id is non-empty
      (`if sid:`), and to every client otherwise. */
  function PipelineTarget(sid: string): (t: Target)
    ensures t == Everyone <==> sid == ""
    ensures t.Room? ==> t.sid == sid
    ensures sid != "" ==> t == Room(sid)
  {
    if sid != "" then Room(sid) else Everyone
  }

  /** A dream as the database returns it; a file name is `None` when the
      column is empty. */
  datatype DreamRecord = DreamRecord(
    id: int,
    userPrompt: string,
    generatedPrompt: string,
    audioFilename: Option<string>,
    videoFilename: Option<string>,
    thumbFilename: Option<string>,
    status: string)

  /** Python's `f"{value}"` of an optional file name. */
  function Render(name: Option<string>): string
  {
    if name.Some? then name.value else "None"
  }

  /** The global `recording_state` dict; its fields are written in place by
      the socket handlers and by the pipeline. */
  class RecordingState {
    var isRecording: bool
    var status: Status
    var transcription: string
    var videoPrompt: string
    var videoUrl: Option<string>

    /** The dict's initial contents. */
    constructor ()
      ensures !isRecording && status == Ready
      ensures transcription == "" && videoPrompt == "" && videoUrl == None
    {
      isRecording := false;
      status := Ready;
      transcription := "";
      videoPrompt := "";
      videoUrl := None;
    }

    function View(): (v: StateView)
      reads this
    {
      StateView(isRecording, status, transcription, videoPrompt, videoUrl)
    }
  }

  /** A Python list of audio chunks. Several names can refer to the same
      list object, so it is an object and not a value. */
  class ChunkList {
    var items: seq<seq<byte>>

    constructor ()
      ensures items == []
    {
      items := [];
    }

    /** `list.append(chunk)`. */
    method Append(chunk: seq<byte>)
      modifies this
      ensures items == old(items) + [chunk]
    {
      items := items + [chunk];
    }

    /** `list.clear()`. */
    method Clear()
      modifies this
      ensures items == []
    {
      items := [];
    }
  }
}
