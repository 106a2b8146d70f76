/** The HTTP routes of `dream_recorder_desktop.py` that hold logic: the
    sensitive-key filter of `/api/config`, the directory dispatch of
    `/media/<path>`, and the best-effort file clean-up of
    `DELETE /api/dreams/<id>`. */
module Routes {
  import opened Results
  import opened Text
  import opened Session

  /** The words whose presence in a lower-cased key hides the entry. */
  const SensitiveWords: seq<string> := ["key", "secret", "password"]

  /** `any(sensitive in k.lower() for sensitive in ['key', 'secret', 'password'])`. */
  predicate IsSensitive(key: string)
    ensures IsSensitive(key) ==> |key| >= 3
  {
    exists i :: 0 <= i < |SensitiveWords| && Contains(Lower(key), SensitiveWords[i])
  }

  /** A key is sensitive exactly when some sensitive word occurs at some
      position of its lower-cased form. */
  lemma IsSensitiveAt(key: string)
    ensures IsSensitive(key) <==>
              exists w, i :: 0 <= w < |SensitiveWords| && OccursAt(Lower(key), SensitiveWords[w], i)
  {
    var lowered := Lower(key);
    if IsSensitive(key) {
      var w :| 0 <= w < |SensitiveWords| && Contains(lowered, SensitiveWords[w]);
      ContainsIff(lowered, SensitiveWords[w]);
      var i :| OccursAt(lowered, SensitiveWords[w], i);
      assert 0 <= w < |SensitiveWords| && OccursAt(Lower(key), SensitiveWords[w], i);
    }
    if exists w, i :: 0 <= w < |SensitiveWords| && OccursAt(lowered, SensitiveWords[w], i) {
      var w, i :| 0 <= w < |SensitiveWords| && OccursAt(lowered, SensitiveWords[w], i);
      ContainsIff(lowered, SensitiveWords[w]);
      assert Contains(lowered, SensitiveWords[w]);
    }
  }

  /** The dict comprehension of `api_get_config`: the entries whose key is
      not sensitive, with their values. */
  function SafeConfig<V>(config: map<string, V>): (safe: map<string, V>)
    ensures forall k :: k in safe <==> k in config && !IsSensitive(k)
    ensures forall k :: k in safe ==> safe[k] == config[k]
  {
    map k | k in config && !IsSensitive(k) :: config[k]
  }

  /** No key that `/api/config` returns has "key", "secret" or "password"
      at any position of its lower-cased form. */
  lemma SafeConfigHidesSecrets<V>(config: map<string, V>, k: string, w: nat, i: int)
    requires k in SafeConfig(config) && w < |SensitiveWords|
    ensures !OccursAt(Lower(k), SensitiveWords[w], i)
  {
    ContainsIff(Lower(k), SensitiveWords[w]);
  }

  /** Every key that mentions a sensitive word, in any case, is dropped. */
  lemma SafeConfigDropsSecrets<V>(config: map<string, V>, k: string, w: nat, i: int)
    requires k in config && w < |SensitiveWords| && OccursAt(Lower(k), SensitiveWords[w], i)
    ensures k !in SafeConfig(config)
  {
    ContainsIff(Lower(k), SensitiveWords[w]);
  }

  /** Filtering a filtered configuration changes nothing. */
  lemma SafeConfigIdempotent<V>(config: map<string, V>)
    ensures SafeConfig(SafeConfig(config)) == SafeConfig(config)
  {
  }

  /** The media directories of the configuration. */
  datatype MediaDir = VideosDir | ThumbsDir | RecordingsDir

  /** An HTTP answer: a file sent back, or a status code with its text. */
  datatype Reply = SendFile(dir: MediaDir, filename: string) | Status(code: nat, body: string)

  /** The directory a media type names; `None` for an unknown type. */
  function MediaDirOf(mediaType: string): Option<MediaDir>
  {
    if mediaType == "video" then Some(VideosDir)
    else if mediaType == "thumbs" then Some(ThumbsDir)
    else if mediaType == "audio" then Some(RecordingsDir)
    else None
  }

  /** The dispatch of `serve_media`: split the path on '/', take the first
      piece as the media type and join the rest back as the file name; a
      path without '/' is a file in the videos directory. */
  function ResolveMedia(path: string): (r: Result<(MediaDir, string), string>)
    ensures r.Failure? ==> r.error == "Invalid media type" && '/' in path
    ensures r.Success? ==>
              || r.value.1 == path
              || (&& |r.value.1| < |path| && path[|path| - |r.value.1| - 1] == '/'
                  && path[|path| - |r.value.1|..] == r.value.1)
  {
    SplitPieces(path, '/');
    JoinSplit(path, '/');
    var parts := Split(path, '/');
    if |parts| > 1 then
      var filename := Join(parts[1..], '/');
      match MediaDirOf(parts[0])
      case Some(dir) => Success((dir, filename))
      case None => Failure("Invalid media type")
    else
      Success((VideosDir, path))
  }

  /** `serve_media`: 400 for an unknown media type, 404 for a file that is
      not among `existing`, otherwise the file. */
  function ServeMedia(path: string, existing: set<(MediaDir, string)>): (reply: Reply)
    ensures reply == Status(400, "Invalid media type") <==> ResolveMedia(path).Failure?
    ensures reply.SendFile? <==> ResolveMedia(path).Success? && ResolveMedia(path).value in existing
    ensures reply.SendFile? ==> (reply.dir, reply.filename) == ResolveMedia(path).value
    ensures ResolveMedia(path).Success? && ResolveMedia(path).value !in existing ==>
              reply == Status(404, "File not found: " + ResolveMedia(path).value.1)
    ensures reply.Status? && reply.code == 404 ==>
              ResolveMedia(path).Success? && ResolveMedia(path).value !in existing
              && reply.body == "File not found: " + ResolveMedia(path).value.1
  {
    match ResolveMedia(path)
    case Failure(msg) => Status(400, msg)
    case Success(file) =>
      if file in existing then SendFile(file.0, file.1) else Status(404, "File not found: " + file.1)
  }

  /** The dispatch cuts the path at its first '/': what comes before names
      the directory and everything after, further slashes included, is the
      file name; a path without '/' is a file of the videos directory. */
  lemma ResolveMediaCutsAtFirstSlash(path: string, i: nat)
    requires i < |path| && path[i] == '/' && '/' !in path[..i]
    ensures ResolveMedia(path) == match MediaDirOf(path[..i])
                                  case Some(dir) => Success((dir, path[i + 1..]))
                                  case None => Failure("Invalid media type")
  {
    var parts := Split(path, '/');
    JoinSplit(path, '/');
    SplitPieces(path, '/');
    assert '/' in path;
    assert |parts| > 1;
    assert path == parts[0] + ['/'] + Join(parts[1..], '/');
    assert '/' !in parts[0];
    var n := |parts[0]|;
    assert path[..n] == parts[0];
    assert forall j :: 0 <= j < i ==> path[j] != '/' by {
      forall j | 0 <= j < i ensures path[j] != '/' {
        assert path[..i][j] == path[j];
      }
    }
    assert forall j :: 0 <= j < n ==> path[j] != '/' by {
      forall j | 0 <= j < n ensures path[j] != '/' {
        assert parts[0][j] == path[j];
      }
    }
    assert path[n] == '/';
    assert n == i;
    assert path[i + 1..] == Join(parts[1..], '/');
  }

  lemma ResolveMediaWithoutSlash(path: string)
    requires '/' !in path
    ensures ResolveMedia(path) == Success((VideosDir, path))
  {
    SplitPieces(path, '/');
  }

  /** The dream database, as the map from id to record that `get_dream`
      and `delete_dream` consult. */
  class DreamStore {
    var records: map<int, DreamRecord>
  }

  /** The files present in the media directories. */
  class MediaFiles {
    var present: set<(MediaDir, string)>

    /** `if os.path.exists(path): os.remove(path)` inside a `try` whose
        failure is logged and swallowed: a file in `undeletable` is one
        whose removal raises. */
    method TryRemove(file: (MediaDir, string), undeletable: set<(MediaDir, string)>)
      modifies this
      ensures present == if file in undeletable then old(present) else old(present) - {file}
    {
      if file in present && file !in undeletable {
        present := present - {file};
      }
    }
  }

  /** Python truthiness of an optional file name. */
  predicate Truthy(name: Option<string>)
  {
    name.Some? && name.value != ""
  }

  /** The files `delete_dream` tries to remove for a record: its video,
      thumbnail and audio file, each only when the name is set. */
  function MediaOf(d: DreamRecord): (files: set<(MediaDir, string)>)
    ensures forall f :: f in files ==>
              || (Truthy(d.videoFilename) && f == (VideosDir, d.videoFilename.value))
              || (Truthy(d.thumbFilename) && f == (ThumbsDir, d.thumbFilename.value))
              || (Truthy(d.audioFilename) && f == (RecordingsDir, d.audioFilename.value))
    ensures Truthy(d.videoFilename) ==> (VideosDir, d.videoFilename.value) in files
    ensures Truthy(d.thumbFilename) ==> (ThumbsDir, d.thumbFilename.value) in files
    ensures Truthy(d.audioFilename) ==> (RecordingsDir, d.audioFilename.value) in files
  {
    (if Truthy(d.videoFilename) then {(VideosDir, d.videoFilename.value)} else {})
    + (if Truthy(d.thumbFilename) then {(ThumbsDir, d.thumbFilename.value)} else {})
    + (if Truthy(d.audioFilename) then {(RecordingsDir, d.audioFilename.value)} else {})
  }

  /** `delete_dream`: 404 for an unknown id; otherwise the record is
      removed, then each of its files is removed on its own, a failure on
      one (or a file already gone) not stopping the others, and the answer
      is success. */
  method DeleteDream(db: DreamStore, files: MediaFiles, id: int, undeletable: set<(MediaDir, string)>)
    returns (reply: Reply)
    modifies db, files
    ensures id !in old(db.records) ==>
              reply == Status(404, "Dream not found")
              && db.records == old(db.records) && files.present == old(files.present)
    ensures id in old(db.records) ==>
              && reply == Status(200, "Dream deleted successfully")
              && db.records == old(db.records) - {id}
              && files.present == old(files.present) - (MediaOf(old(db.records)[id]) - undeletable)
  {
    if id !in db.records {
      return Status(404, "Dream not found");
    }
    var dream := db.records[id];
    db.records := db.records - {id};
    if Truthy(dream.videoFilename) {
      files.TryRemove((VideosDir, dream.videoFilename.value), undeletable);
    }
    if Truthy(dream.thumbFilename) {
      files.TryRemove((ThumbsDir, dream.thumbFilename.value), undeletable);
    }
    if Truthy(dream.audioFilename) {
      files.TryRemove((RecordingsDir, dream.audioFilename.value), undeletable);
    }
    reply := Status(200, "Dream deleted successfully");
  }
}
