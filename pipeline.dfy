/**
 The body of scripts/process_audio.py: for each discovered input file, upload it
 under a temporary key, transcribe it (polling until COMPLETED), store the
 transcript, translate it to Spanish, store the translation, synthesize Spanish
 speech, upload the audio and delete the temporary upload.

 Each external service is an answer fixed in advance (`Services`). A provider
 error is a `None` answer; like the uncaught exception it stands for, it ends
 the whole script on the spot, leaving every write made so far in place.
 */
module Pipeline {

  import opened Wrappers
  import opened Naming
  import opened Transcription
  import opened Storage

  /** The bucket name (S3_BUCKET) and the environment tag (ENVIRONMENT, "beta" by default). */
  datatype Config = Config(bucket: string, env: string)

  /** What the external collaborators answer. */
  datatype Services = Services(
    clock: nat -> nat,                    // int(time.time()) while the k-th file is processed
    statuses: string -> seq<Status>,      // the statuses reported for a job name, in order
    transcript: Bytes -> Option<string>,  // the transcript of the uploaded audio; None: fetch or parse fails
    translate: string -> Option<string>,  // translate_text, en to es; None: provider error
    synthesize: string -> Option<Bytes>)  // synthesize_speech, mp3, voice Joanna; None: provider error

  /** The external calls the script makes, in the order it makes them. */
  datatype Call =
    | UploadFile(key: string)
    | StartTranscriptionJob(job: string, mediaUri: string)
    | GetTranscriptionJob(job: string)
    | PutObject(key: string)
    | TranslateText(text: string)
    | SynthesizeSpeech(text: string)
    | DeleteObject(key: string)

  /** The stages whose provider call can raise. */
  datatype Stage = Ingest | Transcribe | Translate | Synthesize

  /** How the processing of one file ends: all stages done, an exception in a
      stage, or a transcription job never seen COMPLETED (the script waits for ever). */
  datatype Outcome = Done | Raised(stage: Stage) | Hung

  datatype FileRun = FileRun(outcome: Outcome, objects: Objects, calls: seq<Call>)

  /** `n` status queries for job `job`. */
  function Polls(job: string, n: nat): seq<Call> {
    seq(n, _ => GetTranscriptionJob(job))
  }

  /** The processing of one input file (lines 24-93), started at clock reading
      `now`, on bucket contents `m`. */
  function RunFile(m: Objects, cfg: Config, local: LocalFiles, svc: Services,
                   path: string, now: nat): FileRun
  {
    var id := FileId(path);
    var temp := TempKey(id);
    if path !in local then FileRun(Raised(Ingest), m, [UploadFile(temp)])
    else
      var m1 := m[temp := Binary(local[path])];
      var job := JobName(id, now);
      var uri := MediaUri(cfg.bucket, id);
      var c1 := [UploadFile(temp), StartTranscriptionJob(job, uri)];
      var feed := svc.statuses(job);
      match FirstCompleted(feed)
      case None => FileRun(Hung, m1, c1 + Polls(job, |feed|))
      case Some(waits) =>
        var c2 := c1 + Polls(job, waits + 1);
        match svc.transcript(local[path])
        case None => FileRun(Raised(Transcribe), m1, c2)
        case Some(t) =>
          var tk := TranscriptKey(cfg.env, id);
          var m2 := m1[tk := Text(t)];
          var c3 := c2 + [PutObject(tk), TranslateText(t)];
          match svc.translate(t)
          case None => FileRun(Raised(Translate), m2, c3)
          case Some(tr) =>
            var trk := TranslationKey(cfg.env, id);
            var m3 := m2[trk := Text(tr)];
            var c4 := c3 + [PutObject(trk), SynthesizeSpeech(tr)];
            match svc.synthesize(tr)
            case None => FileRun(Raised(Synthesize), m3, c4)
            case Some(audio) =>
              var ak := AudioKey(cfg.env, id);
              FileRun(Done, m3[ak := Binary(audio)] - {temp}, c4 + [UploadFile(ak), DeleteObject(temp)])
  }

  /** One pass of the `for mp3_file in mp3_files` body, on the bucket in place. */
  method ProcessFile(bucket: Bucket, cfg: Config, local: LocalFiles, svc: Services,
                     path: string, now: nat) returns (outcome: Outcome, calls: seq<Call>)
    modifies bucket
    ensures FileRun(outcome, bucket.objects, calls)
         == RunFile(old(bucket.objects), cfg, local, svc, path, now)
  {
    var id := FileId(path);
    var temp := TempKey(id);
    var uploaded := bucket.UploadFile(local, path, temp);
    if !uploaded {
      return Raised(Ingest), [UploadFile(temp)];
    }

    var job := JobName(id, now);
    var uri := MediaUri(cfg.bucket, id);
    calls := [UploadFile(temp), StartTranscriptionJob(job, uri)];
    var feed := svc.statuses(job);
    var waits := AwaitCompletion(feed);
    if waits.None? {
      return Hung, calls + Polls(job, |feed|);
    }
    calls := calls + Polls(job, waits.value + 1);
    var fetched := svc.transcript(local[path]);
    if fetched.None? {
      return Raised(Transcribe), calls;
    }
    var transcript := fetched.value;

    var tk := TranscriptKey(cfg.env, id);
    bucket.PutObject(tk, Text(transcript));
    calls := calls + [PutObject(tk), TranslateText(transcript)];
    var translated := svc.translate(transcript);
    if translated.None? {
      return Raised(Translate), calls;
    }

    var trk := TranslationKey(cfg.env, id);
    bucket.PutObject(trk, Text(translated.value));
    calls := calls + [PutObject(trk), SynthesizeSpeech(translated.value)];
    var speech := svc.synthesize(translated.value);
    if speech.None? {
      return Raised(Synthesize), calls;
    }

    var ak := AudioKey(cfg.env, id);
    bucket.PutObject(ak, Binary(speech.value));
    bucket.DeleteObject(temp);
    calls := calls + [UploadFile(ak), DeleteObject(temp)];
    outcome := Done;
  }

  // ---------------------------------------------------------------------------
  // What one file's processing does to the bucket
  // ---------------------------------------------------------------------------

  /** Key `k` is absent from both maps or maps to the same body in both. */
  predicate SameAt(m: Objects, m': Objects, k: string) {
    (k in m <==> k in m') && (k in m ==> m[k] == m'[k])
  }

  /** `m'` agrees with `m` on every key outside `keys`. */
  ghost predicate SameOutside(m: Objects, m': Objects, keys: set<string>) {
    forall k :: k !in keys ==> SameAt(m, m', k)
  }

  /** The four keys a file's processing touches. */
  function KeysOf(env: string, id: string): set<string> {
    {TempKey(id), TranscriptKey(env, id), TranslationKey(env, id), AudioKey(env, id)}
  }

  /** A file ends Done exactly when every provider answers: its input exists
      locally, its job is seen COMPLETED, and transcription, translation and
      synthesis all return a result. */
  lemma DoneIffEveryStageAnswers(m: Objects, cfg: Config, local: LocalFiles, svc: Services,
                                 path: string, now: nat)
    ensures var id := FileId(path);
            RunFile(m, cfg, local, svc, path, now).outcome == Done
            <==> && path in local
                 && FirstCompleted(svc.statuses(JobName(id, now))).Some?
                 && svc.transcript(local[path]).Some?
                 && svc.translate(svc.transcript(local[path]).value).Some?
                 && svc.synthesize(svc.translate(svc.transcript(local[path]).value).value).Some?
  {
  }

  /** After a successful run with transcript `t`, translation `tr` and audio
      `audio`, the three destination keys hold exactly those, the temporary upload
      is gone, and every other key is as it was. */
  lemma SuccessfulRunContents(m: Objects, cfg: Config, local: LocalFiles, svc: Services,
                              path: string, now: nat, t: string, tr: string, audio: Bytes)
    requires path in local
    requires FirstCompleted(svc.statuses(JobName(FileId(path), now))).Some?
    requires svc.transcript(local[path]) == Some(t)
    requires svc.translate(t) == Some(tr) && svc.synthesize(tr) == Some(audio)
    ensures var r := RunFile(m, cfg, local, svc, path, now);
            var id := FileId(path);
            && r.outcome == Done
            && TranscriptKey(cfg.env, id) in r.objects
            && r.objects[TranscriptKey(cfg.env, id)] == Text(t)
            && TranslationKey(cfg.env, id) in r.objects
            && r.objects[TranslationKey(cfg.env, id)] == Text(tr)
            && AudioKey(cfg.env, id) in r.objects
            && r.objects[AudioKey(cfg.env, id)] == Binary(audio)
            && TempKey(id) !in r.objects
            && SameOutside(m, r.objects, KeysOf(cfg.env, id))
  {
    KeysOfDifferentKindsDiffer(cfg.env, FileId(path), FileId(path));
  }

  /** A successful run makes its calls in the fixed stage order: upload the input,
      start the job, poll until COMPLETED, store the transcript, translate, store
      the translation, synthesize, upload the audio, delete the upload. */
  lemma SuccessfulRunCalls(m: Objects, cfg: Config, local: LocalFiles, svc: Services,
                           path: string, now: nat, t: string, tr: string, audio: Bytes)
    requires path in local
    requires FirstCompleted(svc.statuses(JobName(FileId(path), now))).Some?
    requires svc.transcript(local[path]) == Some(t)
    requires svc.translate(t) == Some(tr) && svc.synthesize(tr) == Some(audio)
    ensures var id := FileId(path);
            var job := JobName(id, now);
            var polls := FirstCompleted(svc.statuses(job)).value + 1;
            RunFile(m, cfg, local, svc, path, now).calls
            == [UploadFile(TempKey(id)), StartTranscriptionJob(job, MediaUri(cfg.bucket, id))]
               + Polls(job, polls)
               + [PutObject(TranscriptKey(cfg.env, id)), TranslateText(t),
                  PutObject(TranslationKey(cfg.env, id)), SynthesizeSpeech(tr),
                  UploadFile(AudioKey(cfg.env, id)), DeleteObject(TempKey(id))]
  {
  }

  /** Cleanup removes what ingest created: a successful run opens by uploading a
      key, hands the transcription job a URI naming that key in the configured
      bucket, and closes by deleting that same key. */
  lemma CleanupUndoesIngest(m: Objects, cfg: Config, local: LocalFiles, svc: Services,
                            path: string, now: nat)
    requires RunFile(m, cfg, local, svc, path, now).outcome == Done
    ensures var calls := RunFile(m, cfg, local, svc, path, now).calls;
            var key := TempKey(FileId(path));
            && |calls| >= 3
            && calls[0] == UploadFile(key)
            && calls[1].StartTranscriptionJob?
            && ObjectKeyOf(cfg.bucket, calls[1].mediaUri) == Some(key)
            && calls[|calls| - 1] == DeleteObject(key)
  {
    MediaUriNamesTempKey(cfg.bucket, FileId(path));
  }

  /** A run that does not end Done after its input was uploaded leaves that upload
      in the bucket: there is no cleanup on the failure path. */
  lemma FailureLeaksTemporaryUpload(m: Objects, cfg: Config, local: LocalFiles, svc: Services,
                                    path: string, now: nat)
    requires path in local
    requires RunFile(m, cfg, local, svc, path, now).outcome != Done
    ensures var r := RunFile(m, cfg, local, svc, path, now);
            var key := TempKey(FileId(path));
            && key in r.objects && r.objects[key] == Binary(local[path])
            && DeleteObject(key) !in r.calls
  {
    var id := FileId(path);
    KeysOfDifferentKindsDiffer(cfg.env, id, id);
    var r := RunFile(m, cfg, local, svc, path, now);
    forall i | 0 <= i < |r.calls| ensures r.calls[i] != DeleteObject(TempKey(id)) {
    }
  }

  /** When translation raises, the transcript is already stored, neither the
      translation key nor the audio key has been written, the temporary upload is
      still there, and no other key has changed. */
  lemma TranslationFailure(m: Objects, cfg: Config, local: LocalFiles, svc: Services,
                           path: string, now: nat, t: string)
    requires path in local
    requires FirstCompleted(svc.statuses(JobName(FileId(path), now))).Some?
    requires svc.transcript(local[path]) == Some(t)
    requires svc.translate(t).None?
    ensures var r := RunFile(m, cfg, local, svc, path, now);
            var id := FileId(path);
            && r.outcome == Raised(Translate)
            && TranscriptKey(cfg.env, id) in r.objects
            && r.objects[TranscriptKey(cfg.env, id)] == Text(t)
            && SameAt(m, r.objects, TranslationKey(cfg.env, id))
            && SameAt(m, r.objects, AudioKey(cfg.env, id))
            && TempKey(id) in r.objects
            && r.objects[TempKey(id)] == Binary(local[path])
            && SameOutside(m, r.objects, {TempKey(id), TranscriptKey(cfg.env, id)})
  {
    KeysOfDifferentKindsDiffer(cfg.env, FileId(path), FileId(path));
  }

  /** Rerunning a file that succeeded, with the same provider answers, leaves the
      bucket exactly as the first run left it: every write is an overwrite with the
      same body and the temporary key is deleted again. Only the job name changes
      with the clock, so the rerun's job must also be seen COMPLETED. */
  lemma RerunIsIdempotent(m: Objects, cfg: Config, local: LocalFiles, svc: Services,
                          path: string, now: nat, later: nat)
    requires RunFile(m, cfg, local, svc, path, now).outcome == Done
    requires FirstCompleted(svc.statuses(JobName(FileId(path), later))).Some?
    ensures var first := RunFile(m, cfg, local, svc, path, now);
            var second := RunFile(first.objects, cfg, local, svc, path, later);
            second.outcome == Done && second.objects == first.objects
  {
    var id := FileId(path);
    var t := svc.transcript(local[path]).value;
    var tr := svc.translate(t).value;
    var audio := svc.synthesize(tr).value;
    var first := RunFile(m, cfg, local, svc, path, now);
    SuccessfulRunContents(m, cfg, local, svc, path, now, t, tr, audio);
    SuccessfulRunContents(first.objects, cfg, local, svc, path, later, t, tr, audio);
    var second := RunFile(first.objects, cfg, local, svc, path, later);
    forall k ensures SameAt(first.objects, second.objects, k) {
      if k !in KeysOf(cfg.env, id) {
        assert SameAt(first.objects, second.objects, k);
      }
    }
  }

  /** The artifacts of file id `id` are in place and its temporary upload is gone. */
  predicate Finished(objects: Objects, env: string, id: string) {
    && TempKey(id) !in objects
    && TranscriptKey(env, id) in objects
    && TranslationKey(env, id) in objects
    && AudioKey(env, id) in objects
  }

  /** A successful run finishes its own file. */
  lemma SuccessfulRunFinishesOwnFile(m: Objects, cfg: Config, local: LocalFiles, svc: Services,
                                     path: string, now: nat)
    requires RunFile(m, cfg, local, svc, path, now).outcome == Done
    ensures Finished(RunFile(m, cfg, local, svc, path, now).objects, cfg.env, FileId(path))
  {
    var t := svc.transcript(local[path]).value;
    var tr := svc.translate(t).value;
    SuccessfulRunContents(m, cfg, local, svc, path, now, t, tr, svc.synthesize(tr).value);
  }

  /** A successful run leaves every finished file finished: it deletes only its own
      temporary key and writes only destination keys. */
  lemma SuccessfulRunKeepsFinished(m: Objects, cfg: Config, local: LocalFiles, svc: Services,
                                   path: string, now: nat, id: string)
    requires RunFile(m, cfg, local, svc, path, now).outcome == Done
    requires '/' !in id && Finished(m, cfg.env, id)
    ensures Finished(RunFile(m, cfg, local, svc, path, now).objects, cfg.env, id)
  {
    var own := FileId(path);
    var t := svc.transcript(local[path]).value;
    var tr := svc.translate(t).value;
    SuccessfulRunContents(m, cfg, local, svc, path, now, t, tr, svc.synthesize(tr).value);
    KeysOfDifferentKindsDiffer(cfg.env, id, own);
    KeysOfDifferentKindsDiffer(cfg.env, own, id);
    assert SameAt(m, RunFile(m, cfg, local, svc, path, now).objects, TempKey(id)) || id == own;
  }
}
