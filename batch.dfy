/**
 The script as a whole (scripts/process_audio.py, lines 17-23 and 95): stop at
 once when no input was found, otherwise run the per-file body for each file in
 the order discovered. Nothing catches an exception, so the first file that does
 not end Done ends the script, and a transcription wait that never ends blocks
 it for ever; either way the files after it are never processed.

 The batch is stated over any per-file step, so that what it promises does not
 depend on what processing one file does; `ScriptStep` is the script's own.
 */
module Batch {

  import opened Wrappers
  import opened Naming
  import opened Transcription
  import opened Storage
  import opened Pipeline

  /** Processing one file: the bucket before, the input path, the file's position
      in the batch. */
  type FileStep = (Objects, string, nat) -> FileRun

  /** The script's per-file body; the k-th file reads the clock as `svc.clock(k)`. */
  function ScriptStep(cfg: Config, local: LocalFiles, svc: Services): FileStep {
    (m: Objects, path: string, k: nat) => RunFile(m, cfg, local, svc, path, svc.clock(k))
  }

  /** How the script ends: no input found, every file processed, or stopped in the
      file at `index` (an exception, or a wait that never ends). */
  datatype BatchOutcome = NoFiles | AllProcessed | Stopped(index: nat, outcome: Outcome)

  datatype BatchRun = BatchRun(outcome: BatchOutcome, objects: Objects, calls: seq<Call>)

  /** The files `files`, the first of which is the `k`-th of the batch, processed in
      order; the first file that does not end Done ends the batch. */
  function RunFiles(m: Objects, step: FileStep, files: seq<string>, k: nat): BatchRun
    decreases |files|
  {
    if files == [] then BatchRun(AllProcessed, m, [])
    else
      var r := step(m, files[0], k);
      if r.outcome != Done then BatchRun(Stopped(k, r.outcome), r.objects, r.calls)
      else
        var rest := RunFiles(r.objects, step, files[1..], k + 1);
        BatchRun(rest.outcome, rest.objects, r.calls + rest.calls)
  }

  /** The whole script on the discovered files. */
  function RunScript(m: Objects, cfg: Config, local: LocalFiles, svc: Services,
                     files: seq<string>): BatchRun
  {
    if files == [] then BatchRun(NoFiles, m, [])
    else RunFiles(m, ScriptStep(cfg, local, svc), files, 0)
  }

  /** `run` with `calls` made before it. */
  function After(calls: seq<Call>, run: BatchRun): BatchRun {
    BatchRun(run.outcome, run.objects, calls + run.calls)
  }

  /** The batch after the file at `i`: where it stops, or what remains to be run. */
  lemma ResumeAfterFile(script: BatchRun, calls: seq<Call>, m: Objects, step: FileStep,
                        files: seq<string>, i: nat, r: FileRun)
    requires i < |files|
    requires script == After(calls, RunFiles(m, step, files[i..], i))
    requires r == step(m, files[i], i)
    ensures r.outcome != Done ==>
              script == BatchRun(Stopped(i, r.outcome), r.objects, calls + r.calls)
    ensures r.outcome == Done ==>
              script == After(calls + r.calls, RunFiles(r.objects, step, files[i + 1..], i + 1))
  {
    assert files[i..][0] == files[i];
    assert files[i..][1..] == files[i + 1..];
  }

  /** The script: stop at once when nothing was found, otherwise process the files
      one after the other until the list ends or a file does not end Done. */
  method ProcessAll(bucket: Bucket, cfg: Config, local: LocalFiles, svc: Services,
                    files: seq<string>) returns (outcome: BatchOutcome, calls: seq<Call>)
    modifies bucket
    ensures BatchRun(outcome, bucket.objects, calls)
         == RunScript(old(bucket.objects), cfg, local, svc, files)
  {
    if |files| == 0 {
      return NoFiles, [];
    }
    ghost var step := ScriptStep(cfg, local, svc);
    ghost var script := RunScript(bucket.objects, cfg, local, svc, files);
    calls := [];
    for i := 0 to |files|
      invariant script == After(calls, RunFiles(bucket.objects, step, files[i..], i))
    {
      ghost var before := bucket.objects;
      var fileOutcome, fileCalls := ProcessFile(bucket, cfg, local, svc, files[i], svc.clock(i));
      ResumeAfterFile(script, calls, before, step, files, i,
                      FileRun(fileOutcome, bucket.objects, fileCalls));
      calls := calls + fileCalls;
      if fileOutcome != Done {
        return Stopped(i, fileOutcome), calls;
      }
    }
    assert files[|files|..] == [];
    outcome := AllProcessed;
  }

  // ---------------------------------------------------------------------------
  // What the batch promises
  // ---------------------------------------------------------------------------

  /** The script makes no external call at all exactly when no input was found,
      and then leaves the bucket untouched. */
  lemma NoCallsIffNoInput(m: Objects, cfg: Config, local: LocalFiles, svc: Services,
                          files: seq<string>)
    ensures RunScript(m, cfg, local, svc, files).calls == [] <==> files == []
    ensures files == [] ==> RunScript(m, cfg, local, svc, files) == BatchRun(NoFiles, m, [])
  {
    if files != [] {
      var r := RunFile(m, cfg, local, svc, files[0], svc.clock(0));
      assert r.calls[0] == UploadFile(TempKey(FileId(files[0])));
      assert ScriptStep(cfg, local, svc)(m, files[0], 0) == r;
    }
  }

  /** A batch that stops does so in one of its files, with that file not Done, and
      the files after it are never processed: the result is that of the batch cut
      just after the stopping file. */
  lemma {:induction false} StoppedBatchIgnoresLaterFiles(m: Objects, step: FileStep,
                                                         files: seq<string>, k: nat)
    requires RunFiles(m, step, files, k).outcome.Stopped?
    ensures var run := RunFiles(m, step, files, k);
            var j := run.outcome.index;
            && k <= j < k + |files|
            && run.outcome.outcome != Done
            && run == RunFiles(m, step, files[..j - k + 1], k)
    decreases |files|
  {
    var r := step(m, files[0], k);
    var j := RunFiles(m, step, files, k).outcome.index;
    if r.outcome == Done {
      StoppedBatchIgnoresLaterFiles(r.objects, step, files[1..], k + 1);
      assert files[..j - k + 1][0] == files[0];
      assert files[..j - k + 1][1..] == files[1..][..j - (k + 1) + 1];
    } else {
      assert files[..1][0] == files[0];
    }
  }

  /** The script stops in file `j` only when that file did not end Done, and then
      the files after `j` make no difference at all. */
  lemma StoppedScriptIgnoresLaterFiles(m: Objects, cfg: Config, local: LocalFiles, svc: Services,
                                       files: seq<string>)
    requires RunScript(m, cfg, local, svc, files).outcome.Stopped?
    ensures var run := RunScript(m, cfg, local, svc, files);
            var j := run.outcome.index;
            && j < |files|
            && run.outcome.outcome != Done
            && run == RunScript(m, cfg, local, svc, files[..j + 1])
  {
    StoppedBatchIgnoresLaterFiles(m, ScriptStep(cfg, local, svc), files, 0);
  }

  /** A step that, when it ends Done, has finished the file it was given. */
  ghost predicate FinishesOwnFile(step: FileStep, env: string) {
    forall m, path, k :: step(m, path, k).outcome == Done ==>
      Finished(step(m, path, k).objects, env, FileId(path))
  }

  /** A step that, when it ends Done, leaves every finished file finished. */
  ghost predicate KeepsFinishedFiles(step: FileStep, env: string) {
    forall m, path, k, id {:trigger Finished(step(m, path, k).objects, env, id)} ::
      step(m, path, k).outcome == Done && '/' !in id && Finished(m, env, id) ==>
        Finished(step(m, path, k).objects, env, id)
  }

  /** The script's own step has both properties. */
  lemma ScriptStepFinishes(cfg: Config, local: LocalFiles, svc: Services)
    ensures FinishesOwnFile(ScriptStep(cfg, local, svc), cfg.env)
    ensures KeepsFinishedFiles(ScriptStep(cfg, local, svc), cfg.env)
  {
    var step := ScriptStep(cfg, local, svc);
    forall m, path, k | step(m, path, k).outcome == Done
      ensures Finished(step(m, path, k).objects, cfg.env, FileId(path))
    {
      SuccessfulRunFinishesOwnFile(m, cfg, local, svc, path, svc.clock(k));
    }
    forall m, path, k, id | step(m, path, k).outcome == Done && '/' !in id && Finished(m, cfg.env, id)
      ensures Finished(step(m, path, k).objects, cfg.env, id)
    {
      SuccessfulRunKeepsFinished(m, cfg, local, svc, path, svc.clock(k), id);
    }
  }

  /** Files finished before a batch stay finished through a batch that completes. */
  lemma {:induction false} CompletedBatchKeepsFinished(m: Objects, step: FileStep, env: string,
                                                       files: seq<string>, k: nat, id: string)
    requires KeepsFinishedFiles(step, env)
    requires RunFiles(m, step, files, k).outcome == AllProcessed
    requires '/' !in id && Finished(m, env, id)
    ensures Finished(RunFiles(m, step, files, k).objects, env, id)
    decreases |files|
  {
    if files != [] {
      var r := step(m, files[0], k);
      assert Finished(r.objects, env, id);
      CompletedBatchKeepsFinished(r.objects, step, env, files[1..], k + 1, id);
    }
  }

  /** After a batch that processes every file, every file is finished. */
  lemma {:induction false} CompletedBatchFinishesEveryFile(m: Objects, step: FileStep, env: string,
                                                           files: seq<string>, k: nat)
    requires FinishesOwnFile(step, env) && KeepsFinishedFiles(step, env)
    requires RunFiles(m, step, files, k).outcome == AllProcessed
    ensures forall i :: 0 <= i < |files| ==>
              Finished(RunFiles(m, step, files, k).objects, env, FileId(files[i]))
    decreases |files|
  {
    if files != [] {
      var r := step(m, files[0], k);
      var end := RunFiles(m, step, files, k).objects;
      assert Finished(r.objects, env, FileId(files[0]));
      CompletedBatchFinishesEveryFile(r.objects, step, env, files[1..], k + 1);
      CompletedBatchKeepsFinished(r.objects, step, env, files[1..], k + 1, FileId(files[0]));
      forall i | 0 <= i < |files| ensures Finished(end, env, FileId(files[i])) {
        if i > 0 {
          assert files[i] == files[1..][i - 1];
        }
      }
    }
  }

  /** After a script that processes every file, every file's transcript,
      translation and audio are stored and none of their temporary uploads remains. */
  lemma CompletedScriptFinishesEveryFile(m: Objects, cfg: Config, local: LocalFiles, svc: Services,
                                         files: seq<string>)
    requires RunScript(m, cfg, local, svc, files).outcome == AllProcessed
    ensures forall i :: 0 <= i < |files| ==>
              Finished(RunScript(m, cfg, local, svc, files).objects, cfg.env, FileId(files[i]))
  {
    ScriptStepFinishes(cfg, local, svc);
    CompletedBatchFinishesEveryFile(m, ScriptStep(cfg, local, svc), cfg.env, files, 0);
  }

  /** A script over one file ends as that file's processing ends. */
  lemma SingleFileScript(m: Objects, cfg: Config, local: LocalFiles, svc: Services, path: string)
    ensures var r := RunFile(m, cfg, local, svc, path, svc.clock(0));
            RunScript(m, cfg, local, svc, [path])
            == BatchRun(if r.outcome == Done then AllProcessed else Stopped(0, r.outcome),
                        r.objects, r.calls)
  {
    var step := ScriptStep(cfg, local, svc);
    var r := RunFile(m, cfg, local, svc, path, svc.clock(0));
    assert [path][0] == path && [path][1..] == [];
    assert step(m, path, 0) == r;
    assert RunFiles(r.objects, step, [], 1) == BatchRun(AllProcessed, r.objects, []);
    assert r.calls + [] == r.calls;
  }

  // ---------------------------------------------------------------------------
  // The demo input
  // ---------------------------------------------------------------------------

  /** The bytes of "AUDIO". */
  const DemoAudio: Bytes := [65, 85, 68, 73, 79]

  // The keys of file id demo in environment beta, written out.

  lemma DemoTempKey() ensures TempKey("demo") == "temp/demo.mp3" {}

  lemma DemoTranscriptKey() ensures TranscriptKey("beta", "demo") == "beta/transcripts/demo.txt" {}

  lemma DemoTranslationKey() ensures TranslationKey("beta", "demo") == "beta/translations/demo_es.txt" {}

  lemma DemoAudioKey() ensures AudioKey("beta", "demo") == "beta/audio_outputs/demo_es.mp3" {}

  /** audio_inputs/demo.mp3 in environment beta, transcribed as "hello world" and
      translated as "hola mundo": the bucket ends with the three artifacts and
      without temp/demo.mp3. */
  lemma DemoSucceeds(m: Objects, bucketName: string, local: LocalFiles, svc: Services, input: string)
    requires input == "audio_inputs/demo.mp3" && input in local
    requires FirstCompleted(svc.statuses(JobName("demo", svc.clock(0)))).Some?
    requires svc.transcript(local[input]) == Some("hello world")
    requires svc.translate("hello world") == Some("hola mundo")
    requires svc.synthesize("hola mundo") == Some(DemoAudio)
    ensures var run := RunScript(m, Config(bucketName, "beta"), local, svc, [input]);
            && run.outcome == AllProcessed
            && "beta/transcripts/demo.txt" in run.objects
            && run.objects["beta/transcripts/demo.txt"] == Text("hello world")
            && "beta/translations/demo_es.txt" in run.objects
            && run.objects["beta/translations/demo_es.txt"] == Text("hola mundo")
            && "beta/audio_outputs/demo_es.mp3" in run.objects
            && run.objects["beta/audio_outputs/demo_es.mp3"] == Binary(DemoAudio)
            && "temp/demo.mp3" !in run.objects
  {
    var cfg := Config(bucketName, "beta");
    DemoId();
    SingleFileScript(m, cfg, local, svc, input);
    SuccessfulRunContents(m, cfg, local, svc, input, svc.clock(0), "hello world", "hola mundo", DemoAudio);
    DemoTempKey();
    DemoTranscriptKey();
    DemoTranslationKey();
    DemoAudioKey();
  }

  /** The same input when translation raises: the script stops in the first file
      with the transcript stored, no translation or audio written, and
      temp/demo.mp3 left behind. */
  lemma DemoTranslationFails(m: Objects, bucketName: string, local: LocalFiles, svc: Services, input: string)
    requires input == "audio_inputs/demo.mp3" && input in local
    requires FirstCompleted(svc.statuses(JobName("demo", svc.clock(0)))).Some?
    requires svc.transcript(local[input]) == Some("hello world")
    requires svc.translate("hello world").None?
    ensures var run := RunScript(m, Config(bucketName, "beta"), local, svc, [input]);
            && run.outcome == Stopped(0, Raised(Translate))
            && "beta/transcripts/demo.txt" in run.objects
            && run.objects["beta/transcripts/demo.txt"] == Text("hello world")
            && SameAt(m, run.objects, "beta/translations/demo_es.txt")
            && SameAt(m, run.objects, "beta/audio_outputs/demo_es.mp3")
            && "temp/demo.mp3" in run.objects
  {
    var cfg := Config(bucketName, "beta");
    DemoId();
    SingleFileScript(m, cfg, local, svc, input);
    TranslationFailure(m, cfg, local, svc, input, svc.clock(0), "hello world");
    DemoTempKey();
    DemoTranscriptKey();
    DemoTranslationKey();
    DemoAudioKey();
  }
}
