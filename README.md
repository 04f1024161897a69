# process_audio, modelled in Dafny

`scripts/process_audio.py` is a batch script that turns English speech into
Spanish speech with cloud services. It finds every `audio_inputs/*.mp3`, and for
each file, in the order found:

1. derives a file id from the path (last path segment, ".mp3" removed);
2. uploads the audio to `temp/<id>.mp3` in the bucket named by `S3_BUCKET`;
3. starts a transcription job named `job-<id>-<unix seconds>` on
   `s3://<bucket>/temp/<id>.mp3` and polls its status, 15 seconds apart, until
   it reads COMPLETED;
4. fetches the transcript and stores it at `<env>/transcripts/<id>.txt`;
5. translates it to Spanish and stores that at `<env>/translations/<id>_es.txt`;
6. synthesizes Spanish speech and uploads it to `<env>/audio_outputs/<id>_es.mp3`;
7. deletes `temp/<id>.mp3`.

`<env>` is `ENVIRONMENT`, `beta` by default. With no input the script stops
before any external call. Nothing is caught: the first provider error ends the
whole script, and the writes already made stay in the bucket.

The project has six modules:

- `Wrappers` (`wrappers.dfy`): `Option`.
- `Naming` (`naming.dfy`): the file id, the four key formats, the media URI and
  the job name, as pure functions with lemmas.
- `Transcription` (`transcription.dfy`): the status-polling loop as a method
  proved against `FirstCompleted`.
- `Storage` (`storage.dfy`): the bucket as a class whose `objects` map its
  methods update in place.
- `Pipeline` (`pipeline.dfy`): one file's processing. `RunFile` is the
  specification and `ProcessFile` is the imperative body, which mutates a
  `Bucket`.
- `Batch` (`batch.dfy`): the outer loop. `RunScript` is the specification and
  `ProcessAll` is the `for` loop.

The external services are inputs fixed in advance (`Pipeline.Services`):

- the clock reading for the k-th file;
- the status sequence reported for each job name;
- the transcript of each uploaded audio (the bytes the media URI names);
- the translation of each text;
- the audio for each text.

A `None` answer is a provider error. Each run records the calls it makes to the
storage, transcription, translation and speech services, in order, so call order
and "no call at all" can be stated. The HTTP fetch of the transcript is not one
of the recorded calls.

A job whose status never reads COMPLETED is a finite status sequence without
COMPLETED. Its outcome is `Hung`: the script would wait for ever. A FAILED status
is just another non-COMPLETED status: the code does not stop on FAILED and has
no time limit on polling, and the model follows the code. The temporary key
always ends in `.mp3`, because the code writes it that way. A failure in one file
ends the whole batch, because the code has no per-file isolation.

## Model

| member | source | states |
|---|---|---|
| Naming.LastSegment | scripts/process_audio.py:24 | `split('/')[-1]` yields a string without '/' no longer than the path |
| Naming.LastSegmentIsFinalPart | scripts/process_audio.py:24 | the segment is a suffix of the path and is either the whole path or preceded by '/' (the longest '/'-free suffix) |
| Naming.LastSegmentAfterSlash | scripts/process_audio.py:24 | for `dir/name` with no '/' in name, the segment is exactly `name` |
| Naming.RemoveMp3 | scripts/process_audio.py:24 | `replace('.mp3', '')` shortens by a multiple of four and introduces no new character |
| Naming.RemoveMp3Unchanged | scripts/process_audio.py:24 | `replace('.mp3', '')` leaves a string without ".mp3" as it is |
| Naming.RemoveMp3After | scripts/process_audio.py:24 | for `a` without ".mp3", `replace` on `a + ".mp3" + b` gives `a` followed by `replace` on `b`: the leftmost occurrence goes and the scan resumes after it, so with `RemoveMp3Unchanged` every input's result is determined |
| Naming.FileId | scripts/process_audio.py:24 | the file id contains no '/' and is no longer than the path |
| Naming.InputPathId | scripts/process_audio.py:17-24 | a discovered `audio_inputs/<stem>.mp3`, for any stem without '/' and without ".mp3", has id `<stem>` |
| Naming.DemoId | scripts/process_audio.py:24 | `audio_inputs/demo.mp3` has id `demo` |
| Naming.DottedStemId | scripts/process_audio.py:24 | `audio_inputs/v1.2.mp3` has id `v1.2`: other dots stay |
| Naming.InnerMp3Removed | scripts/process_audio.py:24 | ".mp3" is removed in the middle of a name as well: `a.mp3b.mp3` becomes `ab` |
| Naming.InnerMp3Collides | scripts/process_audio.py:17-24 | two distinct inputs, `a.mp3b.mp3` and `ab.mp3`, get the same id, so they share every key |
| Naming.TempKey | scripts/process_audio.py:28 | definition of `temp/<id>.mp3`, the key uploaded here and deleted at line 93; its properties are stated by `KeysOfDifferentKindsDiffer`, `KeysDetermineId` and `MediaUriNamesTempKey` |
| Naming.TranscriptKey | scripts/process_audio.py:58 | definition of `<env>/transcripts/<id>.txt`; properties as for `TempKey` |
| Naming.TranslationKey | scripts/process_audio.py:73 | definition of `<env>/translations/<id>_es.txt`; properties as for `TempKey` |
| Naming.AudioKey | scripts/process_audio.py:88 | definition of `<env>/audio_outputs/<id>_es.mp3`; properties as for `TempKey` |
| Naming.MediaUri | scripts/process_audio.py:35 | definition of `s3://<bucket>/temp/<id>.mp3`; `MediaUriNamesTempKey` states that it names the temporary key |
| Naming.JobName | scripts/process_audio.py:32 | definition of `job-<id>-<seconds>`; `JobNameDeterminesIdAndTime` states that it is injective |
| Naming.ObjectKeyOf | scripts/process_audio.py:35 | an `s3://<bucket>/` URI names a key exactly when it has that prefix, and the key is the rest |
| Naming.MediaUriNamesTempKey | scripts/process_audio.py:28-35 | the media URI given to the transcription job names exactly the temporary key uploaded at ingest |
| Naming.KeysOfDifferentKindsDiffer | scripts/process_audio.py:28-88 | temp, transcript, translation and audio keys are pairwise distinct, for any two ids |
| Naming.KeysDetermineId | scripts/process_audio.py:28-88 | within each kind, equal keys mean equal file ids |
| Naming.Decimal | scripts/process_audio.py:32 | `int(time.time())` is printed as a non-empty digit string without a leading zero |
| Naming.DecimalRoundTrip | scripts/process_audio.py:32 | the printed digits read back as the same number |
| Naming.JobNameDeterminesIdAndTime | scripts/process_audio.py:32 | equal job names mean the same file id and the same clock second |
| Pipeline.Polls | scripts/process_audio.py:41-44 | definition of the status queries the wait makes, one per status read; `SuccessfulRunCalls` places them in the call sequence |
| Transcription.FirstCompleted | scripts/process_audio.py:41-46 | the wait ends at the first COMPLETED status, and none is seen before it; it never ends exactly when no COMPLETED is reported |
| Transcription.AwaitCompletion | scripts/process_audio.py:41-46 | the polling loop returns the index of the first COMPLETED, or none when there is none |
| Transcription.NonCompletedKeepsWaiting | scripts/process_audio.py:43-46 | a status other than COMPLETED, FAILED included, does not end the wait and adds one more poll |
| Transcription.LaterStatusesUnobserved | scripts/process_audio.py:41-44 | statuses after the first COMPLETED change nothing |
| Storage.Bucket.UploadFile | scripts/process_audio.py:28 | the upload succeeds exactly when the local file exists, and then the key holds its bytes and nothing else changes; otherwise the bucket is unchanged |
| Storage.Bucket.PutObject | scripts/process_audio.py:56-60 | the key holds the body afterwards and every other key is unchanged |
| Storage.Bucket.DeleteObject | scripts/process_audio.py:93 | the key is absent afterwards and every other key is unchanged |
| Pipeline.RunFile | scripts/process_audio.py:24-93 | the specification of one file's processing: its outcome, the bucket afterwards and its calls; it has no contract of its own, and the `Pipeline` lemmas below state what it promises |
| Pipeline.ProcessFile | scripts/process_audio.py:24-93 | the imperative body gives the outcome, bucket contents and call sequence of `RunFile` |
| Pipeline.DoneIffEveryStageAnswers | scripts/process_audio.py:28-88 | a file ends Done exactly when its input exists, its job reads COMPLETED, and transcript, translation and audio all arrive |
| Pipeline.SuccessfulRunContents | scripts/process_audio.py:56-93 | after success the transcript, translation and audio keys hold exactly what the services returned, the temp key is gone, and every other key is as before |
| Pipeline.SuccessfulRunCalls | scripts/process_audio.py:28-93 | a successful run calls upload, start job, one poll per status up to COMPLETED, then put, translate, put, synthesize, upload, delete, in that order |
| Pipeline.CleanupUndoesIngest | scripts/process_audio.py:28-93 | a successful run starts by uploading a key, gives the job a URI naming that key, and ends by deleting that same key |
| Pipeline.FailureLeaksTemporaryUpload | scripts/process_audio.py:28-93 | when a run fails after the upload, the temp key still holds the input and is never deleted |
| Pipeline.TranslationFailure | scripts/process_audio.py:56-75 | when translation raises, the transcript is stored, translation and audio keys are untouched, the temp upload remains, and every key other than the temp and transcript keys is unchanged |
| Pipeline.RerunIsIdempotent | scripts/process_audio.py:56-93 | rerunning a succeeded file with the same answers leaves the bucket exactly as the first run left it |
| Pipeline.SuccessfulRunFinishesOwnFile | scripts/process_audio.py:56-93 | a successful run leaves its file's three artifacts present and its temp key absent |
| Pipeline.SuccessfulRunKeepsFinished | scripts/process_audio.py:56-93 | a successful run leaves every other already-finished file finished |
| Batch.RunFiles | scripts/process_audio.py:23-93 | the specification of the `for` loop over a list of files with any per-file step; the `Batch` lemmas below state what it promises |
| Batch.RunScript | scripts/process_audio.py:19-95 | the specification of the whole script: `NoFiles` on empty input, otherwise `RunFiles` with the script's own step |
| Batch.ProcessAll | scripts/process_audio.py:19-95 | the imperative script gives the outcome, bucket contents and call sequence of `RunScript` |
| Batch.NoCallsIffNoInput | scripts/process_audio.py:19-21 | the script makes no external call exactly when no input was found, and then leaves the bucket unchanged |
| Batch.StoppedBatchIgnoresLaterFiles | scripts/process_audio.py:23-93 | a batch stops in a file that did not end Done, and its result is that of the batch cut after that file |
| Batch.StoppedScriptIgnoresLaterFiles | scripts/process_audio.py:23-93 | when the script stops at file j, the files after j are never processed and make no difference |
| Batch.ScriptStepFinishes | scripts/process_audio.py:23-93 | the script's per-file body finishes its own file and keeps finished files finished |
| Batch.CompletedBatchKeepsFinished | scripts/process_audio.py:23-93 | files finished before a completed batch are still finished after it |
| Batch.CompletedBatchFinishesEveryFile | scripts/process_audio.py:23-93 | after a batch that processes everything, every input's artifacts are present and its temp key is gone |
| Batch.CompletedScriptFinishesEveryFile | scripts/process_audio.py:23-95 | the same for the script itself |
| Batch.SingleFileScript | scripts/process_audio.py:23-95 | a one-file script ends as that file's processing ends |
| Batch.DemoSucceeds | scripts/process_audio.py:17-93 | `audio_inputs/demo.mp3` in beta ends with `beta/transcripts/demo.txt`, `beta/translations/demo_es.txt` and `beta/audio_outputs/demo_es.mp3` holding the given answers, and without `temp/demo.mp3` |
| Batch.DemoTranslationFails | scripts/process_audio.py:17-75 | the same input with a failing translation stops the script with the transcript stored, no translation or audio written, and `temp/demo.mp3` left behind |

## Left out

- The boto3 clients and the providers behind them are left out. Their answers are the `Services` inputs.
- Only some provider errors are modelled: the transcript fetch, `translate_text` and `synthesize_speech` can fail. `start_transcription_job` (line 33), `get_transcription_job` (line 42), both `put_object` calls (lines 56, 71), the audio `upload_file` (line 88) and `delete_object` (line 93) never fail in the model.
- The ingest `upload_file` (line 28) fails only when the local file is missing, never for a provider error.
- Pipeline.DoneIffEveryStageAnswers: this if-and-only-if holds only over the failures that are modelled. For example, the model has no run that stores the translation and then fails to upload the audio.
- Reading the environment is left out. `S3_BUCKET` and `ENVIRONMENT` are the fields of `Config`, and a missing `S3_BUCKET` (a `KeyError` before any work) is not modelled.
- `glob.glob` is left out. The discovered paths are the `files` argument, in the order found.
- Fetching the transcript over HTTP and parsing its JSON are left out, and the fetch is not a recorded call. One answer per uploaded audio stands for the job's output, the fetch and the parse, and `None` stands for any error there.
- `time.time()` and `time.sleep(15)` are left out. The clock is a function of the file's position, and sleeping has no effect on the model.
- Writing, reading and removing `/tmp/<id>_es.mp3` is left out. The synthesized bytes go straight to the upload, and a local I/O error is not modelled.
- Progress `print`s and `exit()` are left out. `exit()` after "No MP3 files found!" is the `NoFiles` outcome.
- The text encoding of stored bodies is left out. Text bodies are `Value.Text` strings, not UTF-8 bytes.
- Transcription.AwaitCompletion: a job that never reads COMPLETED is a finite status sequence without COMPLETED and returns `None` (outcome `Hung`), instead of a loop that does not terminate.
- The provider rejecting a reused job name is not modelled. Statuses are looked up by job name, and `Naming.JobNameDeterminesIdAndTime` shows that names clash only for the same id in the same second.
- Naming.RemoveMp3: its contract states only length and character facts. Its exact behaviour on every input is stated by `Naming.RemoveMp3Unchanged` and `Naming.RemoveMp3After`.
- Naming.FileId: its contract states only that the id has no '/' and is no longer than the path. The exact id is stated by `Naming.InputPathId`, `Naming.DottedStemId`, `Naming.DemoId` and `Naming.InnerMp3Collides`.
