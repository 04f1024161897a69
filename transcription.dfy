/**
 The wait for the asynchronous transcription job (scripts/process_audio.py,
 lines 41-46): the script asks for the job's status again and again, sleeping
 15 seconds between questions, and leaves the loop only on COMPLETED.

 The provider's answers are given in advance as a finite feed of statuses, one
 per question; a feed without COMPLETED stands for a job the script waits on
 for ever.
 */
module Transcription {

  import opened Wrappers

  /** The TranscriptionJobStatus values the provider reports. */
  datatype Status = Queued | InProgress | Completed | Failed

  /** The index of the first COMPLETED in `feed` (equivalently, how many times the
      script sleeps before leaving the loop), or None when the feed holds no
      COMPLETED and the script never leaves. */
  function FirstCompleted(feed: seq<Status>): (r: Option<nat>)
    ensures r.Some? ==> r.value < |feed| && feed[r.value] == Completed
    ensures r.Some? ==> forall j :: 0 <= j < r.value ==> feed[j] != Completed
    ensures r.None? <==> Completed !in feed
  {
    if feed == [] then None
    else if feed[0] == Completed then Some(0)
    else match FirstCompleted(feed[1..])
      case None => None
      case Some(k) => Some(k + 1)
  }

  /** The polling loop. Each iteration reads one status (get_transcription_job);
      only COMPLETED breaks out, any other status (FAILED included) is followed
      by a sleep and another question. */
  method AwaitCompletion(feed: seq<Status>) returns (waits: Option<nat>)
    ensures waits == FirstCompleted(feed)
  {
    var i := 0;
    while i < |feed|
      invariant 0 <= i <= |feed|
      invariant forall j :: 0 <= j < i ==> feed[j] != Completed
    {
      var status := feed[i];
      if status == Completed {
        return Some(i);
      }
      i := i + 1;
    }
    return None;
  }

  /** A status other than COMPLETED, FAILED included, does not end the wait:
      the outcome is that of the statuses after it, one wait later. */
  lemma NonCompletedKeepsWaiting(s: Status, rest: seq<Status>)
    requires s != Completed
    ensures FirstCompleted([s] + rest).Some? <==> FirstCompleted(rest).Some?
    ensures FirstCompleted(rest).Some? ==>
              FirstCompleted([s] + rest).value == FirstCompleted(rest).value + 1
  {
    assert ([s] + rest)[1..] == rest;
  }

  /** Once COMPLETED has been seen the loop is over: statuses the provider would
      report afterwards are never asked for and change nothing. */
  lemma {:induction false} LaterStatusesUnobserved(feed: seq<Status>, later: seq<Status>)
    requires FirstCompleted(feed).Some?
    ensures FirstCompleted(feed + later) == FirstCompleted(feed)
  {
    if feed[0] != Completed {
      assert (feed + later)[1..] == feed[1..] + later;
      LaterStatusesUnobserved(feed[1..], later);
    }
  }
}
