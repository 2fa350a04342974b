/** `UploadProgress` and `upload_callback` of `cloudimg/ms_azure.py`: the
    SDK reports each uploaded chunk with the bytes sent so far and the total
    size; the service keeps the furthest progress seen and logs it at most
    once per interval. The clock reading is an argument: the one reading a
    call takes also stamps the progress record it builds. */
module AzureProgress {
  import opened Outcomes

  /** One progress record; `lastSeen` is the clock reading at its creation. */
  datatype UploadProgress = UploadProgress(current: int, total: int, lastSeen: real)

  /** The percentage a record shows: 0 for an unknown (zero) total. */
  function Percentage(p: UploadProgress): (r: real)
    ensures p.total <= 0 ==> r == 0.0
    ensures p.total > 0 && 0 <= p.current <= p.total ==> 0.0 <= r <= 100.0
    ensures p.total > 0 && p.current == p.total ==> r == 100.0
  {
    if p.total > 0 then p.current as real / p.total as real * 100.0 else 0.0
  }

  /** The service's recorder: the current record, when it last logged, and
      the log interval (15 seconds by default). */
  datatype Recorder = Recorder(progress: UploadProgress, lastLog: real, interval: real)

  const DefaultLogInterval: real := 15.0

  /** The reset `upload_to_container` performs before an upload. */
  function Reset(interval: real, now: real): (r: Recorder)
    ensures r.progress.current == 0 && r.progress.total == 0
    ensures Percentage(r.progress) == 0.0
    ensures r.lastLog == r.progress.lastSeen == now
  {
    Recorder(UploadProgress(0, 0, now), now, interval)
  }

  /** One chunk report: `current` (absent when the SDK does not know it) and
      `total`. */
  datatype Report = Report(current: Option<int>, total: int)

  /** `upload_callback`: a report that moves `current` strictly forward
      replaces the record; any other report leaves it. When the interval has
      passed since the last log, the call logs and moves the log time to the
      record's creation time. Answers the recorder and whether it logged. */
  function Callback(r: Recorder, rep: Report, now: real): (res: (Recorder, bool))
    ensures res.0.interval == r.interval
    ensures rep.current.Some? && rep.current.value > r.progress.current ==>
      res.0.progress == UploadProgress(rep.current.value, rep.total, now)
    ensures !(rep.current.Some? && rep.current.value > r.progress.current) ==> res.0.progress == r.progress
    ensures res.1 <==> now - r.lastLog >= r.interval
    ensures res.1 ==> res.0.lastLog == res.0.progress.lastSeen
    ensures !res.1 ==> res.0.lastLog == r.lastLog
  {
    var show := now - r.lastLog >= r.interval;
    var p := if rep.current.Some? && rep.current.value > r.progress.current
             then UploadProgress(rep.current.value, rep.total, now) else r.progress;
    (Recorder(p, if show then p.lastSeen else r.lastLog, r.interval), show)
  }

  /** The recorder after a run of reports, the i-th at clock `times[i]`. */
  function Replay(r: Recorder, reps: seq<Report>, times: seq<real>): Recorder
    requires |times| == |reps|
    decreases |reps|
  {
    if |reps| == 0 then r
    else Replay(Callback(r, reps[0], times[0]).0, reps[1..], times[1..])
  }

  /** The recorded `current` is the furthest one reported: never below the
      start or a reported value, and equal to one of them. */
  lemma {:induction false} ReplayKeepsFurthest(r: Recorder, reps: seq<Report>, times: seq<real>)
    requires |times| == |reps|
    ensures Replay(r, reps, times).progress.current >= r.progress.current
    ensures forall i :: 0 <= i < |reps| && reps[i].current.Some? ==>
      Replay(r, reps, times).progress.current >= reps[i].current.value
    ensures Replay(r, reps, times).progress == r.progress ||
      exists i :: 0 <= i < |reps| && reps[i].current == Some(Replay(r, reps, times).progress.current)
    decreases |reps|
  {
    if |reps| > 0 {
      var next := Callback(r, reps[0], times[0]).0;
      ReplayKeepsFurthest(next, reps[1..], times[1..]);
      var fin := Replay(r, reps, times);
      assert fin == Replay(next, reps[1..], times[1..]);
      forall i | 0 <= i < |reps| && reps[i].current.Some?
        ensures fin.progress.current >= reps[i].current.value
      {
        if i > 0 {
          assert reps[1..][i - 1] == reps[i];
        }
      }
      if fin.progress != next.progress {
        var i :| 0 <= i < |reps[1..]| && reps[1..][i].current == Some(fin.progress.current);
        assert reps[i + 1].current == Some(fin.progress.current);
      } else if next.progress != r.progress {
        assert reps[0].current == Some(fin.progress.current);
      }
    }
  }

  /** The test's report: 1024 of 4096 bytes shows 25 percent. */
  lemma QuarterReport()
    ensures var r := Callback(Reset(0.0, 0.0), Report(Some(1024), 4096), 1.0).0;
      r.progress.current == 1024 && r.progress.total == 4096 && Percentage(r.progress) == 25.0
  {
  }
}
