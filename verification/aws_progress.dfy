/** `UploadProgress` of `cloudimg/aws.py`: the callback S3 transfers call
    with each chunk's byte count. It keeps the running total and decides
    when to log. Each call is one atomic step (the source serialises calls
    with a lock); the clock reading is an argument. */
module AwsProgress {
  import opened Outcomes
  import opened AwsModel

  datatype Tracker = Tracker(
    bucket: string,
    key: string,
    size: Option<int>,    // the file size for a local file, absent for a stream
    interval: real,       // seconds between progress lines
    seen: int,            // bytes reported so far
    lastLog: real)        // clock reading of the last progress line

  /** A fresh tracker; the source's default interval is 15 seconds. */
  function NewTracker(bucket: string, key: string, size: Option<nat>, interval: real): (t: Tracker)
    ensures t.seen == 0 && t.lastLog == 0.0
    ensures Determinate(t) <==> size.Some?
  {
    Tracker(bucket, key, if size.Some? then Some(size.value as int) else None, interval, 0, 0.0)
  }

  const DefaultInterval: real := 15.0

  /** A tracker is determinate iff it knows the size. */
  predicate Determinate(t: Tracker) {
    t.size.Some?
  }

  /** `done`: all bytes seen; asking an indeterminate tracker is an
      assertion failure. */
  function Done(t: Tracker): (r: Result<bool, Error>)
    ensures !Determinate(t) <==> r == Fail(AssertionError("done unsupported for indeterminate uploads"))
    ensures Determinate(t) ==> r == Ok(t.seen == t.size.value)
  {
    if t.size.None? then Fail(AssertionError("done unsupported for indeterminate uploads"))
    else Ok(t.size.value == t.seen)
  }

  /** The line a call writes, if any. */
  datatype Line = Silent | Fraction(seen: int, size: int) | Total(seen: int)

  /** Whether the call that brings the total to `t.seen + bytes` at clock
      `now` writes a line. */
  predicate LogsAt(t: Tracker, bytes: int, now: real) {
    var overdue := now - t.lastLog >= t.interval;
    (Determinate(t) && (t.seen + bytes == t.size.value || overdue)) || (!Determinate(t) && overdue)
  }

  /** `__call__(bytes_)`. The total always grows by `bytes`; the last-log
      time moves to `now` exactly when a line is written. A determinate
      tracker of size 0 fails with a division by zero when it logs, after
      counting the bytes. */
  function Report(t: Tracker, bytes: int, now: real): (r: (Tracker, Result<Line, Error>))
    ensures r.0.seen == t.seen + bytes
    ensures r.0.size == t.size && r.0.interval == t.interval
    ensures r.0.bucket == t.bucket && r.0.key == t.key
    ensures r.1 == Ok(Silent) <==> !LogsAt(t, bytes, now)
    ensures r.1.Fail? <==> LogsAt(t, bytes, now) && Determinate(t) && t.size.value == 0
    ensures r.1.Fail? ==> r.1.error == ZeroDivision
    ensures r.0.lastLog == (if r.1.Ok? && r.1.value != Silent then now else t.lastLog)
    ensures r.1.Ok? && r.1.value.Fraction? ==> Determinate(t) && r.1.value == Fraction(t.seen + bytes, t.size.value)
    ensures r.1.Ok? && r.1.value.Total? ==> !Determinate(t) && r.1.value == Total(t.seen + bytes)
  {
    var seen := t.seen + bytes;
    var overdue := now - t.lastLog >= t.interval;
    if t.size.Some? && (t.size.value == seen || overdue) then
      if t.size.value == 0 then (t.(seen := seen), Fail(ZeroDivision))
      else (t.(seen := seen, lastLog := now), Ok(Fraction(seen, t.size.value)))
    else if t.size.None? && overdue then
      (t.(seen := seen, lastLog := now), Ok(Total(seen)))
    else
      (t.(seen := seen), Ok(Silent))
  }

  /** The call that completes a determinate upload of a non-empty file always
      logs 100%, however recently the last line was written. */
  lemma CompletionAlwaysLogs(t: Tracker, bytes: int, now: real)
    requires Determinate(t) && t.size.value > 0
    requires t.seen + bytes == t.size.value
    ensures Report(t, bytes, now).1 == Ok(Fraction(t.size.value, t.size.value))
    ensures Done(Report(t, bytes, now).0) == Ok(true)
  {
  }

  /** A sequence of callback calls: byte counts with clock readings. */
  function Feed(t: Tracker, calls: seq<(int, real)>): Tracker
    decreases |calls|
  {
    if |calls| == 0 then t
    else Feed(Report(t, calls[0].0, calls[0].1).0, calls[1..])
  }

  function SumBytes(calls: seq<(int, real)>): int {
    if |calls| == 0 then 0 else calls[0].0 + SumBytes(calls[1..])
  }

  /** `seen` is the running sum of the reported byte counts, and the size
      never changes. */
  lemma {:induction false} FeedSeen(t: Tracker, calls: seq<(int, real)>)
    ensures Feed(t, calls).seen == t.seen + SumBytes(calls)
    ensures Feed(t, calls).size == t.size
    decreases |calls|
  {
    if |calls| > 0 {
      FeedSeen(Report(t, calls[0].0, calls[0].1).0, calls[1..]);
    }
  }

  /** A fresh determinate tracker fed chunks that add up to the file size is
      done. */
  lemma FeedToDone(bucket: string, key: string, size: nat, interval: real, calls: seq<(int, real)>)
    requires SumBytes(calls) == size
    ensures Done(Feed(NewTracker(bucket, key, Some(size), interval), calls)) == Ok(true)
  {
    FeedSeen(NewTracker(bucket, key, Some(size), interval), calls);
  }
}
