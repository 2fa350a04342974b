/** `_get_blob_copy_status` of `cloudimg/ms_azure.py`: after starting a
    server-side copy, query the blob's properties until the copy status is
    exactly "success". The retry policy stops after 60 attempts or once 600
    seconds have passed since the first, and waits a fixed 10 seconds
    between attempts; any exception, a stop included, is re-raised as
    `AzureError`.

    The provider's answers are a function from the attempt number (0, 1,
    ...) to a probe. A probe that raises is swallowed by the retry
    machinery, and the properties read by the latest earlier attempt are
    recorded in its place; before any attempt has read them the name is
    unbound and the poll ends. The copy progress "copied/total" is computed
    (for the log) after every attempt, before the status is judged, so an
    unreadable progress or a zero total ends the poll too. */
module AzureCopy {
  import opened Outcomes
  import opened AzureModel

  /** The progress field: two integers, or something `int()` rejects. */
  datatype Progress = Fraction(copied: int, total: int) | Unreadable

  datatype CopyProperties = CopyProperties(status: string, progress: Progress)

  /** One attempt: what it reads, and the seconds since the first attempt
      started as the stop condition sees them after it. */
  datatype Probe = Answered(props: CopyProperties, elapsed: real) | Raised(elapsed: real)

  const MaxAttempts := 60
  const MaxDelay: real := 600.0
  const WaitSeconds := 10

  /** The progress can be turned into a percentage. */
  predicate Readable(p: Progress) {
    p.Fraction? && p.total != 0
  }

  /** The properties attempt `i` records: those read by the latest attempt
      up to `i` that did not raise. */
  function Recorded(probes: nat -> Probe, i: nat): (r: Option<CopyProperties>)
    ensures probes(i).Answered? ==> r == Some(probes(i).props)
    decreases i
  {
    if probes(i).Answered? then Some(probes(i).props)
    else if i == 0 then None
    else Recorded(probes, i - 1)
  }

  /** Nothing is recorded exactly while every attempt so far has raised. */
  lemma {:induction false} RecordedNone(probes: nat -> Probe, i: nat)
    ensures Recorded(probes, i).None? <==> forall j :: 0 <= j <= i ==> probes(j).Raised?
    decreases i
  {
    if i > 0 && probes(i).Raised? {
      RecordedNone(probes, i - 1);
    }
  }

  /** The copy reads as finished at attempt `i`. */
  predicate Succeeded(probes: nat -> Probe, i: nat) {
    var p := Recorded(probes, i);
    p.Some? && Readable(p.value.progress) && p.value.status == "success"
  }

  /** Attempt `i` ends the poll: nothing recorded yet, an unreadable
      progress, a success, or the retry budget spent. */
  predicate Ends(probes: nat -> Probe, i: nat) {
    var p := Recorded(probes, i);
    p.None? || !Readable(p.value.progress) || p.value.status == "success" ||
    i + 1 >= MaxAttempts || probes(i).elapsed >= MaxDelay
  }

  /** How attempt `i` ends the poll, when it does. */
  function Outcome(probes: nat -> Probe, i: nat): Result<(), Error> {
    var p := Recorded(probes, i);
    if p.None? then Fail(AzureError(UnboundProperties))
    else if !Readable(p.value.progress) then Fail(AzureError(BadProgress))
    else if p.value.status == "success" then Ok(())
    else Fail(AzureError(RetriesExhausted))
  }

  /** The outcome and the number of attempts made. */
  datatype CopyPoll = CopyPoll(out: Result<(), Error>, attempts: nat)

  /** The poll from attempt `q` on. */
  function PollFrom(probes: nat -> Probe, q: nat): (p: CopyPoll)
    requires q < MaxAttempts
    ensures q < p.attempts <= MaxAttempts
    decreases MaxAttempts - q
  {
    if Ends(probes, q) then CopyPoll(Outcome(probes, q), q + 1)
    else PollFrom(probes, q + 1)
  }

  /** The poll stops at the first attempt from `q` on that ends it, and
      reports how that attempt ends it: success exactly when the copy read
      as finished there. */
  lemma {:induction false} PollFromStops(probes: nat -> Probe, q: nat)
    requires q < MaxAttempts
    ensures forall j :: q <= j < PollFrom(probes, q).attempts - 1 ==> !Ends(probes, j)
    ensures Ends(probes, PollFrom(probes, q).attempts - 1)
    ensures PollFrom(probes, q).out == Outcome(probes, PollFrom(probes, q).attempts - 1)
    ensures PollFrom(probes, q).out.Ok? <==> Succeeded(probes, PollFrom(probes, q).attempts - 1)
    decreases MaxAttempts - q
  {
    if !Ends(probes, q) {
      PollFromStops(probes, q + 1);
    }
  }

  /** The poller. */
  function PollCopy(probes: nat -> Probe): CopyPoll {
    PollFrom(probes, 0)
  }

  /** One attempt: the property query, the properties it records (a query
      that raises leaves the previous ones), and the judgement of the
      status and the retry budget. */
  method Attempt(probes: nat -> Probe, a: nat, props: Option<CopyProperties>)
    returns (next: Option<CopyProperties>, done: bool, out: Result<(), Error>)
    requires a < MaxAttempts
    requires a == 0 ==> props.None?
    requires a > 0 ==> props == Recorded(probes, a - 1)
    ensures next == Recorded(probes, a)
    ensures done <==> Ends(probes, a)
    ensures done ==> out == Outcome(probes, a) && PollFrom(probes, a) == CopyPoll(out, a + 1)
    ensures !done ==> a + 1 < MaxAttempts && PollFrom(probes, a) == PollFrom(probes, a + 1)
  {
    PollStep(probes, a);
    var probe := probes(a);
    next := if probe.Answered? then Some(probe.props) else props;
    if next.None? {
      return next, true, Fail(AzureError(UnboundProperties));
    }
    if !Readable(next.value.progress) {
      return next, true, Fail(AzureError(BadProgress));
    }
    if next.value.status == "success" {
      return next, true, Ok(());
    }
    done := a + 1 >= MaxAttempts || probe.elapsed >= MaxDelay;
    out := Fail(AzureError(RetriesExhausted));
  }

  /** The loop of the source, attempt by attempt: it keeps the properties
      variable across attempts, and sleeps between attempts. */
  method GetBlobCopyStatus(probes: nat -> Probe) returns (out: Result<(), Error>, attempts: nat, waits: nat)
    ensures CopyPoll(out, attempts) == PollCopy(probes)
    ensures waits == attempts - 1 && waits < MaxAttempts
  {
    var props: Option<CopyProperties> := None;
    attempts := 0;
    waits := 0;
    while true
      invariant attempts < MaxAttempts
      invariant attempts == 0 ==> props.None?
      invariant attempts > 0 ==> props == Recorded(probes, attempts - 1)
      invariant waits == attempts
      invariant PollCopy(probes) == PollFrom(probes, attempts)
      decreases MaxAttempts - attempts
    {
      var done, o;
      props, done, o := Attempt(probes, attempts, props);
      attempts := attempts + 1;
      if done {
        return o, attempts, waits;
      }
      waits := waits + 1;
    }
  }

  /** One attempt of the poll: it ends there, or the poll goes on from the
      next attempt. */
  lemma PollStep(probes: nat -> Probe, q: nat)
    requires q < MaxAttempts
    ensures Ends(probes, q) ==> PollFrom(probes, q) == CopyPoll(Outcome(probes, q), q + 1)
    ensures !Ends(probes, q) ==> q + 1 < MaxAttempts && PollFrom(probes, q) == PollFrom(probes, q + 1)
  {
  }

  // The poller against an independent description: the first attempt that
  // ends it decides.

  /** When attempt `n` is the first to end the poll, the poll makes `n + 1`
      attempts and reports how `n` ends it. */
  lemma {:induction false} FirstEndDecides(probes: nat -> Probe, q: nat, n: nat)
    requires q <= n < MaxAttempts
    requires Ends(probes, n)
    requires forall j :: q <= j < n ==> !Ends(probes, j)
    ensures PollFrom(probes, q) == CopyPoll(Outcome(probes, n), n + 1)
    decreases n - q
  {
    if q < n {
      assert !Ends(probes, q);
      assert PollFrom(probes, q) == PollFrom(probes, q + 1);
      FirstEndDecides(probes, q + 1, n);
    } else {
      assert PollFrom(probes, q) == CopyPoll(Outcome(probes, q), q + 1);
    }
  }

  /** A copy whose every answer is readable and not yet "success", within
      the time cap, is given up after all 60 attempts: 59 waits of 10
      seconds. */
  lemma NeverSuccessExhausts(probes: nat -> Probe)
    requires forall j :: 0 <= j < MaxAttempts ==>
      probes(j).Answered? && Readable(probes(j).props.progress) &&
      probes(j).props.status != "success" && probes(j).elapsed < MaxDelay
    ensures PollCopy(probes) == CopyPoll(Fail(AzureError(RetriesExhausted)), MaxAttempts)
    ensures (PollCopy(probes).attempts - 1) * WaitSeconds == 590
  {
    forall j | 0 <= j < MaxAttempts - 1
      ensures !Ends(probes, j)
    {
      assert Recorded(probes, j) == Some(probes(j).props);
    }
    assert Recorded(probes, MaxAttempts - 1) == Some(probes(MaxAttempts - 1).props);
    FirstEndDecides(probes, 0, MaxAttempts - 1);
  }

  /** The third answer reporting "success" after two pending ones ends the
      poll after three attempts and two waits. */
  lemma SuccessOnThird(probes: nat -> Probe)
    requires forall j :: 0 <= j < 2 ==>
      probes(j).Answered? && probes(j).props.status == "Pending" &&
      Readable(probes(j).props.progress) && probes(j).elapsed < MaxDelay
    requires probes(2).Answered? && probes(2).props.status == "success" && Readable(probes(2).props.progress)
    ensures PollCopy(probes) == CopyPoll(Ok(()), 3)
  {
    assert "Pending" != "success" by {
      assert "Pending"[0] != "success"[0];
    }
    assert !Ends(probes, 0) && !Ends(probes, 1);
    FirstEndDecides(probes, 0, 2);
  }

  /** The status comparison is exact: "Success" is not a success. */
  lemma StatusIsCaseSensitive(probes: nat -> Probe, i: nat)
    requires probes(i).Answered? && probes(i).props.status == "Success"
    ensures !Succeeded(probes, i)
  {
    assert "Success"[0] != "success"[0];
  }

  /** A copy that raises on its first query fails without reading
      anything. */
  lemma FirstRaiseIsUnbound(probes: nat -> Probe)
    requires probes(0).Raised?
    ensures PollCopy(probes) == CopyPoll(Fail(AzureError(UnboundProperties)), 1)
  {
    FirstEndDecides(probes, 0, 0);
  }
}
