/** `wait_for_import_snapshot_task` of `cloudimg/aws.py`: poll the import
    task until it completes, fails, or the attempt budget runs out. The
    provider's answers are a function from the query number (0, 1, ...) to
    the task details it reports; the sleeps between queries are left out. */
module AwsPoller {
  import opened Outcomes
  import opened Strings
  import opened AwsModel

  /** The `SnapshotTaskDetail` of one `describe_import_snapshot_tasks`
      answer. */
  datatype TaskDetail = TaskDetail(status: string, statusMessage: Option<string>, snapshotId: Option<string>)

  predicate Completed(d: TaskDetail) {
    Lower(d.status) == "completed"
  }

  predicate Errored(d: TaskDetail) {
    Lower(d.status) == "error"
  }

  /** An answer that ends the polling. */
  predicate Terminal(d: TaskDetail) {
    Completed(d) || Errored(d)
  }

  /** The message of a `SnapshotError`: `StatusMessage`, or the status when
      the answer has no message at all. */
  function Message(d: TaskDetail): string {
    if d.statusMessage.Some? then d.statusMessage.value else d.status
  }

  const TimeoutMessage := "Timed out waiting for snapshot import"

  /** The default budget of the source: 480 queries. */
  const DefaultAttempts := 480

  /** A poll's outcome (the id of the snapshot the task created) and how
      many queries it made. */
  datatype Poll = Poll(out: Result<Option<string>, Error>, queries: nat)

  /** Polling after `q` queries that all answered a non-terminal status. */
  function PollFrom(answers: nat -> TaskDetail, attempts: int, q: nat): (p: Poll)
    ensures q <= p.queries
    ensures q <= attempts ==> p.queries <= attempts
    ensures forall j :: q <= j < p.queries - 1 ==> !Terminal(answers(j))
    ensures p.out.Ok? ==> q < p.queries && Completed(answers(p.queries - 1)) &&
                          p.out.value == answers(p.queries - 1).snapshotId
    ensures p.out.Fail? ==> p.out.error.SnapshotError? || p.out.error == SnapshotTimeout(TimeoutMessage)
    ensures p.out.Fail? && p.out.error.SnapshotError? ==>
      q < p.queries && Errored(answers(p.queries - 1)) && p.out.error.message == Message(answers(p.queries - 1))
    ensures p.out == Fail(SnapshotTimeout(TimeoutMessage)) ==>
      p.queries == (if q <= attempts then attempts else q) &&
      (q < p.queries ==> !Terminal(answers(p.queries - 1)))
    decreases if attempts > q then attempts - q else 0
  {
    if q + 1 > attempts then Poll(Fail(SnapshotTimeout(TimeoutMessage)), q)
    else
      var d := answers(q);
      if Errored(d) then Poll(Fail(SnapshotError(Message(d))), q + 1)
      else if Completed(d) then Poll(Ok(d.snapshotId), q + 1)
      else PollFrom(answers, attempts, q + 1)
  }

  /** The poller: at most `attempts` queries. */
  function PollImport(answers: nat -> TaskDetail, attempts: int): Poll {
    PollFrom(answers, attempts, 0)
  }

  /** The loop of the source, query by query; it computes `PollImport`. */
  method WaitForImportSnapshotTask(answers: nat -> TaskDetail, attempts: int)
    returns (out: Result<Option<string>, Error>, queries: nat)
    ensures Poll(out, queries) == PollImport(answers, attempts)
  {
    var status := "";
    var snapshotId: Option<string> := None;
    queries := 0;
    while Lower(status) != "completed"
      invariant queries == 0 ==> status == ""
      invariant queries > 0 ==> status == answers(queries - 1).status &&
                                snapshotId == answers(queries - 1).snapshotId &&
                                !Errored(answers(queries - 1))
      invariant queries <= attempts || queries == 0
      invariant PollImport(answers, attempts) ==
        if Lower(status) == "completed" then Poll(Ok(snapshotId), queries)
        else PollFrom(answers, attempts, queries)
      decreases if attempts > queries then attempts - queries + 1 else 0, if Lower(status) == "completed" then 0 else 1
    {
      queries := queries + 1;
      if queries > attempts {
        return Fail(SnapshotTimeout(TimeoutMessage)), queries - 1;
      }
      var d := answers(queries - 1);
      status := d.status;
      snapshotId := d.snapshotId;
      if Lower(status) == "error" {
        return Fail(SnapshotError(Message(d))), queries;
      }
    }
    out := Ok(snapshotId);
  }

  // The poller against an independent description: the first terminal
  // answer within the budget decides.

  /** When answer `n` is the first terminal one and lies within the budget,
      the poll makes `n + 1` queries and reports what that answer says. */
  lemma {:induction false} FirstTerminalDecides(answers: nat -> TaskDetail, attempts: int, q: nat, n: nat)
    requires q <= n < attempts
    requires Terminal(answers(n))
    requires forall j :: q <= j < n ==> !Terminal(answers(j))
    ensures PollFrom(answers, attempts, q).queries == n + 1
    ensures Completed(answers(n)) ==> PollFrom(answers, attempts, q).out == Ok(answers(n).snapshotId)
    ensures Errored(answers(n)) ==> PollFrom(answers, attempts, q).out == Fail(SnapshotError(Message(answers(n))))
    decreases n - q
  {
    if q < n {
      NonTerminalSkips(answers, attempts, q);
      FirstTerminalDecides(answers, attempts, q + 1, n);
    } else {
      TerminalEnds(answers, attempts, q);
    }
  }

  /** A non-terminal answer within the budget passes the poll on. */
  lemma NonTerminalSkips(answers: nat -> TaskDetail, attempts: int, q: nat)
    requires q < attempts && !Terminal(answers(q))
    ensures PollFrom(answers, attempts, q) == PollFrom(answers, attempts, q + 1)
  {
  }

  /** A terminal answer within the budget ends the poll with what it says. */
  lemma TerminalEnds(answers: nat -> TaskDetail, attempts: int, q: nat)
    requires q < attempts && Terminal(answers(q))
    ensures PollFrom(answers, attempts, q) ==
      if Errored(answers(q)) then Poll(Fail(SnapshotError(Message(answers(q)))), q + 1)
      else Poll(Ok(answers(q).snapshotId), q + 1)
    ensures Completed(answers(q)) ==> !Errored(answers(q))
  {
    assert "completed" != "error" by {
      assert "completed"[0] != "error"[0];
    }
  }

  /** Without a terminal answer within the budget, the poll times out after
      exactly `attempts` queries (none at all for a budget of 0 or less). */
  lemma {:induction false} NoTerminalTimesOut(answers: nat -> TaskDetail, attempts: int, q: nat)
    requires forall j :: q <= j < attempts ==> !Terminal(answers(j))
    ensures PollFrom(answers, attempts, q).out == Fail(SnapshotTimeout(TimeoutMessage))
    ensures PollFrom(answers, attempts, q).queries == if q <= attempts then attempts else q
    decreases if attempts > q then attempts - q else 0
  {
    if q + 1 <= attempts {
      assert !Terminal(answers(q));
      NoTerminalTimesOut(answers, attempts, q + 1);
    }
  }

  /** A zero budget times out without asking the provider anything. */
  lemma ZeroAttemptsTimeOut(answers: nat -> TaskDetail)
    ensures PollImport(answers, 0) == Poll(Fail(SnapshotTimeout(TimeoutMessage)), 0)
  {
  }
}
