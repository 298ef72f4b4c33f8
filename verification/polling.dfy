/** The status-polling loop: query the task, stop on a terminal status,
    otherwise sleep and ask again until the deadline passes. Time is a
    virtual clock in seconds that only the sleep between queries advances. */
module Polling {
  import opened Types
  import opened Settings
  import opened Steps

  predicate IsPending(reply: Call<PollData>) {
    Classify(reply).StillPending?
  }

  /** The replies `polls(from)` .. `polls(from + n - 1)` all ask to wait. */
  predicate AllPending(polls: nat -> Call<PollData>, from: nat, n: nat) {
    forall i :: from <= i < from + n ==> IsPending(polls(i))
  }

  /** How many queries fit before the deadline when one is made every
      `PollInterval` seconds starting at `now`. */
  function Budget(now: nat, deadline: nat): nat {
    if now >= deadline then 0 else (deadline - now + PollInterval - 1) / PollInterval
  }

  /** The loop from its `k`-th query on, at time `now`. */
  function PollLoop(h: Headers, taskId: string, polls: nat -> Call<PollData>,
                    k: nat, now: nat, deadline: nat): Run<PollData>
    decreases deadline - now
  {
    if now >= deadline then Run(Fail(HttpError(504, TimedOutDetail)), [], now)
    else
      var ev := Poll(h, taskId);
      match Classify(polls(k))
      case Finished(data) => Run(Ok(data), [ev], now)
      case Aborted(failure) => Run(Fail(failure), [ev], now)
      case StillPending =>
        var rest := PollLoop(h, taskId, polls, k + 1, now + PollInterval, deadline);
        Run(rest.outcome, [ev] + rest.events, rest.clock)
  }

  /** `whole` is the run of the loop that has emitted `done` so far and
      resumes with its `k`-th query at time `now`. */
  predicate Resumes(h: Headers, taskId: string, polls: nat -> Call<PollData>, k: nat, now: nat,
                    deadline: nat, whole: Run<PollData>, done: seq<Event>) {
    var rest := PollLoop(h, taskId, polls, k, now, deadline);
    whole.outcome == rest.outcome && whole.events == done + rest.events && whole.clock == rest.clock
  }

  /** A terminal reply before the deadline ends the run with its verdict. */
  lemma ResumeStops(h: Headers, taskId: string, polls: nat -> Call<PollData>, k: nat, now: nat,
                    deadline: nat, whole: Run<PollData>, done: seq<Event>)
    requires now < deadline && !IsPending(polls(k))
    requires Resumes(h, taskId, polls, k, now, deadline, whole, done)
    ensures whole.events == done + [Poll(h, taskId)] && whole.clock == now
    ensures Classify(polls(k)).Finished? ==> whole.outcome == Ok(Classify(polls(k)).data)
    ensures Classify(polls(k)).Aborted? ==> whole.outcome == Fail(Classify(polls(k)).failure)
  {
  }

  /** A pending reply before the deadline: the run resumes one query and one
      interval later. */
  lemma ResumeContinues(h: Headers, taskId: string, polls: nat -> Call<PollData>, k: nat, now: nat,
                        deadline: nat, whole: Run<PollData>, done: seq<Event>)
    requires now < deadline && IsPending(polls(k))
    requires Resumes(h, taskId, polls, k, now, deadline, whole, done)
    ensures Resumes(h, taskId, polls, k + 1, now + PollInterval, deadline, whole, done + [Poll(h, taskId)])
  {
    var rest := PollLoop(h, taskId, polls, k + 1, now + PollInterval, deadline);
    assert done + ([Poll(h, taskId)] + rest.events) == done + [Poll(h, taskId)] + rest.events;
  }

  /** At the deadline the run has timed out. */
  lemma ResumeTimesOut(h: Headers, taskId: string, polls: nat -> Call<PollData>, k: nat, now: nat,
                       deadline: nat, whole: Run<PollData>, done: seq<Event>)
    requires now >= deadline
    requires Resumes(h, taskId, polls, k, now, deadline, whole, done)
    ensures whole == Run(Fail(HttpError(504, TimedOutDetail)), done, now)
  {
  }

  /** The failures the loop can end with. */
  predicate PollFailure(f: Failure) {
    f == HttpError(504, TimedOutDetail) || f == Unexpected || (f.HttpError? && f.code == 502)
  }

  /** The loop only queries the one task, at most once per interval before
      the deadline, at least once if it starts before the deadline, and ends
      with its data, a 502, a 504 or an unexpected failure. */
  lemma {:induction false} PollLoopShape(h: Headers, taskId: string, polls: nat -> Call<PollData>,
                                        k: nat, now: nat, deadline: nat)
    ensures var p := PollLoop(h, taskId, polls, k, now, deadline);
            && |p.events| <= Budget(now, deadline)
            && (now < deadline ==> |p.events| >= 1)
            && (forall i :: 0 <= i < |p.events| ==> p.events[i] == Poll(h, taskId))
            && now <= p.clock <= now + PollInterval * Budget(now, deadline)
            && (p.outcome.Fail? ==> PollFailure(p.outcome.failure))
    decreases deadline - now
  {
    if now < deadline && Classify(polls(k)).StillPending? {
      PollLoopShape(h, taskId, polls, k + 1, now + PollInterval, deadline);
      assert Budget(now + PollInterval, deadline) == Budget(now, deadline) - 1;
    }
  }

  /** The loop ends in a timeout exactly when every query it has time for
      is answered "pending"; it has then made exactly that many queries. */
  lemma {:induction false} PollTimesOutIff(h: Headers, taskId: string, polls: nat -> Call<PollData>,
                                          k: nat, now: nat, deadline: nat)
    ensures var p := PollLoop(h, taskId, polls, k, now, deadline);
            p.outcome == Fail(HttpError(504, TimedOutDetail)) <==> AllPending(polls, k, Budget(now, deadline))
    ensures var p := PollLoop(h, taskId, polls, k, now, deadline);
            p.outcome == Fail(HttpError(504, TimedOutDetail)) ==> |p.events| == Budget(now, deadline)
    decreases deadline - now
  {
    if now < deadline {
      var b := Budget(now, deadline);
      assert b >= 1;
      if Classify(polls(k)).StillPending? {
        PollTimesOutIff(h, taskId, polls, k + 1, now + PollInterval, deadline);
        assert Budget(now + PollInterval, deadline) == b - 1;
        assert AllPending(polls, k, b) <==> AllPending(polls, k + 1, b - 1);
      } else {
        assert !AllPending(polls, k, b) by { assert !IsPending(polls(k)); }
      }
    }
  }

  /** When the `j`-th query (counted from `k`) is the first whose status is
      terminal, and there is time for it, the loop makes exactly `j + 1`
      queries, sleeps `j` times and ends with that reply's verdict. */
  lemma {:induction false} PollStopsAtFirstTerminal(h: Headers, taskId: string, polls: nat -> Call<PollData>,
                                                   k: nat, now: nat, deadline: nat, j: nat)
    requires FirstTerminal(polls, k, Budget(now, deadline), j)
    ensures var p := PollLoop(h, taskId, polls, k, now, deadline);
            && |p.events| == j + 1
            && p.clock == now + j * PollInterval
            && match Classify(polls(k + j))
               case Finished(data) => p.outcome == Ok(data)
               case Aborted(failure) => p.outcome == Fail(failure)
               case StillPending => false
    decreases j
  {
    if j > 0 {
      assert IsPending(polls(k));
      assert AllPending(polls, k + 1, j - 1);
      PollStopsAtFirstTerminal(h, taskId, polls, k + 1, now + PollInterval, deadline, j - 1);
    }
  }

  /** The `j`-th query (counted from `k`) is the first one whose reply is
      not "pending", and there is time for it. */
  predicate FirstTerminal(polls: nat -> Call<PollData>, k: nat, budget: nat, j: nat) {
    j < budget && AllPending(polls, k, j) && !IsPending(polls(k + j))
  }

  /** A loop that does not time out stopped at the first reply that was not
      "pending", so that reply decides its outcome. */
  lemma {:induction false} PollEndsAtTerminal(h: Headers, taskId: string, polls: nat -> Call<PollData>,
                                             k: nat, now: nat, deadline: nat)
    requires PollLoop(h, taskId, polls, k, now, deadline).outcome != Fail(HttpError(504, TimedOutDetail))
    ensures exists j: nat :: FirstTerminal(polls, k, Budget(now, deadline), j)
    decreases deadline - now
  {
    assert now < deadline;
    if IsPending(polls(k)) {
      PollEndsAtTerminal(h, taskId, polls, k + 1, now + PollInterval, deadline);
      var j: nat :| FirstTerminal(polls, k + 1, Budget(now + PollInterval, deadline), j);
      assert Budget(now + PollInterval, deadline) == Budget(now, deadline) - 1;
      assert AllPending(polls, k, j + 1);
      assert FirstTerminal(polls, k, Budget(now, deadline), j + 1);
    } else {
      assert FirstTerminal(polls, k, Budget(now, deadline), 0);
    }
  }

  /** There is at most one first terminal reply. */
  lemma FirstTerminalUnique(polls: nat -> Call<PollData>, k: nat, budget: nat, i: nat, j: nat)
    requires FirstTerminal(polls, k, budget, i) && FirstTerminal(polls, k, budget, j)
    ensures i == j
  {
  }

  /** The loop as the module is deployed: `asyncio` is imported only inside
      the endpoint and under `__main__`, so when the server imports the
      module the name is unbound in the poll helper, and a pending status
      raises NameError instead of sleeping. */
  function PollLoopAsWritten(h: Headers, taskId: string, polls: nat -> Call<PollData>,
                             k: nat, now: nat, deadline: nat): Run<PollData>
  {
    if now >= deadline then Run(Fail(HttpError(504, TimedOutDetail)), [], now)
    else
      var ev := Poll(h, taskId);
      match Classify(polls(k))
      case Finished(data) => Run(Ok(data), [ev], now)
      case Aborted(failure) => Run(Fail(failure), [ev], now)
      case StillPending => Run(Fail(Unexpected), [ev], now)
  }

  /** In general the deployed loop makes at most one query, and it differs
      from the intended loop exactly when that first reply is "pending",
      which it turns into an unexpected failure. */
  lemma AsWrittenDiverges(h: Headers, taskId: string, polls: nat -> Call<PollData>,
                          k: nat, now: nat, deadline: nat)
    ensures |PollLoopAsWritten(h, taskId, polls, k, now, deadline).events| <= 1
    ensures PollLoopAsWritten(h, taskId, polls, k, now, deadline) == PollLoop(h, taskId, polls, k, now, deadline)
            <==> now >= deadline || !Classify(polls(k)).StillPending?
    ensures now < deadline && Classify(polls(k)).StillPending? ==>
              PollLoopAsWritten(h, taskId, polls, k, now, deadline).outcome == Fail(Unexpected)
  {
    if now < deadline && Classify(polls(k)).StillPending? {
      PollLoopShape(h, taskId, polls, k + 1, now + PollInterval, deadline);
      assert PollLoop(h, taskId, polls, k, now, deadline).clock >= now + PollInterval;
    }
  }

  /** A backend that answers "pending" once and then "done": the deployed
      loop fails on the first answer, the intended loop returns the data. */
  lemma PendingThenDoneAsWritten(h: Headers, taskId: string, data: PollData, now: nat)
    requires data.status == 1
    ensures var polls := (i: nat) => if i == 0 then Returns(PollData(0, None, None)) else Returns(data);
            && PollLoopAsWritten(h, taskId, polls, 0, now, now + GenerationTimeout).outcome == Fail(Unexpected)
            && PollLoop(h, taskId, polls, 0, now, now + GenerationTimeout).outcome == Ok(data)
  {
    var polls := (i: nat) => if i == 0 then Returns(PollData(0, None, None)) else Returns(data);
    assert Classify(polls(0)).StillPending?;
    assert Classify(polls(1)) == Finished(data);
  }
}
