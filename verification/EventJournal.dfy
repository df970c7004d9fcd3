/** The onboarding event journal: at-most-one-holder leases on idempotency keys. */
module EventJournal {
  import opened Common

  datatype Status = Pending | Processing | Succeeded | Skipped | Failed

  datatype Failure = Failure(code: string, reason: string)

  /** The journal row of one idempotency key; every update sets `updatedAt`. */
  datatype Entry = Entry(status: Status, attempts: nat, updatedAt: Time, failure: Option<Failure>)

  predicate Final(status: Status) {
    status.Succeeded? || status.Skipped?
  }

  function Cut(text: string, length: nat): string {
    if |text| > length then text[..length] else text
  }

  /** The longest start of the text that has at most `length` characters. */
  predicate IsCut(cut: string, text: string, length: nat) {
    cut <= text && |cut| <= length && (|cut| < length ==> cut == text)
  }

  // ----- the statements -----

  function InsertIfAbsent(e: Option<Entry>, now: Time): Entry {
    if e.Some? then e.value else Entry(Pending, 0, now, None)
  }

  /** The guard of the claiming update; `startedAt` is the claimer's clock before the insert. */
  predicate Claimable(e: Entry, startedAt: Time, stale: nat) {
    e.status.Pending? || e.status.Failed? || (e.status.Processing? && e.updatedAt <= startedAt - stale)
  }

  function Claimed(e: Entry, now: Time): Entry {
    Entry(Processing, e.attempts + 1, now, None)
  }

  function Completed(e: Entry, skipped: bool, now: Time): Entry {
    e.(status := if skipped then Skipped else Succeeded, updatedAt := now, failure := None)
  }

  function FailedWith(e: Entry, f: Failure, now: Time): Entry {
    e.(status := Failed, updatedAt := now, failure := Some(Failure(Cut(f.code, 64), Cut(f.reason, 255))))
  }

  class Journal {
    var entries: map<nat, Entry>

    constructor ()
      ensures entries == map[]
    {
      entries := map[];
    }

    /** Insert the key if it is absent, then claim it: new, failed, or under way for longer than the stale time. */
    method Claim(key: nat, startedAt: Time, now: Time, stale: nat) returns (claimed: bool)
      modifies this
      ensures var known := key in old(entries);
              var attempts := if known then old(entries)[key].attempts else 0;
              && (claimed <==>
                  || !known || old(entries)[key].status in {Pending, Failed}
                  || (old(entries)[key].status == Processing && startedAt >= old(entries)[key].updatedAt + stale))
              && (claimed ==> entries == old(entries)[key := Entry(Processing, attempts + 1, now, None)])
              && (!claimed ==> entries == old(entries))
      ensures var e := InsertIfAbsent(if key in old(entries) then Some(old(entries)[key]) else None, now);
              && claimed == Claimable(e, startedAt, stale)
              && entries == old(entries)[key := if claimed then Claimed(e, now) else e]
    {
      if key !in entries {
        entries := entries[key := Entry(Pending, 0, now, None)];
      }
      var e := entries[key];
      claimed := e.status.Pending? || e.status.Failed? || (e.status.Processing? && e.updatedAt <= startedAt - stale);
      if claimed {
        entries := entries[key := e.(status := Processing, attempts := e.attempts + 1, updatedAt := now,
                                     failure := None)];
      }
    }

    /** False when the key has no row: updating a missing row is an error. */
    method Complete(key: nat, skipped: bool, now: Time) returns (ok: bool)
      modifies this
      ensures ok == (key in old(entries))
      ensures ok ==> entries == old(entries)[key := Entry(if skipped then Skipped else Succeeded,
                                                          old(entries)[key].attempts, now, None)]
      ensures entries == if ok then old(entries)[key := Completed(old(entries)[key], skipped, now)] else old(entries)
    {
      ok := key in entries;
      if ok {
        entries := entries[key := entries[key].(status := if skipped then Skipped
                                                else Succeeded, updatedAt := now, failure := None)];
      }
    }

    /** The error's code and reason are kept, cut to what their columns hold. */
    method Fail(key: nat, f: Failure, now: Time) returns (ok: bool)
      modifies this
      ensures ok == (key in old(entries))
      ensures ok ==>
                && key in entries && entries == old(entries)[key := entries[key]]
                && entries[key] == Entry(Failed, old(entries)[key].attempts, now, entries[key].failure)
                && entries[key].failure.Some? && IsCut(entries[key].failure.value.code, f.code, 64)
                && IsCut(entries[key].failure.value.reason, f.reason, 255)
      ensures entries == if ok then old(entries)[key := FailedWith(old(entries)[key], f, now)] else old(entries)
    {
      ok := key in entries;
      if ok {
        var cut := Failure(Cut(f.code, 64), Cut(f.reason, 255));
        entries := entries[key := entries[key].(status := Failed, updatedAt := now, failure := Some(cut))];
      }
    }
  }

  // ----- concurrent claimers of one key -----

  /** Each call of claim is its own claimer. */
  type Claimer = nat

  datatype Step =
    | Insert(at: Time)
    | TryClaim(claimer: Claimer, startedAt: Time, at: Time)
    | Settle(claimer: Claimer, skipped: bool, at: Time)
    | GiveUp(claimer: Claimer, failure: Failure, at: Time)

  /**
   The row; the claimers that hold the key, with the instants of their claims; those that completed the event
   and whose job still runs; and the successful claims.
   */
  datatype State = State(
    entry: Option<Entry>, holders: map<Claimer, Time>, finishing: set<Claimer>, claims: nat, now: Time)

  function Next(s: State, step: Step, stale: nat): State {
    match step
    case Insert(at) => s.(entry := Some(InsertIfAbsent(s.entry, at)), now := at)
    case TryClaim(claimer, startedAt, at) =>
      if s.entry.Some? && Claimable(s.entry.value, startedAt, stale) then
        s.(entry := Some(Claimed(s.entry.value, at)), holders := s.holders[claimer := at], claims := s.claims + 1,
           now := at)
      else s.(now := at)
    case Settle(claimer, skipped, at) =>
      s.(entry := if s.entry.Some? then Some(Completed(s.entry.value, skipped, at)) else None,
         holders := s.holders - {claimer}, finishing := s.finishing + {claimer}, now := at)
    case GiveUp(claimer, failure, at) =>
      s.(entry := if s.entry.Some? then Some(FailedWith(s.entry.value, failure, at)) else None,
         holders := s.holders - {claimer}, finishing := s.finishing - {claimer}, now := at)
  }

  /** What each statement leaves of the row, whoever runs it: the status, the count of claims, the failure. */
  lemma StatementsWrite(s: State, step: Step, stale: nat)
    ensures var e, e' := s.entry, Next(s, step, stale).entry;
            match step
            case Insert(at) => e' == if e.Some? then e else Some(Entry(Pending, 0, at, None))
            case TryClaim(_, startedAt, at) =>
              e' == if e.Some? && (e.value.status in {Pending, Failed}
                                   || (e.value.status == Processing && startedAt >= e.value.updatedAt + stale))
                    then Some(Entry(Processing, e.value.attempts + 1, at, None)) else e
            case Settle(_, skipped, at) =>
              && (e == None ==> e' == None)
              && (e != None ==> e' == Some(Entry(if skipped then Skipped else Succeeded, e.value.attempts, at, None)))
            case GiveUp(_, f, at) =>
              && (e == None ==> e' == None)
              && (e != None ==>
                    && e' != None && e'.value == Entry(Failed, e.value.attempts, at, e'.value.failure)
                    && e'.value.failure.Some? && IsCut(e'.value.failure.value.code, f.code, 64)
                    && IsCut(e'.value.failure.value.reason, f.reason, 255))
  {
  }

  function After(steps: seq<Step>, start: Time, stale: nat, i: nat): State
    requires i <= |steps|
  {
    if i == 0 then State(None, map[], {}, 0, start) else Next(After(steps, start, stale, i - 1), steps[i - 1], stale)
  }

  predicate ClaimSucceeds(s: State, step: Step, stale: nat) {
    step.TryClaim? && s.entry.Some? && Claimable(s.entry.value, step.startedAt, stale)
  }

  /**
   What every run of the jobs keeps: clocks do not go back, each claim is its own claimer, a claimer completes
   the event while it holds it, and its job gives up while it holds the event or after it completed it.
   */
  predicate Orderly(s: State, step: Step) {
    && s.now <= step.at
    && (step.TryClaim? ==> step.startedAt <= step.at && step.claimer !in s.holders && step.claimer !in s.finishing)
    && (step.Settle? ==> step.claimer in s.holders)
    && (step.GiveUp? ==> step.claimer in s.holders || step.claimer in s.finishing)
  }

  ghost predicate OrderlyRun(steps: seq<Step>, start: Time, stale: nat) {
    forall i :: 0 <= i < |steps| ==> Orderly(After(steps, start, stale, i), steps[i])
  }

  /** A claim that is tried while someone holds the key started within that claim's lease. */
  ghost predicate WithinLease(s: State, step: Step, stale: nat) {
    step.TryClaim? ==> forall c :: c in s.holders ==> step.startedAt < s.holders[c] + stale
  }

  ghost predicate ClaimsWithinLease(steps: seq<Step>, start: Time, stale: nat) {
    forall i :: 0 <= i < |steps| ==> WithinLease(After(steps, start, stale, i), steps[i], stale)
  }

  ghost predicate OneHolderThroughout(steps: seq<Step>, start: Time, stale: nat) {
    forall i | 0 <= i <= |steps| :: |After(steps, start, stale, i).holders| <= 1
  }

  /**
   The row is being processed exactly when someone holds the key, and then since that claim; whose job still
   runs after completing the event left it finished.
   */
  ghost predicate Leased(s: State) {
    if s.entry.Some? && s.entry.value.status.Processing? then
      s.finishing == {} && exists c: Claimer :: s.holders == map[c := s.entry.value.updatedAt]
    else
      && s.holders == map[]
      && (s.finishing != {} ==> s.entry.Some? && Final(s.entry.value.status) && exists c: Claimer :: s.finishing == {c})
  }

  /** A step keeps the lease if and only if the claim it tries, if it does, started within it. */
  lemma StepLeasesExactly(s: State, step: Step, stale: nat)
    requires Leased(s) && Orderly(s, step)
    ensures WithinLease(s, step, stale) ==> Leased(Next(s, step, stale))
    ensures |Next(s, step, stale).holders| <= 1 ==> WithinLease(s, step, stale)
  {
    if s.entry.Some? && s.entry.value.status.Processing? {
      var c: Claimer :| s.holders == map[c := s.entry.value.updatedAt];
      HeldStep(s, step, stale, c);
    } else {
      FreeStep(s, step, stale);
    }
  }

  lemma HeldStep(s: State, step: Step, stale: nat, c: Claimer)
    requires Leased(s) && Orderly(s, step)
    requires s.entry.Some? && s.entry.value.status.Processing? && s.holders == map[c := s.entry.value.updatedAt]
    ensures WithinLease(s, step, stale) ==> Leased(Next(s, step, stale))
    ensures |Next(s, step, stale).holders| <= 1 ==> WithinLease(s, step, stale)
  {
    var s' := Next(s, step, stale);
    match step
    case Insert(_) => assert s'.holders == map[c := s'.entry.value.updatedAt];
    case TryClaim(claimer, startedAt, at) =>
      assert c in s.holders;
      if ClaimSucceeds(s, step, stale) {
        assert {c, claimer} <= s'.holders.Keys && c != claimer;
        SubsetCardinality({c, claimer}, s'.holders.Keys);
        assert |s'.holders| == |s'.holders.Keys|;
      } else {
        assert s'.holders == map[c := s'.entry.value.updatedAt];
      }
    case Settle(claimer, _, _) => assert claimer == c && s'.holders == map[] && s'.finishing == {c};
    case GiveUp(claimer, _, _) => assert claimer == c && s'.holders == map[] && s'.finishing == {};
  }

  lemma FreeStep(s: State, step: Step, stale: nat)
    requires Leased(s) && Orderly(s, step) && !(s.entry.Some? && s.entry.value.status.Processing?)
    ensures WithinLease(s, step, stale) && Leased(Next(s, step, stale))
  {
    var s' := Next(s, step, stale);
    if step.TryClaim? && ClaimSucceeds(s, step, stale) {
      assert s.finishing == {} && s'.holders == map[step.claimer := s'.entry.value.updatedAt];
    } else if step.GiveUp? {
      assert s.finishing == {step.claimer} && s'.finishing == {} && s'.holders == map[];
    }
  }

  lemma {:induction false} AlwaysLeased(steps: seq<Step>, start: Time, stale: nat, i: nat)
    requires OrderlyRun(steps, start, stale) && i <= |steps|
    requires forall k :: 0 <= k < i ==> WithinLease(After(steps, start, stale, k), steps[k], stale)
    ensures Leased(After(steps, start, stale, i))
  {
    hide After, Leased, Orderly, Next, WithinLease;
    if i == 0 {
      FirstLeased(steps, start, stale);
    } else {
      AlwaysLeased(steps, start, stale, i - 1);
      AfterStep(steps, start, stale, i - 1);
      StepLeasesExactly(After(steps, start, stale, i - 1), steps[i - 1], stale);
    }
  }

  lemma FirstLeased(steps: seq<Step>, start: Time, stale: nat)
    ensures Leased(After(steps, start, stale, 0))
  {
  }

  lemma {:induction false} OneHolderMeansWithin(steps: seq<Step>, start: Time, stale: nat, i: nat)
    requires OrderlyRun(steps, start, stale) && OneHolderThroughout(steps, start, stale) && i <= |steps|
    ensures forall k :: 0 <= k < i ==> WithinLease(After(steps, start, stale, k), steps[k], stale)
  {
    hide After, Leased, Orderly, Next, WithinLease;
    if i > 0 {
      OneHolderMeansWithin(steps, start, stale, i - 1);
      AlwaysLeased(steps, start, stale, i - 1);
      AfterStep(steps, start, stale, i - 1);
      StepLeasesExactly(After(steps, start, stale, i - 1), steps[i - 1], stale);
      assert |After(steps, start, stale, i).holders| <= 1;
    }
  }

  /**
   At every moment of a run at most one claimer holds the key if and only if every claim that is tried while
   someone holds it started within that holder's lease.
   */
  lemma OneHolderExactly(steps: seq<Step>, start: Time, stale: nat)
    requires OrderlyRun(steps, start, stale)
    ensures OneHolderThroughout(steps, start, stale) <==> ClaimsWithinLease(steps, start, stale)
  {
    if ClaimsWithinLease(steps, start, stale) {
      forall i | 0 <= i <= |steps|
        ensures |After(steps, start, stale, i).holders| <= 1
      {
        AlwaysLeased(steps, start, stale, i);
        hide After;
      }
    }
    if OneHolderThroughout(steps, start, stale) {
      OneHolderMeansWithin(steps, start, stale, |steps|);
    }
    hide *;
  }

  // ----- finished events -----

  ghost predicate FinishedIn(s: State) {
    s.entry.Some? && Final(s.entry.value.status)
  }

  /** A finished event keeps its row for good. */
  ghost predicate FinishedStays(steps: seq<Step>, start: Time, stale: nat) {
    forall i, j | 0 <= i <= j <= |steps| && FinishedIn(After(steps, start, stale, i)) ::
      After(steps, start, stale, j).entry == After(steps, start, stale, i).entry
  }

  /** No job gives up after it completed its event. */
  predicate GivesUpInTime(s: State, step: Step) {
    step.GiveUp? ==> step.claimer !in s.finishing
  }

  ghost predicate AllGiveUpInTime(steps: seq<Step>, start: Time, stale: nat) {
    forall i :: 0 <= i < |steps| ==> GivesUpInTime(After(steps, start, stale, i), steps[i])
  }

  lemma FinishedStepExactly(s: State, step: Step, stale: nat)
    requires Leased(s) && Orderly(s, step) && FinishedIn(s)
    ensures Next(s, step, stale).entry == s.entry <==> GivesUpInTime(s, step)
    ensures !ClaimSucceeds(s, step, stale)
  {
  }

  lemma UnfinishedGivesUpInTime(s: State, step: Step)
    requires Leased(s) && !FinishedIn(s)
    ensures GivesUpInTime(s, step)
  {
  }

  lemma {:induction false} FinishedStaysBetween(steps: seq<Step>, start: Time, stale: nat, i: nat, j: nat)
    requires OrderlyRun(steps, start, stale) && ClaimsWithinLease(steps, start, stale)
    requires AllGiveUpInTime(steps, start, stale) && i <= j <= |steps| && FinishedIn(After(steps, start, stale, i))
    ensures After(steps, start, stale, j).entry == After(steps, start, stale, i).entry
    decreases j - i
  {
    hide After, Leased, Orderly, Next, WithinLease;
    if i < j {
      FinishedStaysBetween(steps, start, stale, i, j - 1);
      AlwaysLeased(steps, start, stale, j - 1);
      AfterStep(steps, start, stale, j - 1);
      FinishedStepExactly(After(steps, start, stale, j - 1), steps[j - 1], stale);
    }
  }

  /**
   In a run in which the lease holds, a finished event stays finished for good if and only if no job gives up
   after it completed its event; and while it is finished no claim succeeds.
   */
  lemma FinishedForGoodExactly(steps: seq<Step>, start: Time, stale: nat)
    requires OrderlyRun(steps, start, stale) && ClaimsWithinLease(steps, start, stale)
    ensures FinishedStays(steps, start, stale) <==> AllGiveUpInTime(steps, start, stale)
    ensures forall i :: 0 <= i < |steps| && FinishedIn(After(steps, start, stale, i)) ==>
              !ClaimSucceeds(After(steps, start, stale, i), steps[i], stale)
  {
    if AllGiveUpInTime(steps, start, stale) {
      forall i, j | 0 <= i <= j <= |steps| && FinishedIn(After(steps, start, stale, i))
        ensures After(steps, start, stale, j).entry == After(steps, start, stale, i).entry
      {
        FinishedStaysBetween(steps, start, stale, i, j);
      }
    }
    forall i | 0 <= i < |steps|
      ensures FinishedStays(steps, start, stale) ==> GivesUpInTime(After(steps, start, stale, i), steps[i])
      ensures FinishedIn(After(steps, start, stale, i)) ==>
              !ClaimSucceeds(After(steps, start, stale, i), steps[i], stale)
    {
      AlwaysLeased(steps, start, stale, i);
      AfterStep(steps, start, stale, i);
      var j := i + 1;
      var s := After(steps, start, stale, i);
      assert FinishedStays(steps, start, stale) && FinishedIn(s) ==> After(steps, start, stale, j).entry == s.entry;
      hide After, Leased, Orderly, Next, ClaimSucceeds, WithinLease, FinishedStays;
      if FinishedIn(s) {
        FinishedStepExactly(s, steps[i], stale);
      } else {
        UnfinishedGivesUpInTime(s, steps[i]);
      }
    }
    hide *;
  }

  lemma AfterStep(steps: seq<Step>, start: Time, stale: nat, i: nat)
    requires i < |steps|
    ensures After(steps, start, stale, i + 1) == Next(After(steps, start, stale, i), steps[i], stale)
  {
  }

  function SuccessfulClaims(steps: seq<Step>, start: Time, stale: nat, i: nat): nat
    requires i <= |steps|
  {
    if i == 0 then 0
    else SuccessfulClaims(steps, start, stale, i - 1)
         + if ClaimSucceeds(After(steps, start, stale, i - 1), steps[i - 1], stale) then 1 else 0
  }

  /** The attempt count is the number of successful claims, whatever the claimers do. */
  lemma {:induction false} AttemptsAreClaims(steps: seq<Step>, start: Time, stale: nat, i: nat)
    requires i <= |steps|
    ensures var s := After(steps, start, stale, i);
            (if s.entry.Some? then s.entry.value.attempts else 0) == s.claims
              == SuccessfulClaims(steps, start, stale, i)
  {
    if i > 0 {
      AttemptsAreClaims(steps, start, stale, i - 1);
    }
  }

  // ----- runs in which the lease, or the end, does not hold -----

  /** A claimer still at work when exactly `stale` has passed shares the key, and its late failure reopens the event. */
  function LateRun(start: Time, stale: nat, f: Failure): seq<Step> {
    [Insert(start), TryClaim(0, start, start), TryClaim(1, start + stale, start + stale),
     Settle(1, false, start + stale), GiveUp(0, f, start + stale)]
  }

  /** An orderly run with two holders, after which the finished event can be claimed again. */
  lemma LateClaimerBreaksTheLease(start: Time, stale: nat, f: Failure)
    ensures var late := LateRun(start, stale, f);
            var finished := After(late, start, stale, 4).entry;
            && OrderlyRun(late, start, stale)
            && !ClaimsWithinLease(late, start, stale)
            && After(late, start, stale, 3).holders.Keys == {0, 1}
            && finished.Some? && Final(finished.value.status)
            && ClaimSucceeds(After(late, start, stale, 5), TryClaim(2, start + stale, start + stale), stale)
  {
    var late, end := LateRun(start, stale, f), start + stale;
    assert After(late, start, stale, 0) == State(None, map[], {}, 0, start);
    assert After(late, start, stale, 1) == State(Some(Entry(Pending, 0, start, None)), map[], {}, 0, start);
    assert After(late, start, stale, 2) == State(Some(Entry(Processing, 1, start, None)), map[0 := start], {}, 1,
                                                 start);
    assert After(late, start, stale, 3)
           == State(Some(Entry(Processing, 2, end, None)), map[0 := start, 1 := end], {}, 2, end);
    assert map[0 := start, 1 := end] - {1} == map[0 := start];
    assert After(late, start, stale, 4) == State(Some(Entry(Succeeded, 2, end, None)), map[0 := start], {1}, 2, end);
    assert 0 in After(late, start, stale, 2).holders && late[2].startedAt >= start + stale;
    assert !WithinLease(After(late, start, stale, 2), late[2], stale);
  }

  /** A job that completes its event and then fails: nobody is late, and the finished event is claimed again. */
  function ReopeningRun(start: Time, f: Failure): seq<Step> {
    [Insert(start), TryClaim(0, start, start), Settle(0, false, start), GiveUp(0, f, start), TryClaim(1, start, start)]
  }

  lemma FailureAfterCompletionReopens(start: Time, stale: nat, f: Failure)
    ensures var run := ReopeningRun(start, f);
            && OrderlyRun(run, start, stale) && ClaimsWithinLease(run, start, stale)
            && FinishedIn(After(run, start, stale, 3)) && !FinishedStays(run, start, stale)
            && ClaimSucceeds(After(run, start, stale, 4), run[4], stale)
  {
    var run := ReopeningRun(start, f);
    assert After(run, start, stale, 0) == State(None, map[], {}, 0, start);
    assert After(run, start, stale, 1) == State(Some(Entry(Pending, 0, start, None)), map[], {}, 0, start);
    assert After(run, start, stale, 2) == State(Some(Entry(Processing, 1, start, None)), map[0 := start], {}, 1, start);
    assert After(run, start, stale, 3) == State(Some(Entry(Succeeded, 1, start, None)), map[], {0}, 1, start);
    assert After(run, start, stale, 4).entry.value.status == Failed && After(run, start, stale, 4).holders == map[];
    assert After(run, start, stale, 4).finishing == {};
    assert After(run, start, stale, 4).entry != After(run, start, stale, 3).entry;
  }
}
