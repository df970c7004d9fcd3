/** Every interleaving of reads, scripts and transactions: the attempt budget and the admissions. */
module CaptchaRuns {
  import opened Common
  import opened Captcha

  datatype Step =
    | Start(lockTtl: nat, at: Time)
    | Install(id: ChallengeId, mode: Mode, answer: string, startedAt: nat, readAt: nat, at: Time)
    | Answer(id: ChallengeId, answer: string, readAt: nat, at: Time)
    | PressButton(id: ChallengeId, choice: int, readAt: nat, readAgainAt: nat, at: Time)
    | Drop(readAt: nat, at: Time)
    | OtherMember(at: Time)
    | Wait(at: Time)

  /** A creation starts with its admission, and creates its challenge in a later transaction. */
  datatype Note =
    | Nothing
    | Started(failures: nat)
    | NotStarted(why: Admission)
    | Created(id: ChallengeId, attempts: int, mode: Mode, answer: string, startedAt: nat)
    | Reported(id: ChallengeId, outcome: Outcome)

  datatype Moment = Moment(redis: Redis, now: Time, note: Note)

  /** TTL reports whole seconds: a live lock less than a second from its end may be reported as zero. */
  predicate TtlReported(lock: Option<Time>, now: Time, seconds: nat) {
    if AliveAt(lock, now) then -1000 < lock.value - now - 1000 * seconds < 1000 else seconds == 0
  }

  /** Challenge identifiers are random and never drawn twice; answers are never empty. */
  ghost predicate Drawable(trace: seq<Moment>, id: ChallengeId, answer: string) {
    |answer| > 0 && forall i :: 0 <= i < |trace| && trace[i].note.Created? ==> trace[i].note.id != id
  }

  /** The creation was admitted at moment `startedAt` and has not created its challenge yet. */
  ghost predicate UnderWay(trace: seq<Moment>, startedAt: nat) {
    && startedAt < |trace| && trace[startedAt].note.Started?
    && forall i :: 0 <= i < |trace| && trace[i].note.Created? ==> trace[i].note.startedAt != startedAt
  }

  /** What a query at moment `i` returned. */
  function SeenAt(trace: seq<Moment>, i: nat, id: ChallengeId): Option<Challenge>
    requires i < |trace|
  {
    Live(trace[i].redis, id, trace[i].now)
  }

  function ActiveAt(trace: seq<Moment>, i: nat): Option<ChallengeId>
    requires i < |trace|
  {
    ActiveId(trace[i].redis, trace[i].now)
  }

  /** The transaction of this creation is carried out: it was admitted, then read the active key, and draws a new id. */
  ghost predicate Installs(trace: seq<Moment>, step: Step)
    requires |trace| > 0
  {
    && step.Install? && step.at >= trace[|trace| - 1].now && step.startedAt <= step.readAt < |trace|
    && UnderWay(trace, step.startedAt) && Drawable(trace, step.id, step.answer)
  }

  ghost function Execute(trace: seq<Moment>, s: Settings, step: Step): Moment
    requires |trace| > 0
  {
    var last := trace[|trace| - 1];
    var idle := Moment(last.redis, last.now, Nothing);
    if step.at < last.now then idle
    else
      match step
      case Start(lockTtl, at) =>
        if !TtlReported(last.redis.lock, at, lockTtl) then idle
        else
          var (r, admission) := Admit(last.redis, s, lockTtl, at);
          Moment(r, at, if admission.Admitted? then Started(admission.failures) else NotStarted(admission))
      case Install(id, mode, answer, startedAt, readAt, at) =>
        if !Installs(trace, step) then idle
        else
          var failures := trace[startedAt].note.failures;
          Moment(Captcha.Install(last.redis, s, id, mode, answer, failures, ActiveAt(trace, readAt), at), at,
                 Created(id, InitialAttempts(s, failures), mode, answer, startedAt))
      case Answer(id, answer, readAt, at) =>
        if readAt >= |trace| then idle
        else
          var (r, outcome) := Verify(last.redis, s, id, SeenAt(trace, readAt, id), answer, at);
          Moment(r, at, Reported(id, outcome))
      case PressButton(id, choice, readAt, readAgainAt, at) =>
        if !(readAt <= readAgainAt < |trace|) then idle
        else
          var (r, outcome) := Press(last.redis, s, id, SeenAt(trace, readAt, id), SeenAt(trace, readAgainAt, id),
                                    choice, at);
          Moment(r, at, Reported(id, outcome))
      case Drop(readAt, at) =>
        if readAt >= |trace| then idle else Moment(Dropped(last.redis, ActiveAt(trace, readAt)), at, Nothing)
      case OtherMember(at) =>
        Moment(last.redis.(guildRate := Some(Incremented(last.redis.guildRate, at, 60000))), at, Nothing)
      case Wait(at) => Moment(last.redis, at, Nothing)
  }

  ghost function Run(s: Settings, start: Time, steps: seq<Step>): (trace: seq<Moment>)
    ensures |trace| == |steps| + 1
    decreases |steps|
  {
    if steps == [] then [Moment(EMPTY, start, Nothing)]
    else
      var before := Run(s, start, steps[..|steps| - 1]);
      before + [Execute(before, s, steps[|steps| - 1])]
  }

  lemma {:induction false} RunExtends(s: Settings, start: Time, steps: seq<Step>, i: nat)
    requires i <= |steps|
    ensures Run(s, start, steps[..i]) == Run(s, start, steps)[..i + 1]
    decreases |steps|
  {
    if i == |steps| {
      assert steps[..i] == steps;
    } else {
      var shorter := steps[..|steps| - 1];
      RunExtends(s, start, shorter, i);
      assert shorter[..i] == steps[..i];
    }
  }

  /** Moment `i + 1` of a run is what step `i` makes of the run so far. */
  lemma StepOf(s: Settings, start: Time, steps: seq<Step>, i: nat)
    requires i < |steps|
    ensures Run(s, start, steps)[i + 1] == Execute(Run(s, start, steps)[..i + 1], s, steps[i])
  {
    RunExtends(s, start, steps, i);
    RunExtends(s, start, steps, i + 1);
    assert steps[..i + 1][..i] == steps[..i];
    var trace := Run(s, start, steps);
    assert trace[i + 1] == trace[..i + 2][i + 1];
    hide Execute;
  }

  lemma FirstMoment(s: Settings, start: Time, steps: seq<Step>)
    ensures Run(s, start, steps)[0] == Moment(EMPTY, start, Nothing)
  {
    RunExtends(s, start, steps, 0);
    assert Run(s, start, steps)[0] == Run(s, start, steps)[..1][0];
  }

  // ----- the attempt budget -----

  /**
   There is at most one live challenge, it has an attempt left, and its attempts and the wrong answers
   counted already do not exceed the maximum together.
   */
  ghost predicate BudgetKept(m: Moment, s: Settings) {
    && (forall id, other :: Live(m.redis, id, m.now).Some? && Live(m.redis, other, m.now).Some? ==> id == other)
    && forall id :: Live(m.redis, id, m.now).Some? ==>
         m.redis.challenges[id].remaining >= 1
           && m.redis.challenges[id].remaining + Count(m.redis.failures, m.now) <= s.maxAttempts
  }

  /** Besides: the counter stays within the maximum, and the lock outlives a counter that has reached it. */
  ghost predicate CounterKept(r: Redis, s: Settings, now: Time) {
    && Count(r.failures, now) <= s.maxAttempts
    && (r.failures.Some? && Count(r.failures, now) == s.maxAttempts ==>
        r.lock.Some? && r.lock.value >= r.failures.value.expiresAt)
    && (r.failures.Some? ==> r.failures.value.expiresAt <= now + s.lockout)
  }

  ghost predicate Sound(r: Redis, s: Settings, now: Time) {
    BudgetKept(Moment(r, now, Nothing), s) && CounterKept(r, s, now)
  }

  /** Whatever is live is what was read as active. */
  ghost predicate ReadsCurrent(r: Redis, previous: Option<ChallengeId>, at: Time) {
    forall x: ChallengeId :: Live(r, x, at).Some? ==> previous == Some(x)
  }

  /** The installation displaces whatever is live, and no more wrong answers are counted than at its admission. */
  ghost predicate InstallsCleanly(trace: seq<Moment>, step: Step)
    requires |trace| > 0
  {
    Installs(trace, step) ==>
      var last := trace[|trace| - 1];
      && ReadsCurrent(last.redis, ActiveAt(trace, step.readAt), step.at)
      && Count(last.redis.failures, step.at) <= trace[step.startedAt].note.failures
  }

  lemma WaitingIsSound(r: Redis, s: Settings, now: Time, at: Time)
    requires Sound(r, s, now) && now <= at
    ensures Sound(r, s, at)
  {
    assert forall id :: Live(r, id, at).Some? ==> Live(r, id, now).Some?;
  }

  lemma FailureIsSound(r: Redis, s: Settings, id: ChallengeId, answer: string, reset: bool, at: Time)
    requires s.Valid() && Sound(r, s, at)
    ensures Sound(RecordFailure(r, s, id, answer, reset, at).0, s, at)
  {
    var r' := RecordFailure(r, s, id, answer, reset, at).0;
    assert forall x: ChallengeId :: Live(r', x, at).Some? ==> Live(r, x, at).Some?;
  }

  lemma VerifyIsSound(r: Redis, s: Settings, id: ChallengeId, seen: Option<Challenge>, answer: string, at: Time)
    requires s.Valid() && Sound(r, s, at)
    ensures Sound(Verify(r, s, id, seen, answer, at).0, s, at)
  {
    if seen.Some? {
      FailureIsSound(r, s, id, seen.value.answer, seen.value.mode.ButtonSequence?, at);
    }
    var r' := Verify(r, s, id, seen, answer, at).0;
    hide RecordFailure;
    if seen.Some? && seen.value.answer == Truncated(answer) {
      assert forall x: ChallengeId :: Live(r', x, at).Some? ==>
             Live(r, x, at).Some? && r'.challenges[x] == r.challenges[x];
    }
  }

  lemma PressIsSound(r: Redis, s: Settings, id: ChallengeId, seen: Option<Challenge>, again: Option<Challenge>,
      choice: int, at: Time)
    requires s.Valid() && Sound(r, s, at)
    ensures Sound(Press(r, s, id, seen, again, choice, at).0, s, at)
  {
    if 0 <= choice < SYMBOLS && seen.Some? {
      FailureIsSound(r, s, id, seen.value.answer, true, at);
      VerifyIsSound(r, s, id, again, seen.value.progress + [Digit(choice)], at);
    }
    var r' := Press(r, s, id, seen, again, choice, at).0;
    hide RecordFailure, Verify;
    if 0 <= choice < SYMBOLS && seen.Some? && seen.value.mode.ButtonSequence?
       && |seen.value.progress| + 1 < seen.value.target {
      assert forall x: ChallengeId :: Live(r', x, at).Some? <==> Live(r, x, at).Some?;
    }
  }

  lemma DroppingIsSound(r: Redis, s: Settings, previous: Option<ChallengeId>, at: Time)
    requires Sound(r, s, at)
    ensures Sound(Dropped(r, previous), s, at)
  {
    var r' := Dropped(r, previous);
    assert forall x: ChallengeId :: Live(r', x, at).Some? ==>
           Live(r, x, at).Some? && r'.challenges[x] == r.challenges[x];
  }

  lemma AdmissionIsSound(r: Redis, s: Settings, lockTtl: nat, at: Time)
    requires Sound(r, s, at)
    ensures Sound(Admit(r, s, lockTtl, at).0, s, at)
  {
    var r' := Admit(r, s, lockTtl, at).0;
    assert r'.challenges == r.challenges && r'.failures == r.failures;
    assert forall x: ChallengeId :: Live(r', x, at) == Live(r, x, at);
    hide Incremented;
  }

  /** Installing a challenge keeps the budget exactly when it is done cleanly. */
  lemma InstallationSoundExactly(r: Redis, s: Settings, id: ChallengeId, mode: Mode, answer: string, failures: nat,
      previous: Option<ChallengeId>, at: Time)
    requires s.Valid() && Sound(r, s, at) && id !in r.challenges && failures < s.maxAttempts
    ensures var r' := Captcha.Install(r, s, id, mode, answer, failures, previous, at);
            var clean := ReadsCurrent(r, previous, at) && Count(r.failures, at) <= failures;
            && (clean ==> Sound(r', s, at))
            && (BudgetKept(Moment(r', at, Nothing), s) ==> clean)
  {
    var r' := Captcha.Install(r, s, id, mode, answer, failures, previous, at);
    assert Live(r', id, at).Some? && r'.challenges[id].remaining == s.maxAttempts - failures;
    forall x | x != id
      ensures Live(r', x, at).Some? <==> Live(r, x, at).Some? && previous != Some(x)
    {
    }
    assert forall x: ChallengeId :: Live(r, x, at).Some? ==> x != id;
    hide Live;
  }

  // ----- one step -----

  /** Every challenge in the keys was created in this run, and every admission found the counter below the maximum. */
  ghost predicate Accounted(trace: seq<Moment>, s: Settings)
    requires |trace| > 0
  {
    var r := trace[|trace| - 1].redis;
    && (forall id :: id in r.challenges ==> exists i :: 0 <= i < |trace| && Creates(trace[i], id))
    && forall i :: 0 <= i < |trace| && trace[i].note.Started? ==> trace[i].note.failures < s.maxAttempts
  }

  predicate Creates(m: Moment, id: ChallengeId) {
    m.note.Created? && m.note.id == id
  }

  lemma StepIsAccounted(trace: seq<Moment>, s: Settings, step: Step)
    requires |trace| > 0 && Accounted(trace, s)
    ensures Accounted(trace + [Execute(trace, s, step)], s)
  {
    var m := Execute(trace, s, step);
    var r := trace[|trace| - 1].redis;
    KeysComeFromCreation(trace, s, step);
    forall id | id in m.redis.challenges
      ensures exists i :: 0 <= i < |trace| + 1 && Creates((trace + [m])[i], id)
    {
      if id in r.challenges {
        var i :| 0 <= i < |trace| && Creates(trace[i], id);
        assert Creates((trace + [m])[i], id);
      } else {
        assert Creates((trace + [m])[|trace|], id);
      }
    }
    StartsBelowMaximum(trace, s, step);
    hide Execute, Creates;
  }

  lemma KeysComeFromCreation(trace: seq<Moment>, s: Settings, step: Step)
    requires |trace| > 0
    ensures var m := Execute(trace, s, step);
            forall id :: id in m.redis.challenges ==> id in trace[|trace| - 1].redis.challenges || Creates(m, id)
  {
    hide Installs, MissingResult, Truncated, Incremented, Count;
  }

  lemma StartsBelowMaximum(trace: seq<Moment>, s: Settings, step: Step)
    requires |trace| > 0
    ensures Execute(trace, s, step).note.Started? ==> Execute(trace, s, step).note.failures < s.maxAttempts
  {
    hide Installs, Verify, Press;
  }

  /** After a step the budget is kept if and only if the step, when it installs a challenge, does so cleanly. */
  lemma StepIsSoundExactly(trace: seq<Moment>, s: Settings, step: Step)
    requires s.Valid() && |trace| > 0 && Accounted(trace, s)
    requires Sound(trace[|trace| - 1].redis, s, trace[|trace| - 1].now)
    ensures var m := Execute(trace, s, step);
            && (InstallsCleanly(trace, step) ==> Sound(m.redis, s, m.now))
            && (BudgetKept(m, s) ==> InstallsCleanly(trace, step))
  {
    var last := trace[|trace| - 1];
    var m := Execute(trace, s, step);
    if step.at >= last.now {
      WaitingIsSound(last.redis, s, last.now, step.at);
      match step
      case Start(lockTtl, at) => AdmissionIsSound(last.redis, s, lockTtl, at);
      case Install(id, mode, answer, startedAt, readAt, at) =>
        if Installs(trace, step) {
          assert id !in last.redis.challenges;
          InstallationSoundExactly(last.redis, s, id, mode, answer, trace[startedAt].note.failures,
                                   ActiveAt(trace, readAt), at);
          assert BudgetKept(m, s) == BudgetKept(Moment(m.redis, m.now, Nothing), s);
        }
      case Answer(id, answer, readAt, at) =>
        if readAt < |trace| { VerifyIsSound(last.redis, s, id, SeenAt(trace, readAt, id), answer, at); }
      case PressButton(id, choice, readAt, readAgainAt, at) =>
        if readAt <= readAgainAt < |trace| {
          PressIsSound(last.redis, s, id, SeenAt(trace, readAt, id), SeenAt(trace, readAgainAt, id), choice, at);
        }
      case Drop(readAt, at) => if readAt < |trace| { DroppingIsSound(last.redis, s, ActiveAt(trace, readAt), at); }
      case OtherMember(at) => OthersAreSound(last.redis, s, at);
      case Wait(_) =>
    }
    hide Verify, Press, Admit, Captcha.Install, Dropped, SeenAt, ActiveAt, BudgetKept, CounterKept;
  }

  lemma OthersAreSound(r: Redis, s: Settings, at: Time)
    requires Sound(r, s, at)
    ensures Sound(r.(guildRate := Some(Incremented(r.guildRate, at, 60000))), s, at)
  {
    assert forall x: ChallengeId ::
        Live(r.(guildRate := Some(Incremented(r.guildRate, at, 60000))), x, at) == Live(r, x, at);
  }

  // ----- whole runs -----

  /** Every installation of the run was clean. */
  ghost predicate AllInstallCleanly(s: Settings, start: Time, steps: seq<Step>) {
    forall i, j | 0 <= i < |steps| && j == i + 1 :: InstallsCleanly(Run(s, start, steps)[..j], steps[i])
  }

  ghost predicate BudgetKeptThroughout(s: Settings, start: Time, steps: seq<Step>) {
    forall i | 0 <= i <= |steps| :: BudgetKept(Run(s, start, steps)[i], s)
  }

  lemma {:induction false} RunIsAccounted(s: Settings, start: Time, steps: seq<Step>, i: nat)
    requires i <= |steps|
    ensures Accounted(Run(s, start, steps)[..i + 1], s)
  {
    var trace := Run(s, start, steps);
    if i == 0 {
      FirstMoment(s, start, steps);
      assert trace[..1] == [Moment(EMPTY, start, Nothing)];
    } else {
      RunIsAccounted(s, start, steps, i - 1);
      StepOf(s, start, steps, i - 1);
      assert trace[..i + 1] == trace[..i] + [trace[i]];
      StepIsAccounted(trace[..i], s, steps[i - 1]);
    }
    hide Run, Execute;
  }

  lemma {:induction false} RunIsSound(s: Settings, start: Time, steps: seq<Step>, i: nat)
    requires s.Valid() && i <= |steps|
    requires forall k, j | 0 <= k < i && j == k + 1 :: InstallsCleanly(Run(s, start, steps)[..j], steps[k])
    ensures Sound(Run(s, start, steps)[i].redis, s, Run(s, start, steps)[i].now)
  {
    var trace := Run(s, start, steps);
    if i == 0 {
      FirstMoment(s, start, steps);
      hide Run;
    } else {
      RunIsSound(s, start, steps, i - 1);
      MomentIsSoundExactly(s, start, steps, i - 1);
      var j := i - 1 + 1;
      assert InstallsCleanly(trace[..j], steps[i - 1]);
      hide *;
    }
  }

  lemma MomentIsSoundExactly(s: Settings, start: Time, steps: seq<Step>, i: nat)
    requires s.Valid() && i < |steps| && Sound(Run(s, start, steps)[i].redis, s, Run(s, start, steps)[i].now)
    ensures var trace := Run(s, start, steps);
            && (InstallsCleanly(trace[..i + 1], steps[i]) ==> Sound(trace[i + 1].redis, s, trace[i + 1].now))
            && (BudgetKept(trace[i + 1], s) ==> InstallsCleanly(trace[..i + 1], steps[i]))
  {
    RunIsAccounted(s, start, steps, i);
    StepOf(s, start, steps, i);
    hide *;
    StepIsSoundExactly(Run(s, start, steps)[..i + 1], s, steps[i]);
  }

  lemma {:induction false} KeptMeansClean(s: Settings, start: Time, steps: seq<Step>, i: nat)
    requires s.Valid() && BudgetKeptThroughout(s, start, steps) && i <= |steps|
    ensures forall k, j | 0 <= k < i && j == k + 1 :: InstallsCleanly(Run(s, start, steps)[..j], steps[k])
  {
    if i > 0 {
      KeptMeansClean(s, start, steps, i - 1);
      RunIsSound(s, start, steps, i - 1);
      var trace := Run(s, start, steps);
      assert BudgetKept(trace[i], s);
      MomentIsSoundExactly(s, start, steps, i - 1);
      hide *;
      forall k, j | 0 <= k < i && j == k + 1
        ensures InstallsCleanly(trace[..j], steps[k])
      {
        if k < i - 1 { assert InstallsCleanly(trace[..j], steps[k]); }
      }
    }
  }

  /**
   At every moment of a run there is at most one live challenge, within its budget, if and only if every
   installation displaced whatever was live and found no more wrong answers counted than its admission had.
   */
  lemma BudgetKeptExactly(s: Settings, start: Time, steps: seq<Step>)
    requires s.Valid()
    ensures BudgetKeptThroughout(s, start, steps) <==> AllInstallCleanly(s, start, steps)
  {
    if AllInstallCleanly(s, start, steps) {
      forall i | 0 <= i <= |steps|
        ensures BudgetKept(Run(s, start, steps)[i], s)
      {
        RunIsSound(s, start, steps, i);
        hide Run, InstallsCleanly;
      }
    }
    if BudgetKeptThroughout(s, start, steps) {
      KeptMeansClean(s, start, steps, |steps|);
    }
    hide *;
  }

  /**
   In such a run there is at every moment at most one live challenge, it has an attempt left, and its
   attempts and the wrong answers counted already never exceed the configured maximum together.
   */
  lemma AttemptBudget(s: Settings, start: Time, steps: seq<Step>, i: nat, id: ChallengeId, other: ChallengeId)
    requires s.Valid() && AllInstallCleanly(s, start, steps) && i <= |steps|
    ensures var m := Run(s, start, steps)[i];
            && Count(m.redis.failures, m.now) <= s.maxAttempts
            && (Live(m.redis, id, m.now).Some? ==>
                  && Live(m.redis, id, m.now).value.remaining >= 1
                  && Live(m.redis, id, m.now).value.remaining + Count(m.redis.failures, m.now) <= s.maxAttempts)
            && (Live(m.redis, id, m.now).Some? && Live(m.redis, other, m.now).Some? ==> id == other)
  {
    RunIsSound(s, start, steps, i);
    hide Run, InstallsCleanly;
  }

  /** The member's lock is alive in its last second, in which it can be reported as gone. */
  predicate LockReportedGone(r: Redis, lockTtl: nat, now: Time) {
    lockTtl == 0 && AliveAt(r.lock, now) && r.lock.value < now + 1000
  }

  /**
   In such a run a creation is never refused for the counter alone: that branch runs exactly when the
   counter is alive at the maximum and the lock, which then outlives it, is in its last second and
   reported as gone.
   */
  lemma CounterLocksExactly(s: Settings, start: Time, steps: seq<Step>, i: nat)
    requires s.Valid() && AllInstallCleanly(s, start, steps) && i < |steps|
    ensures var trace := Run(s, start, steps);
            trace[i + 1].note == NotStarted(LockedByCounter) <==>
              && steps[i].Start? && steps[i].at >= trace[i].now
              && Count(trace[i].redis.failures, steps[i].at) == s.maxAttempts
              && LockReportedGone(trace[i].redis, steps[i].lockTtl, steps[i].at)
  {
    RunIsSound(s, start, steps, i);
    StepOf(s, start, steps, i);
    var trace := Run(s, start, steps);
    if steps[i].at >= trace[i].now {
      WaitingIsSound(trace[i].redis, s, trace[i].now, steps[i].at);
    }
    hide Run, Verify, Press, Captcha.Install, Installs, InstallsCleanly, BudgetKept;
  }

  // ----- creations that nobody interrupts -----

  /** The active key points at the only live challenge and dies with it. */
  ghost predicate OneLive(r: Redis, now: Time) {
    forall id :: id in r.challenges && now < r.challenges[id].expiresAt ==>
      r.active == Some(Active(id, r.challenges[id].expiresAt))
  }

  predicate Interrupts(n: Note) {
    n.Created? || (n.Reported? && (n.outcome.Invalid? || n.outcome.LockedNow?))
  }

  /**
   Between the admission of a creation and its transaction nothing is created and no wrong answer is
   counted, and between the read of a drop and its deletion nothing is created.
   */
  ghost predicate Uninterrupted(trace: seq<Moment>, step: Step) {
    match step
    case Install(_, _, _, startedAt, _, _) => forall m :: startedAt < m < |trace| ==> !Interrupts(trace[m].note)
    case Drop(readAt, _) => forall m :: readAt < m < |trace| ==> !trace[m].note.Created?
    case _ => true
  }

  ghost predicate AllUninterrupted(s: Settings, start: Time, steps: seq<Step>) {
    forall i, j | 0 <= i < |steps| && j == i + 1 :: Uninterrupted(Run(s, start, steps)[..j], steps[i])
  }

  /** Nothing but a creation sets the active key. */
  lemma ActiveStep(trace: seq<Moment>, s: Settings, step: Step)
    requires |trace| > 0
    ensures var last, m := trace[|trace| - 1], Execute(trace, s, step);
            && m.now >= last.now
            && (m.note.Created? || m.redis.active == last.redis.active || m.redis.active.None?)
            && (Interrupts(m.note) || m.redis.failures == last.redis.failures || m.redis.failures.None?)
  {
    hide Installs, MissingResult, Truncated;
  }

  lemma FailureIsOneLive(r: Redis, s: Settings, id: ChallengeId, answer: string, reset: bool, at: Time)
    requires OneLive(r, at)
    ensures OneLive(RecordFailure(r, s, id, answer, reset, at).0, at)
  {
  }

  lemma VerifyIsOneLive(r: Redis, s: Settings, id: ChallengeId, seen: Option<Challenge>, answer: string, at: Time)
    requires OneLive(r, at)
    ensures OneLive(Verify(r, s, id, seen, answer, at).0, at)
  {
    if seen.Some? {
      FailureIsOneLive(r, s, id, seen.value.answer, seen.value.mode.ButtonSequence?, at);
    }
    hide RecordFailure;
  }

  lemma PressIsOneLive(r: Redis, s: Settings, id: ChallengeId, seen: Option<Challenge>, again: Option<Challenge>,
      choice: int, at: Time)
    requires OneLive(r, at)
    ensures OneLive(Press(r, s, id, seen, again, choice, at).0, at)
  {
    if 0 <= choice < SYMBOLS && seen.Some? {
      FailureIsOneLive(r, s, id, seen.value.answer, true, at);
      VerifyIsOneLive(r, s, id, again, seen.value.progress + [Digit(choice)], at);
    }
    hide RecordFailure, Verify;
  }

  lemma InstallationIsOneLive(r: Redis, s: Settings, id: ChallengeId, mode: Mode, answer: string, failures: nat,
      previous: Option<ChallengeId>, at: Time)
    requires OneLive(r, at) && ReadsCurrent(r, previous, at)
    ensures OneLive(Captcha.Install(r, s, id, mode, answer, failures, previous, at), at)
  {
    assert forall x: ChallengeId :: x in r.challenges && at < r.challenges[x].expiresAt ==> Live(r, x, at).Some?;
  }

  lemma DroppingIsOneLive(r: Redis, previous: Option<ChallengeId>, at: Time)
    requires OneLive(r, at) && ReadsCurrent(r, previous, at)
    ensures OneLive(Dropped(r, previous), at)
  {
    assert forall x: ChallengeId :: x in r.challenges && at < r.challenges[x].expiresAt ==> Live(r, x, at).Some?;
  }

  lemma StepIsOneLive(trace: seq<Moment>, s: Settings, step: Step)
    requires |trace| > 0 && OneLive(trace[|trace| - 1].redis, trace[|trace| - 1].now)
    requires step.Install? && Installs(trace, step) ==>
             ReadsCurrent(trace[|trace| - 1].redis, ActiveAt(trace, step.readAt), step.at)
    requires step.Drop? && step.readAt < |trace| ==>
             ReadsCurrent(trace[|trace| - 1].redis, ActiveAt(trace, step.readAt), step.at)
    ensures var m := Execute(trace, s, step); OneLive(m.redis, m.now)
  {
    var last := trace[|trace| - 1];
    if step.at >= last.now {
      assert OneLive(last.redis, step.at);
      match step
      case Start(_, _) =>
      case Install(id, mode, answer, startedAt, readAt, at) =>
        if Installs(trace, step) {
          InstallationIsOneLive(last.redis, s, id, mode, answer, trace[startedAt].note.failures,
                                ActiveAt(trace, readAt), at);
        }
      case Answer(id, answer, readAt, at) =>
        if readAt < |trace| { VerifyIsOneLive(last.redis, s, id, SeenAt(trace, readAt, id), answer, at); }
      case PressButton(id, choice, readAt, readAgainAt, at) =>
        if readAt <= readAgainAt < |trace| {
          PressIsOneLive(last.redis, s, id, SeenAt(trace, readAt, id), SeenAt(trace, readAgainAt, id), choice, at);
        }
      case Drop(readAt, at) => if readAt < |trace| { DroppingIsOneLive(last.redis, ActiveAt(trace, readAt), at); }
      case _ =>
    }
    hide Installs, ActiveAt, SeenAt, Verify, Press, Captcha.Install, Dropped, ReadsCurrent, Incremented, Count;
  }

  lemma {:induction false} ActiveSince(s: Settings, start: Time, steps: seq<Step>, i: nat, j: nat)
    requires i <= j <= |steps|
    requires forall m :: i < m <= j ==> !Run(s, start, steps)[m].note.Created?
    ensures var a, b := Run(s, start, steps)[i], Run(s, start, steps)[j];
            a.now <= b.now && (b.redis.active == a.redis.active || b.redis.active.None?)
    decreases j - i
  {
    hide Run, Execute;
    if i < j {
      ActiveSince(s, start, steps, i, j - 1);
      StepOf(s, start, steps, j - 1);
      ActiveStep(Run(s, start, steps)[..j], s, steps[j - 1]);
    }
  }

  lemma {:induction false} CountedSince(s: Settings, start: Time, steps: seq<Step>, i: nat, j: nat)
    requires i <= j <= |steps|
    requires forall m :: i < m <= j ==> !Interrupts(Run(s, start, steps)[m].note)
    ensures var a, b := Run(s, start, steps)[i], Run(s, start, steps)[j];
            a.now <= b.now && (b.redis.failures == a.redis.failures || b.redis.failures.None?)
    decreases j - i
  {
    hide Run, Execute, Interrupts;
    if i < j {
      CountedSince(s, start, steps, i, j - 1);
      StepOf(s, start, steps, j - 1);
      ActiveStep(Run(s, start, steps)[..j], s, steps[j - 1]);
    }
  }

  /** What is live now was read as active, when nothing has been created since. */
  lemma ReadIsCurrent(s: Settings, start: Time, steps: seq<Step>, i: nat, j: nat, at: Time, x: ChallengeId)
    requires i <= j <= |steps| && OneLive(Run(s, start, steps)[j].redis, Run(s, start, steps)[j].now)
    requires forall m :: i < m <= j ==> !Run(s, start, steps)[m].note.Created?
    requires at >= Run(s, start, steps)[j].now && Live(Run(s, start, steps)[j].redis, x, at).Some?
    ensures ActiveAt(Run(s, start, steps), i) == Some(x)
  {
    ActiveSince(s, start, steps, i, j);
    hide Run;
  }

  /** An admission records the counter as it is. */
  lemma StartRecords(s: Settings, start: Time, steps: seq<Step>, i: nat)
    requires i <= |steps| && Run(s, start, steps)[i].note.Started?
    ensures var m := Run(s, start, steps)[i]; m.note.failures == Count(m.redis.failures, m.now)
  {
    if i == 0 {
      FirstMoment(s, start, steps);
    } else {
      StepOf(s, start, steps, i - 1);
      hide Run, Verify, Press, Installs;
    }
  }

  lemma {:induction false} UninterruptedIsOneLive(s: Settings, start: Time, steps: seq<Step>, i: nat)
    requires AllUninterrupted(s, start, steps) && i <= |steps|
    ensures OneLive(Run(s, start, steps)[i].redis, Run(s, start, steps)[i].now)
    decreases i
  {
    var trace := Run(s, start, steps);
    if i == 0 {
      FirstMoment(s, start, steps);
      hide Run;
    } else {
      var n := i - 1;
      var step := steps[n];
      UninterruptedIsOneLive(s, start, steps, n);
      StepOf(s, start, steps, n);
      var j := n + 1;
      assert Uninterrupted(trace[..j], step);
      if (step.Install? && Installs(trace[..i], step)) || (step.Drop? && step.readAt < i && step.at >= trace[n].now) {
        forall x: ChallengeId | Live(trace[n].redis, x, step.at).Some?
          ensures ActiveAt(trace[..i], step.readAt) == Some(x)
        {
          NothingCreatedSince(trace[..i], step);
          ReadIsCurrent(s, start, steps, step.readAt, n, step.at, x);
        }
      }
      hide Run, Execute, Installs, Uninterrupted, OneLive;
      if step.at >= trace[n].now {
        StepIsOneLive(trace[..i], s, step);
      } else {
        assert trace[i].redis == trace[n].redis
               && trace[i].now == trace[n].now by { EarlierIsIdle(trace[..i], s, step); }
      }
    }
  }

  lemma EarlierIsIdle(trace: seq<Moment>, s: Settings, step: Step)
    requires |trace| > 0 && step.at < trace[|trace| - 1].now
    ensures Execute(trace, s, step) == Moment(trace[|trace| - 1].redis, trace[|trace| - 1].now, Nothing)
  {
  }

  lemma NothingCreatedSince(trace: seq<Moment>, step: Step)
    requires |trace| > 0 && Uninterrupted(trace, step)
    requires (step.Install? && Installs(trace, step)) || (step.Drop? && step.readAt < |trace|)
    ensures step.readAt < |trace| && forall m :: step.readAt < m < |trace| ==> !trace[m].note.Created?
  {
  }

  /**
   If nobody interrupts a creation or a drop, every installation is clean: the budget is kept throughout.
   */
  lemma UninterruptedIsClean(s: Settings, start: Time, steps: seq<Step>)
    requires s.Valid() && AllUninterrupted(s, start, steps)
    ensures AllInstallCleanly(s, start, steps)
  {
    var trace := Run(s, start, steps);
    forall i, j | 0 <= i < |steps| && j == i + 1
      ensures InstallsCleanly(trace[..j], steps[i])
    {
      UninterruptedInstallIsClean(s, start, steps, i);
    }
    hide *;
  }

  lemma UninterruptedInstallIsClean(s: Settings, start: Time, steps: seq<Step>, i: nat)
    requires s.Valid() && AllUninterrupted(s, start, steps) && i < |steps|
    ensures InstallsCleanly(Run(s, start, steps)[..i + 1], steps[i])
  {
    var trace, step := Run(s, start, steps), steps[i];
    var j := i + 1;
    assert Uninterrupted(trace[..j], step);
    if Installs(trace[..j], step) {
      UninterruptedIsOneLive(s, start, steps, i);
      NothingCreatedSince(trace[..j], step);
      assert forall m :: step.startedAt < m <= i ==> !Interrupts(trace[..j][m].note);
      CountedSince(s, start, steps, step.startedAt, i);
      StartRecords(s, start, steps, step.startedAt);
      hide Run, OneLive, Interrupts, Uninterrupted, AllUninterrupted;
      forall x: ChallengeId | Live(trace[i].redis, x, step.at).Some?
        ensures ActiveAt(trace[..j], step.readAt) == Some(x)
      {
        ReadIsCurrent(s, start, steps, step.readAt, i, step.at, x);
      }
    }
  }

  // ----- admission -----

  /** The member's cooldown covers every admission so far. */
  ghost predicate CoolingDown(trace: seq<Moment>, s: Settings, n: nat)
    requires n < |trace|
  {
    forall i | 0 <= i <= n && trace[i].note.Started? ::
      trace[n].redis.userRate.Some? && trace[n].redis.userRate.value >= trace[i].now + s.cooldown
  }

  /** An admission needs the cooldown to be over, and starts it again; nothing else shortens it. */
  lemma CooldownStep(trace: seq<Moment>, s: Settings, step: Step)
    requires |trace| > 0
    ensures var last := trace[|trace| - 1];
            var m := Execute(trace, s, step);
            && m.now >= last.now
            && (m.redis.userRate == last.redis.userRate
                || (m.redis.userRate == Some(m.now + s.cooldown) && !AliveAt(last.redis.userRate, m.now)))
            && (m.note.Started? ==>
                m.redis.userRate == Some(m.now + s.cooldown) && !AliveAt(last.redis.userRate, m.now))
  {
    hide Live, MissingResult, Truncated;
  }

  lemma {:induction false} AlwaysCoolingDown(s: Settings, start: Time, steps: seq<Step>, n: nat)
    requires n <= |steps|
    ensures CoolingDown(Run(s, start, steps), s, n)
  {
    hide Run, Execute;
    var trace := Run(s, start, steps);
    if n == 0 {
      FirstMoment(s, start, steps);
    } else {
      AlwaysCoolingDown(s, start, steps, n - 1);
      StepOf(s, start, steps, n - 1);
      CooldownStep(trace[..n], s, steps[n - 1]);
    }
  }

  /** Two creations of one member are admitted at least the cooldown apart. */
  lemma StartsAreSpaced(s: Settings, start: Time, steps: seq<Step>, i: nat, j: nat)
    requires i < j <= |steps| && Run(s, start, steps)[i].note.Started? && Run(s, start, steps)[j].note.Started?
    ensures Run(s, start, steps)[j].now >= Run(s, start, steps)[i].now + s.cooldown
  {
    AlwaysCoolingDown(s, start, steps, j - 1);
    StepOf(s, start, steps, j - 1);
    CooldownStep(Run(s, start, steps)[..j], s, steps[j - 1]);
    hide Run, Execute;
  }

  /** Every challenge was created by a creation admitted before, and no two by the same one. */
  lemma CreationsHaveTheirOwnStart(s: Settings, start: Time, steps: seq<Step>, i: nat, j: nat)
    requires i < j <= |steps| && Run(s, start, steps)[j].note.Created?
    ensures var trace := Run(s, start, steps);
            && trace[j].note.startedAt < j && trace[trace[j].note.startedAt].note.Started?
            && (trace[i].note.Created? ==> trace[i].note.startedAt != trace[j].note.startedAt)
  {
    StepOf(s, start, steps, j - 1);
    OnlyInstallsCreate(Run(s, start, steps)[..j], s, steps[j - 1]);
    hide Run, Execute;
    assert Run(s, start, steps)[..j][i] == Run(s, start, steps)[i];
  }

  lemma OnlyInstallsCreate(trace: seq<Moment>, s: Settings, step: Step)
    requires |trace| > 0 && Execute(trace, s, step).note.Created?
    ensures UnderWay(trace, Execute(trace, s, step).note.startedAt)
  {
    hide Verify, Press, Drawable;
  }

  /** The creations of this member admitted at the moments after `i`, up to `j`. */
  function Starts(trace: seq<Moment>, i: nat, j: nat): nat
    requires i <= j < |trace|
  {
    if i == j then 0 else Starts(trace, i, j - 1) + if trace[j].note.Started? then 1 else 0
  }

  /** From moment `i` to moment `j` the guild's counter of starts has one life. */
  ghost predicate OneGuildLife(trace: seq<Moment>, i: nat, j: nat, until: Time) {
    && i <= j < |trace|
    && forall m | i <= m <= j :: trace[m].redis.guildRate.Some? && trace[m].redis.guildRate.value.expiresAt == until
  }

  lemma GuildCounterStep(trace: seq<Moment>, s: Settings, step: Step)
    requires |trace| > 0
    requires var before := trace[|trace| - 1].redis.guildRate;
             var m := Execute(trace, s, step);
             before.Some? && m.redis.guildRate.Some? && m.redis.guildRate.value.expiresAt == before.value.expiresAt
    ensures var before := trace[|trace| - 1].redis.guildRate.value.count;
            var m := Execute(trace, s, step);
            && m.redis.guildRate.value.count >= before + (if m.note.Started? then 1 else 0)
            && (m.note.Started? ==> m.redis.guildRate.value.count <= s.guildStarts)
  {
    hide Live, MissingResult, Truncated;
  }

  /**
   Within one life of the guild's counter, a minute, a member's starts are bounded by the guild limit,
   whatever the other members of the guild start.
   */
  lemma {:induction false} StartsPerGuildLife(s: Settings, start: Time, steps: seq<Step>, i: nat, j: nat, until: Time)
    requires i <= j <= |steps| && OneGuildLife(Run(s, start, steps), i, j, until)
    ensures var trace := Run(s, start, steps);
            var first, now := trace[i].redis.guildRate.value.count, trace[j].redis.guildRate.value.count;
            && now >= first + Starts(trace, i, j)
            && (Starts(trace, i, j) > 0 ==> first + Starts(trace, i, j) <= s.guildStarts)
    decreases j
  {
    hide Run, Execute;
    if i < j {
      var trace := Run(s, start, steps);
      StartsPerGuildLife(s, start, steps, i, j - 1, until);
      StepOf(s, start, steps, j - 1);
      GuildCounterStep(trace[..j], s, steps[j - 1]);
    }
  }

  // ----- wrong answers in one life of the counter -----

  predicate Wrong(n: Note) {
    n.Reported? && (n.outcome.Invalid? || n.outcome.LockedNow?)
  }

  predicate Succeeded(n: Note) {
    n.Reported? && n.outcome.Success?
  }

  /** The wrong answers counted at the moments after `i`, up to `j`. */
  function WrongAnswers(trace: seq<Moment>, i: nat, j: nat): nat
    requires i <= j < |trace|
  {
    if i == j then 0 else WrongAnswers(trace, i, j - 1) + if Wrong(trace[j].note) then 1 else 0
  }

  /** From moment `i` to moment `j` the counter was neither deleted nor replaced: one life, ending at `until`. */
  ghost predicate OneLife(trace: seq<Moment>, i: nat, j: nat, until: Time) {
    && i <= j < |trace|
    && (forall m | i <= m <= j :: trace[m].redis.failures.Some? && trace[m].redis.failures.value.expiresAt == until)
    && (forall m | i < m <= j :: !Succeeded(trace[m].note))
  }

  /** The counter lives on, and counts the step exactly when it was a wrong answer. */
  predicate Counts(before: Redis, m: Moment) {
    && before.failures.Some? && m.redis.failures.Some?
    && m.redis.failures.value.expiresAt == before.failures.value.expiresAt && !Succeeded(m.note)
    ==> m.redis.failures.value.count == before.failures.value.count + if Wrong(m.note) then 1 else 0
  }

  lemma VerifyCounts(r: Redis, s: Settings, id: ChallengeId, seen: Option<Challenge>, answer: string, at: Time)
    requires s.Valid()
    ensures var (r', outcome) := Verify(r, s, id, seen, answer, at); Counts(r, Moment(r', at, Reported(id, outcome)))
  {
  }

  lemma PressCounts(r: Redis, s: Settings, id: ChallengeId, seen: Option<Challenge>, again: Option<Challenge>,
      choice: int, at: Time)
    requires s.Valid()
    ensures var (r', outcome) := Press(r, s, id, seen, again, choice, at);
            Counts(r, Moment(r', at, Reported(id, outcome)))
  {
  }

  lemma StepCounts(trace: seq<Moment>, s: Settings, step: Step)
    requires s.Valid() && |trace| > 0
    ensures Counts(trace[|trace| - 1].redis, Execute(trace, s, step))
  {
    var r := trace[|trace| - 1].redis;
    if step.Answer? && step.readAt < |trace| {
      VerifyCounts(r, s, step.id, SeenAt(trace, step.readAt, step.id), step.answer, step.at);
      hide Verify;
    } else if step.PressButton? && step.readAt <= step.readAgainAt < |trace| {
      PressCounts(r, s, step.id, SeenAt(trace, step.readAt, step.id), SeenAt(trace, step.readAgainAt, step.id),
                  step.choice, step.at);
      hide Press;
    }
  }

  lemma {:induction false} CounterCountsWrongAnswers(s: Settings, start: Time, steps: seq<Step>, i: nat, j: nat,
      until: Time)
    requires s.Valid() && j <= |steps| && OneLife(Run(s, start, steps), i, j, until)
    ensures var trace := Run(s, start, steps);
            trace[j].redis.failures.value.count == trace[i].redis.failures.value.count + WrongAnswers(trace, i, j)
    decreases j
  {
    hide Run, Execute;
    if i < j {
      var trace := Run(s, start, steps);
      CounterCountsWrongAnswers(s, start, steps, i, j - 1, until);
      StepOf(s, start, steps, j - 1);
      StepCounts(trace[..j], s, steps[j - 1]);
    }
  }

  /** In one life of the counter at most `maxAttempts` wrong answers are counted. */
  lemma WrongAnswersPerLife(s: Settings, start: Time, steps: seq<Step>, i: nat, j: nat, until: Time)
    requires s.Valid() && AllInstallCleanly(s, start, steps)
    requires j <= |steps| && OneLife(Run(s, start, steps), i, j, until) && Run(s, start, steps)[j].now < until
    ensures var trace := Run(s, start, steps);
            trace[i].redis.failures.value.count + WrongAnswers(trace, i, j) <= s.maxAttempts
  {
    CounterCountsWrongAnswers(s, start, steps, i, j, until);
    RunIsSound(s, start, steps, j);
    hide Run;
  }
}
