/** What a member is told: right and wrong answers in every mode, presses, admissions, and a challenge that is gone. */
module CaptchaAnswers {
  import opened Common
  import opened Captcha
  import opened CaptchaRuns
  import opened CaptchaOutcomes

  // ----- one answer -----

  /** What is compared: answers are cut to 64 characters. */
  function Submitted(answer: string): string {
    answer[..if |answer| <= 64 then |answer| else 64]
  }

  /** The challenge is used up: it and the active key are gone, the counter starts anew, repeats are known as such. */
  ghost predicate UsedUp(r: Redis, r': Redis, id: ChallengeId, now: Time) {
    && r' == r.(challenges := r'.challenges, active := None, failures := None, consumed := r'.consumed)
    && id !in r'.challenges && r'.challenges == r.challenges - {id}
    && r'.consumed == r.consumed[id := now + 600_000]
  }

  /** The counter has one more wrong answer, in the life it had or in a new one of the lockout's length. */
  ghost predicate CountedOnce(r: Redis, r': Redis, s: Settings, now: Time) {
    && r'.failures.Some?
    && if AliveAt(if r.failures.Some? then Some(r.failures.value.expiresAt) else None, now)
       then r'.failures.value == r.failures.value.(count := r.failures.value.count + 1)
       else r'.failures.value == Counter(1, now + s.lockout)
  }

  /** One attempt is gone; with the last one the challenge goes, and the member is locked out. */
  ghost predicate AttemptLost(r: Redis, r': Redis, s: Settings, id: ChallengeId, now: Time, clears: bool, o: Outcome)
    requires id in r.challenges
  {
    var c := r.challenges[id];
    && r' == r.(challenges := r'.challenges, active := r'.active, lock := r'.lock, failures := r'.failures)
    && CountedOnce(r, r', s, now)
    && if c.remaining <= 1 then
         && o == LockedNow && r'.challenges == r.challenges - {id} && r'.active == None
         && r'.lock == Some(now + s.lockout)
       else
         && o == Invalid(c.remaining - 1) && r'.active == r.active && r'.lock == r.lock
         && r'.challenges == r.challenges[id := c.(remaining := c.remaining - 1,
                                                   progress := if clears then "" else c.progress)]
  }

  /** Nothing is there to answer: a used challenge is a replay, a locked member is told so, all else expired. */
  ghost predicate ToldMissing(r: Redis, id: ChallengeId, now: Time, o: Outcome) {
    && (o == Replay <==> id in r.consumed && now < r.consumed[id])
    && (o == LockedOut <==> !(id in r.consumed && now < r.consumed[id]) && r.lock.Some? && now < r.lock.value)
    && o in {Replay, LockedOut, Expired}
  }

  /**
   An answer to a challenge that is still there as it was read succeeds if and only if it is the stored one, in
   every mode.  Success uses the challenge up; any other answer costs exactly one attempt, and in a button
   sequence what was entered.
   */
  lemma AnswerDecides(r: Redis, s: Settings, id: ChallengeId, seen: Option<Challenge>, answer: string, now: Time)
    requires id in r.challenges && now < r.challenges[id].expiresAt
    requires seen.Some? && seen.value.answer == r.challenges[id].answer && seen.value.mode == r.challenges[id].mode
    ensures var (r', o) := Verify(r, s, id, seen, answer, now);
            && (o == Success <==> Submitted(answer) == r.challenges[id].answer)
            && (|answer| <= 64 ==> (o == Success <==> answer == r.challenges[id].answer))
            && if o == Success then UsedUp(r, r', id, now)
               else AttemptLost(r, r', s, id, now, r.challenges[id].mode == ButtonSequence, o)
  {
    assert |answer| <= 64 ==> Submitted(answer) == answer;
  }

  /** An answer to a challenge that is gone, or carries another answer than was read, changes nothing. */
  lemma MissingIsTold(r: Redis, s: Settings, id: ChallengeId, seen: Option<Challenge>, answer: string, now: Time)
    requires seen.Some? && id in r.challenges && now < r.challenges[id].expiresAt ==>
               seen.value.answer != r.challenges[id].answer
    ensures var (r', o) := Verify(r, s, id, seen, answer, now); r' == r && ToldMissing(r, id, now, o)
  {
  }

  /** Whoever answers a used challenge again within ten minutes, whatever was read, is told of the replay. */
  lemma RepeatIsReplay(r: Redis, s: Settings, id: ChallengeId, seen: Option<Challenge>, answer: string, now: Time,
      again: Option<Challenge>, later: string, at: Time)
    requires Verify(r, s, id, seen, answer, now).1 == Success && at < now + 600_000
    ensures var used := Verify(r, s, id, seen, answer, now).0; Verify(used, s, id, again, later, at) == (used, Replay)
  {
  }

  // ----- one press -----

  /**
   A press of something that is no button is refused; on a challenge of another mode it costs an attempt; a press
   that does not complete the entry is acknowledged and kept if nobody moved the entry meanwhile, else it is
   contended; one that completes the entry is an answer.
   */
  lemma PressDecides(r: Redis, s: Settings, id: ChallengeId, seen: Option<Challenge>, again: Option<Challenge>,
      choice: int, now: Time)
    ensures var (r', o) := Press(r, s, id, seen, again, choice, now);
            var there := seen.Some? && id in r.challenges && now < r.challenges[id].expiresAt
                         && r.challenges[id].answer == seen.value.answer;
            if !(0 <= choice <= 4) then r' == r && o == Refused
            else if seen.None? then r' == r && ToldMissing(r, id, now, o)
            else if seen.value.mode != ButtonSequence then
              if there then AttemptLost(r, r', s, id, now, true, o) else r' == r && ToldMissing(r, id, now, o)
            else
              var entry := seen.value.progress + ["01234"[choice]];
              if |entry| >= seen.value.target then (r', o) == Verify(r, s, id, again, entry, now)
              else if there && r.challenges[id].progress == seen.value.progress then
                o == Continue(choice, |entry|, seen.value.target)
                && r' == r.(challenges := r.challenges[id := r.challenges[id].(progress := entry)])
              else r' == r && o == Contended
  {
    assert 0 <= choice <= 4 ==> Digit(choice) == "01234"[choice];
    hide Verify;
  }

  // ----- admission and creation -----

  function Counting(c: Option<Counter>, now: Time): nat {
    if c.Some? && now < c.value.expiresAt then c.value.count else 0
  }

  /**
   A creation is admitted if and only if no lock is reported, fewer wrong answers than the maximum count, the
   member's cooldown is over, and the guild has not started its number of challenges this minute.
   */
  lemma AdmitsExactly(r: Redis, s: Settings, lockTtl: nat, now: Time)
    ensures var (r', a) := Admit(r, s, lockTtl, now);
            var cooling := r.userRate.Some? && now < r.userRate.value;
            && (a == Locked <==> lockTtl > 0)
            && (a == LockedByCounter <==> lockTtl == 0 && Counting(r.failures, now) >= s.maxAttempts)
            && (a.Admitted? <==>
                && lockTtl == 0 && Counting(r.failures, now) < s.maxAttempts && !cooling
                && Counting(r.guildRate, now) < s.guildStarts)
            && (a.Admitted? ==> a.failures == Counting(r.failures, now))
            && r'.challenges == r.challenges && r'.active == r.active && r'.failures == r.failures
            && r'.consumed == r.consumed
            && r'.lock == (if a == LockedByCounter then Some(now + s.lockout) else r.lock)
            && if lockTtl == 0 && a != LockedByCounter && !cooling then
                 && r'.userRate == Some(now + s.cooldown) && r'.guildRate.Some?
                 && r'.guildRate.value.count == Counting(r.guildRate, now) + 1
                 && r'.guildRate.value.expiresAt == (if r.guildRate.Some? && now < r.guildRate.value.expiresAt
                                                     then r.guildRate.value.expiresAt else now + 60_000)
               else r'.userRate == r.userRate && r'.guildRate == r.guildRate
  {
  }

  /** A new challenge has the attempts that are left, at least one; it displaces what was read as active. */
  lemma CreationLeaves(r: Redis, s: Settings, id: ChallengeId, mode: Mode, answer: string, failures: nat,
      previous: Option<ChallengeId>, now: Time)
    ensures var r' := Captcha.Install(r, s, id, mode, answer, failures, previous, now);
            && id in r'.challenges && r' == r.(challenges := r'.challenges, active := Some(Active(id, now + s.expires)))
            && r'.challenges[id].answer == answer && r'.challenges[id].mode == mode
            && r'.challenges[id].target == |answer| && r'.challenges[id].progress == ""
            && r'.challenges[id].expiresAt == now + s.expires
            && r'.challenges[id].remaining >= 1
            && (failures < s.maxAttempts ==> r'.challenges[id].remaining + failures == s.maxAttempts)
            && (failures >= s.maxAttempts ==> r'.challenges[id].remaining == 1)
            && forall other | other != id ::
                 (other in r'.challenges <==> other in r.challenges && previous != Some(other))
                 && (other in r'.challenges ==> r'.challenges[other] == r.challenges[other])
  {
  }

  /** Dropping a member's challenge removes what was read as active, and the active key; nothing else. */
  lemma DropLeaves(r: Redis, previous: Option<ChallengeId>)
    ensures var r' := Dropped(r, previous);
            && r' == r.(challenges := r'.challenges, active := None)
            && forall id :: (id in r'.challenges <==> id in r.challenges && previous != Some(id))
                            && (id in r'.challenges ==> r'.challenges[id] == r.challenges[id])
  {
  }

  // ----- runs -----

  /** What was read of a challenge agrees with what is there when the script runs, and with its creation. */
  lemma ReadAgrees(s: Settings, start: Time, steps: seq<Step>, i: nat, readAt: nat, id: ChallengeId)
    requires s.Valid() && readAt <= i < |steps|
    requires SeenAt(Run(s, start, steps), readAt, id).Some? && id in Run(s, start, steps)[i].redis.challenges
    ensures var trace := Run(s, start, steps);
            var seen, now := SeenAt(trace, readAt, id).value, trace[i].redis.challenges[id];
            && seen.answer == now.answer && seen.mode == now.mode
            && BirthOf(trace[..i + 1], id).Some? && BirthOf(trace[..i + 1], id).value.answer == now.answer
  {
    var trace := Run(s, start, steps);
    RunFate(s, start, steps, i, id);
    RunFate(s, start, steps, readAt, id);
    assert trace[..i + 1][..readAt + 1] == trace[..readAt + 1];
    assert trace[..i + 1][readAt] == trace[readAt];
    SeenAgrees(trace[..i + 1], readAt, id);
    hide Run, LiveFate, Legal, BirthOf, Counted, Acknowledged;
  }

  /**
   Whatever others do: an answer that read a live challenge and meets it live is a success if and only if it is
   the answer the challenge was created with, in every mode; else it costs the challenge exactly one attempt.
   */
  lemma RightAnswersSucceed(s: Settings, start: Time, steps: seq<Step>, i: nat)
    requires s.Valid() && i < |steps| && steps[i].Answer? && steps[i].readAt <= i
    requires var trace, step := Run(s, start, steps), steps[i];
             && step.at >= trace[i].now && SeenAt(trace, step.readAt, step.id).Some?
             && step.id in trace[i].redis.challenges && step.at < trace[i].redis.challenges[step.id].expiresAt
    ensures var trace, step := Run(s, start, steps), steps[i];
            var birth := BirthOf(trace[..i + 1], step.id);
            && birth.Some? && trace[i + 1].note.Reported? && trace[i + 1].note.id == step.id
            && (trace[i + 1].note.outcome == Success <==> Submitted(step.answer) == birth.value.answer)
            && if trace[i + 1].note.outcome == Success
               then UsedUp(trace[i].redis, trace[i + 1].redis, step.id, step.at)
               else AttemptLost(trace[i].redis, trace[i + 1].redis, s, step.id, step.at,
                                trace[i].redis.challenges[step.id].mode == ButtonSequence, trace[i + 1].note.outcome)
  {
    var trace, step := Run(s, start, steps), steps[i];
    ReadAgrees(s, start, steps, i, step.readAt, step.id);
    StepOf(s, start, steps, i);
    hide Run;
    var seen := SeenAt(trace, step.readAt, step.id);
    assert SeenAt(trace[..i + 1], step.readAt, step.id) == seen;
    hide SeenAt, BirthOf;
    AnswerDecides(trace[i].redis, s, step.id, seen, step.answer, step.at);
    hide Verify, UsedUp, AttemptLost, Submitted;
  }
}
