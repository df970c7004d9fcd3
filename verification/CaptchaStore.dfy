/** The captcha store as it works: one object over the Redis keys of one member, updated in place. */
module CaptchaService {
  import opened Common
  import opened Captcha

  /** The content of the keys at the three points of one attempt. */
  datatype Rival = Rival(atRead: Redis, atSecondRead: Redis, atScript: Redis)

  function Attempt(s: Settings, id: ChallengeId, choice: int, rival: Rival, now: Time): (Redis, Outcome) {
    Press(rival.atScript, s, id, Live(rival.atRead, id, now), Live(rival.atSecondRead, id, now), choice, now)
  }

  /** The first attempt that is not contended decides; three contended attempts are reported as a replay. */
  function Appended(s: Settings, id: ChallengeId, choice: int, rivals: seq<Rival>, now: Time): (Redis, Outcome)
    requires |rivals| > 0
  {
    var attempt := Attempt(s, id, choice, rivals[0], now);
    if !attempt.1.Contended? then attempt
    else if |rivals| == 1 then (attempt.0, Replay)
    else Appended(s, id, choice, rivals[1..], now)
  }

  /** An attempt is contended exactly when someone else moved the progress between its query and its script. */
  lemma ContendedExactly(s: Settings, id: ChallengeId, choice: int, rival: Rival, now: Time)
    ensures Attempt(s, id, choice, rival, now).1.Contended? <==>
            var seen := Live(rival.atRead, id, now);
            && 0 <= choice < SYMBOLS && seen.Some? && seen.value.mode.ButtonSequence?
               && |seen.value.progress| + 1 < seen.value.target
            && !(Carries(rival.atScript, id, seen.value.answer, now)
                 && rival.atScript.challenges[id].progress == seen.value.progress)
  {
  }

  class CaptchaStore {
    const settings: Settings
    var challenges: map<ChallengeId, Challenge>
    var active: Option<Active>
    var lock: Option<Time>
    var failures: Option<Counter>
    var consumed: map<ChallengeId, Time>
    var userRate: Option<Time>
    var guildRate: Option<Counter>

    ghost function Contents(): Redis
      reads this
    {
      Redis(challenges, active, lock, failures, consumed, userRate, guildRate)
    }

    constructor (settings: Settings)
      ensures Contents() == EMPTY && this.settings == settings
    {
      this.settings := settings;
      challenges, active, lock, failures, consumed, userRate, guildRate := map[], None, None, None, map[], None, None;
    }

    /** Other callers act: the keys now hold `r`. */
    method Become(r: Redis)
      modifies this
      ensures Contents() == r
    {
      challenges, active, lock, failures := r.challenges, r.active, r.lock, r.failures;
      consumed, userRate, guildRate := r.consumed, r.userRate, r.guildRate;
    }

    /** The admission script. */
    method AdmitMember(lockTtl: nat, now: Time) returns (admission: Admission)
      modifies this`lock, this`userRate, this`guildRate
      ensures (Contents(), admission) == Admit(old(Contents()), settings, lockTtl, now)
    {
      if lockTtl > 0 {
        return Locked;
      }
      var counted := Count(failures, now);
      if counted >= settings.maxAttempts {
        lock := Some(now + settings.lockout);
        return LockedByCounter;
      }
      if AliveAt(userRate, now) {
        return RateLimited;
      }
      userRate := Some(now + settings.cooldown);
      guildRate := Some(Incremented(guildRate, now, 60000));
      admission := if guildRate.value.count > settings.guildStarts then RateLimited else Admitted(counted);
    }

    /**
     Create a challenge: admission, the read of the active key, and the transaction that replaces the
     member's challenge.  `atRead` and `atWrite` are what other callers leave in the keys in between.
     */
    method Create(id: ChallengeId, mode: Mode, answer: string, lockTtl: nat, atRead: Redis, atWrite: Redis, now: Time)
      returns (admission: Admission)
      modifies this
      ensures var (r, a) := Admit(old(Contents()), settings, lockTtl, now);
              && admission == a
              && Contents() == if a.Admitted?
                 then Install(atWrite, settings, id, mode, answer, a.failures, ActiveId(atRead, now), now) else r
    {
      admission := AdmitMember(lockTtl, now);
      if !admission.Admitted? {
        return;
      }
      Become(atRead);
      var previous := if active.Some? && now < active.value.expiresAt then Some(active.value.id) else None;
      Become(atWrite);
      if previous.Some? {
        challenges := challenges - {previous.value};
      }
      challenges := challenges[id := Challenge(answer, mode, InitialAttempts(settings, admission.failures), |answer|,
                                               "", now + settings.expires)];
      active := Some(Active(id, now + settings.expires));
    }

    method ConsumeSuccess(id: ChallengeId, answer: string, now: Time) returns (done: bool)
      modifies this
      ensures var r := Captcha.ConsumeSuccess(old(Contents()), id, answer, now);
              done == r.Some? && Contents() == if r.Some? then r.value else old(Contents())
    {
      if id !in challenges || now >= challenges[id].expiresAt || challenges[id].answer != answer {
        return false;
      }
      challenges := challenges - {id};
      active := None;
      consumed := consumed[id := now + 600000];
      failures := None;
      done := true;
    }

    method MissingResult(id: ChallengeId, now: Time) returns (o: Outcome)
      ensures o == Captcha.MissingResult(Contents(), id, now)
    {
      if id in consumed && now < consumed[id] {
        return Replay;
      }
      o := if AliveAt(lock, now) then LockedOut else Expired;
    }

    method RecordFailure(id: ChallengeId, answer: string, reset: bool, now: Time) returns (o: Outcome)
      modifies this
      ensures (Contents(), o) == Captcha.RecordFailure(old(Contents()), settings, id, answer, reset, now)
    {
      if id !in challenges || now >= challenges[id].expiresAt || challenges[id].answer != answer {
        o := MissingResult(id, now);
        return;
      }
      ghost var before := challenges;
      challenges := challenges[id := challenges[id].(remaining := challenges[id].remaining - 1)];
      if reset {
        challenges := challenges[id := challenges[id].(progress := "")];
      }
      failures := Some(Incremented(failures, now, settings.lockout));
      if challenges[id].remaining <= 0 {
        challenges := challenges - {id};
        assert challenges == before - {id};
        active := None;
        lock := Some(now + settings.lockout);
        return LockedNow;
      }
      assert challenges == before[id := challenges[id]];
      o := Invalid(challenges[id].remaining);
    }

    method ReadState(id: ChallengeId, now: Time) returns (seen: Option<Challenge>)
      ensures seen == Live(Contents(), id, now)
    {
      seen := if id in challenges && now < challenges[id].expiresAt then Some(challenges[id]) else None;
    }

    /** Check a submitted answer, already normalized, against the state that was read. */
    method Verify(id: ChallengeId, seen: Option<Challenge>, answer: string, now: Time) returns (o: Outcome)
      modifies this
      ensures (Contents(), o) == Captcha.Verify(old(Contents()), settings, id, seen, answer, now)
      ensures seen.Some? && |answer| <= 64 && id in old(challenges) && now < old(challenges)[id].expiresAt
              && old(challenges)[id].answer == seen.value.answer ==>
                (o == Success <==> answer == old(challenges)[id].answer)
      ensures o == Success ==>
                id !in challenges && active == None && failures == None && lock == old(lock)
                && consumed == old(consumed)[id := now + 600_000]
    {
      if seen.None? {
        o := MissingResult(id, now);
        return;
      }
      if seen.value.answer == Truncated(answer) {
        var done := ConsumeSuccess(id, seen.value.answer, now);
        if done {
          return Success;
        }
        o := MissingResult(id, now);
      } else {
        o := RecordFailure(id, seen.value.answer, seen.value.mode.ButtonSequence?, now);
      }
    }

    method AppendProgress(id: ChallengeId, answer: string, progress: string, next: string,
        now: Time) returns (changed: bool)
      modifies this`challenges
      ensures var r := Captcha.AppendProgress(old(Contents()), id, answer, progress, next, now);
              changed == r.Some? && Contents() == if r.Some? then r.value else old(Contents())
    {
      if id !in challenges || now >= challenges[id].expiresAt || challenges[id].answer != answer
         || challenges[id].progress != progress {
        return false;
      }
      challenges := challenges[id := challenges[id].(progress := next)];
      changed := true;
    }

    /**
     Append a pressed button, in up to three attempts.  `rivals[i]` is what other callers leave in the
     keys at the points of attempt `i` where they can act: before each query and before the script.
     */
    method AppendSequenceChoice(id: ChallengeId, choice: int, rivals: seq<Rival>, now: Time) returns (o: Outcome)
      requires |rivals| == 3
      modifies this
      ensures (Contents(), o) ==
              if choice < 0 || choice >= SYMBOLS then (old(Contents()), Refused)
                 else Appended(settings, id, choice, rivals, now)
    {
      if choice < 0 || choice >= SYMBOLS {
        return Refused;
      }
      var retry := 0;
      while retry < 3
        invariant 0 <= retry <= 3
        invariant retry > 0 ==> Contents() == rivals[retry - 1].atScript
        invariant Appended(settings, id, choice, rivals, now)
                  == if retry < 3 then Appended(settings, id, choice, rivals[retry..], now) else (Contents(), Replay)
      {
        Become(rivals[retry].atRead);
        var seen := ReadState(id, now);
        if seen.None? {
          Become(rivals[retry].atScript);
          o := MissingResult(id, now);
          return;
        }
        if !seen.value.mode.ButtonSequence? {
          Become(rivals[retry].atScript);
          o := RecordFailure(id, seen.value.answer, true, now);
          return;
        }
        var next := seen.value.progress + [Digit(choice)];
        if |next| >= seen.value.target {
          Become(rivals[retry].atSecondRead);
          var seenAgain := ReadState(id, now);
          Become(rivals[retry].atScript);
          o := Verify(id, seenAgain, next, now);
          return;
        }
        Become(rivals[retry].atScript);
        var changed := AppendProgress(id, seen.value.answer, seen.value.progress, next, now);
        if changed {
          return Continue(choice, |next|, seen.value.target);
        }
        retry := retry + 1;
      }
      o := Replay;
    }

    /** Drop the member's challenge; `atDelete` is what other callers leave between the read and the deletion. */
    method InvalidateUser(atDelete: Redis, now: Time)
      modifies this
      ensures Contents() == Dropped(atDelete, ActiveId(old(Contents()), now))
    {
      var previous := if active.Some? && now < active.value.expiresAt then Some(active.value.id) else None;
      Become(atDelete);
      if previous.Some? {
        challenges := challenges - {previous.value};
      }
      active := None;
    }
  }
}
