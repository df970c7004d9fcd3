/**
 The verification challenges of one member of one guild.  Every Lua script and every transaction of
 the store is one atomic step on the Redis keys; a key with an expiry is dead from that instant on.
 */
module Captcha {
  import opened Common

  type ChallengeId = nat

  datatype Mode = ImageText | Arithmetic | ButtonSequence | ModalText

  /** The stored hash is modelled by the answer itself: the keyed hash is taken to be injective. */
  datatype Challenge = Challenge(
    answer: string, mode: Mode, remaining: int, target: nat, progress: string, expiresAt: Time)

  datatype Active = Active(id: ChallengeId, expiresAt: Time)
  datatype Counter = Counter(count: nat, expiresAt: Time)

  datatype Redis = Redis(
    challenges: map<ChallengeId, Challenge>, active: Option<Active>,
    lock: Option<Time>, failures: Option<Counter>, consumed: map<ChallengeId, Time>,
    userRate: Option<Time>, guildRate: Option<Counter>)

  const EMPTY: Redis := Redis(map[], None, None, None, map[], None, None)

  /** Durations in milliseconds; the bounds are those of the configuration schema. */
  datatype Settings = Settings(expires: nat, maxAttempts: nat, lockout: nat, cooldown: nat, guildStarts: nat) {
    predicate Valid() {
      maxAttempts >= 1 && lockout >= 1000 && expires >= 1000
    }
  }

  predicate AliveAt(expiry: Option<Time>, now: Time) {
    expiry.Some? && now < expiry.value
  }

  function Live(r: Redis, id: ChallengeId, now: Time): Option<Challenge> {
    if id in r.challenges && now < r.challenges[id].expiresAt then Some(r.challenges[id]) else None
  }

  function Count(c: Option<Counter>, now: Time): nat {
    if c.Some? && now < c.value.expiresAt then c.value.count else 0
  }

  /** INCR, and EXPIRE when the counter was just created. */
  function Incremented(c: Option<Counter>, now: Time, ttl: nat): Counter {
    if c.Some? && now < c.value.expiresAt then Counter(c.value.count + 1, c.value.expiresAt) else Counter(1, now + ttl)
  }

  datatype Outcome =
    | Success
    | Invalid(remaining: int)
    | LockedNow
    | Continue(choice: nat, entered: nat, expected: nat)
    | Contended
    | Replay
    | LockedOut
    | Expired
    | Refused

  // ----- creating a challenge -----

  datatype Admission = Admitted(failures: nat) | Locked | LockedByCounter | RateLimited

  /** The admission script; `lockTtl` is what TTL reports for the lock, in whole seconds. */
  function Admit(r: Redis, s: Settings, lockTtl: nat, now: Time): (Redis, Admission) {
    if lockTtl > 0 then (r, Locked)
    else if Count(r.failures, now) >= s.maxAttempts then (r.(lock := Some(now + s.lockout)), LockedByCounter)
    else if AliveAt(r.userRate, now) then (r, RateLimited)
    else
      var started := r.(userRate := Some(now + s.cooldown), guildRate := Some(Incremented(r.guildRate, now, 60000)));
      if started.guildRate.value.count > s.guildStarts then (started, RateLimited)
         else (started, Admitted(Count(r.failures, now)))
  }

  function InitialAttempts(s: Settings, failures: nat): int {
    if s.maxAttempts - failures > 1 then s.maxAttempts - failures else 1
  }

  /** The member's challenge as a query of the active key returns it. */
  function ActiveId(r: Redis, now: Time): Option<ChallengeId> {
    if r.active.Some? && now < r.active.value.expiresAt then Some(r.active.value.id) else None
  }

  function Without(r: Redis, previous: Option<ChallengeId>): map<ChallengeId, Challenge> {
    if previous.Some? then r.challenges - {previous.value} else r.challenges
  }

  /**
   The transaction that installs a challenge: the one that was read as active goes, the new one and the
   active key come, with one expiry.
   */
  function Install(r: Redis, s: Settings, id: ChallengeId, mode: Mode, answer: string, failures: nat,
      previous: Option<ChallengeId>, now: Time): Redis {
    r.(challenges := Without(r, previous)[id :=
         Challenge(answer, mode, InitialAttempts(s, failures), |answer|, "", now + s.expires)],
       active := Some(Active(id, now + s.expires)))
  }

  // ----- the scripts -----

  /** Does the challenge still carry the hash that was read? */
  predicate Carries(r: Redis, id: ChallengeId, answer: string, now: Time) {
    Live(r, id, now).Some? && Live(r, id, now).value.answer == answer
  }

  function ConsumeSuccess(r: Redis, id: ChallengeId, answer: string, now: Time): Option<Redis> {
    if !Carries(r, id, answer, now) then None
    else Some(r.(challenges := r.challenges - {id}, active := None, consumed := r.consumed[id := now + 600000],
                 failures := None))
  }

  function RecordFailure(r: Redis, s: Settings, id: ChallengeId, answer: string, reset: bool, now: Time): (Redis,
      Outcome) {
    if !Carries(r, id, answer, now) then (r, MissingResult(r, id, now))
    else
      var c := r.challenges[id];
      var remaining := c.remaining - 1;
      var counted := r.(failures := Some(Incremented(r.failures, now, s.lockout)));
      if remaining <= 0 then
        (counted.(challenges := r.challenges - {id}, active := None, lock := Some(now + s.lockout)), LockedNow)
      else
        (counted.(challenges :=
                  r.challenges[id := c.(remaining := remaining, progress := if reset then "" else c.progress)]),
          Invalid(remaining))
  }

  function AppendProgress(r: Redis, id: ChallengeId, answer: string, progress: string, next: string,
      now: Time): Option<Redis> {
    if !Carries(r, id, answer, now) || r.challenges[id].progress != progress then None
    else Some(r.(challenges := r.challenges[id := r.challenges[id].(progress := next)]))
  }

  function MissingResult(r: Redis, id: ChallengeId, now: Time): Outcome {
    if id in r.consumed && now < r.consumed[id] then Replay
    else if AliveAt(r.lock, now) then LockedOut
    else Expired
  }

  // ----- the operations, from the state they read earlier -----

  function Truncated(answer: string): string {
    if |answer| > 64 then answer[..64] else answer
  }

  /** `seen` is the challenge as an earlier query returned it. */
  function Verify(r: Redis, s: Settings, id: ChallengeId, seen: Option<Challenge>, answer: string, now: Time): (Redis,
      Outcome) {
    if seen.None? then (r, MissingResult(r, id, now))
    else if seen.value.answer == Truncated(answer) then
      var consumed := ConsumeSuccess(r, id, seen.value.answer, now);
      if consumed.Some? then (consumed.value, Success) else (r, MissingResult(r, id, now))
    else RecordFailure(r, s, id, seen.value.answer, seen.value.mode.ButtonSequence?, now)
  }

  const SYMBOLS: nat := 5

  function Digit(choice: nat): (d: char)
    requires choice < 10
    ensures '0' <= d <= '9'
  {
    '0' + choice as char
  }

  /** One attempt to append a pressed button; `seenAgain` is what verification reads for a full entry. */
  function Press(r: Redis, s: Settings, id: ChallengeId, seen: Option<Challenge>, seenAgain: Option<Challenge>,
      choice: int, now: Time): (Redis, Outcome) {
    if choice < 0 || choice >= SYMBOLS then (r, Refused)
    else if seen.None? then (r, MissingResult(r, id, now))
    else if !seen.value.mode.ButtonSequence? then RecordFailure(r, s, id, seen.value.answer, true, now)
    else
      var next := seen.value.progress + [Digit(choice)];
      if |next| >= seen.value.target then Verify(r, s, id, seenAgain, next, now)
      else
        var changed := AppendProgress(r, id, seen.value.answer, seen.value.progress, next, now);
        if changed.Some? then (changed.value, Continue(choice, |next|, seen.value.target)) else (r, Contended)
  }

  /** The challenge that was read as active is dropped, and the active key with it. */
  function Dropped(r: Redis, previous: Option<ChallengeId>): Redis {
    r.(challenges := Without(r, previous), active := None)
  }
}
