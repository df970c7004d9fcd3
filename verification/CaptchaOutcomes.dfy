/** The fate of one challenge, whatever the interleaving. */
module CaptchaOutcomes {
  import opened Common
  import opened Captcha
  import opened CaptchaRuns

  /** How a challenge was created: with how many attempts, for which answer. */
  datatype Birth = Birth(attempts: int, mode: Mode, answer: string)

  ghost function BirthOf(trace: seq<Moment>, id: ChallengeId): Option<Birth> {
    if trace == [] then None
    else
      var earlier := BirthOf(trace[..|trace| - 1], id);
      var note := trace[|trace| - 1].note;
      if earlier.Some? then earlier
      else if note.Created? && note.id == id then Some(Birth(note.attempts, note.mode, note.answer))
      else None
  }

  predicate IsCounted(o: Outcome) {
    o.Success? || o.Invalid? || o.LockedNow?
  }

  function Counted1(note: Note, id: ChallengeId): seq<Outcome> {
    if note.Reported? && note.id == id && IsCounted(note.outcome) then [note.outcome] else []
  }

  /** The successes and counted failures reported for a challenge, in order. */
  ghost function Counted(trace: seq<Moment>, id: ChallengeId): seq<Outcome> {
    if trace == [] then [] else Counted(trace[..|trace| - 1], id) + Counted1(trace[|trace| - 1].note, id)
  }

  function Acked1(before: string, note: Note, id: ChallengeId): string {
    if note.Reported? && note.id == id && note.outcome.Continue? && note.outcome.choice < 10
       then before + [Digit(note.outcome.choice)]
    else if note.Reported? && note.id == id && note.outcome.Invalid? then ""
    else before
  }

  /** The presses acknowledged with Continue since the last counted failure. */
  ghost function Acknowledged(trace: seq<Moment>, id: ChallengeId): string {
    if trace == [] then "" else Acked1(Acknowledged(trace[..|trace| - 1], id), trace[|trace| - 1].note, id)
  }

  // ----- legal outcome sequences -----

  /** Failures only, counting down. */
  ghost predicate CountsDown(outs: seq<Outcome>, attempts: int) {
    forall k | 0 <= k < |outs| :: outs[k] == Invalid(attempts - 1 - k) && attempts - 1 - k >= 1
  }

  /** Failures counting down, and then possibly one success or the lock. */
  ghost predicate Legal(outs: seq<Outcome>, attempts: int) {
    || CountsDown(outs, attempts)
    || (&& |outs| > 0 && CountsDown(outs[..|outs| - 1], attempts)
        && (outs[|outs| - 1] == Success || (outs[|outs| - 1] == LockedNow && |outs| == attempts)))
  }

  // ----- what one operation does to one challenge -----

  /** The effect of a reported outcome on the challenge it is about; no other challenge is touched. */
  ghost predicate Effect(r: Redis, r': Redis, id: ChallengeId, at: Time, o: Outcome) {
    && (IsCounted(o) || o.Continue? ==> Live(r, id, at).Some?)
    && (forall other :: other != id ==>
        (other in r'.challenges <==> other in r.challenges)
        && (other in r.challenges ==> r'.challenges[other] == r.challenges[other]))
    && match o
       case Success => id !in r'.challenges
       case LockedNow => r.challenges[id].remaining <= 1 && id !in r'.challenges
       case Invalid(remaining) =>
         && remaining == r.challenges[id].remaining - 1 >= 1 && id in r'.challenges
         && r'.challenges[id] == r.challenges[id].(remaining := remaining, progress := r'.challenges[id].progress)
         && r'.challenges[id].progress == (if r.challenges[id].mode.ButtonSequence? then ""
                                           else r'.challenges[id].progress)
         && (r'.challenges[id].progress == "" || r'.challenges[id].progress == r.challenges[id].progress)
       case Continue(choice, entered, expected) =>
         && choice < SYMBOLS && id in r'.challenges
         && r'.challenges[id] == r.challenges[id].(progress := r.challenges[id].progress + [Digit(choice)])
         && r.challenges[id].mode.ButtonSequence?
         && entered == |r'.challenges[id].progress| < r.challenges[id].target == expected
       case _ => r' == r
  }

  /** What was read agrees with what is stored, as far as it never changes. */
  predicate Agrees(r: Redis, id: ChallengeId, seen: Option<Challenge>) {
    seen.Some? && id in r.challenges ==>
      r.challenges[id].mode == seen.value.mode && r.challenges[id].answer == seen.value.answer
        && r.challenges[id].target == seen.value.target
  }

  lemma VerifyEffect(r: Redis, s: Settings, id: ChallengeId, seen: Option<Challenge>, answer: string, at: Time)
    requires Agrees(r, id, seen)
    ensures var (r', o) := Verify(r, s, id, seen, answer, at); Effect(r, r', id, at, o) && !o.Continue?
  {
  }

  lemma PressEffect(r: Redis, s: Settings, id: ChallengeId, seen: Option<Challenge>, again: Option<Challenge>,
      choice: int, at: Time)
    requires Agrees(r, id, seen) && Agrees(r, id, again)
    ensures var (r', o) := Press(r, s, id, seen, again, choice, at); Effect(r, r', id, at, o)
  {
    if 0 <= choice < SYMBOLS && seen.Some? {
      VerifyEffect(r, s, id, again, seen.value.progress + [Digit(choice)], at);
    }
    hide Verify;
  }

  // ----- the invariant of one challenge -----

  ghost predicate FateSound(trace: seq<Moment>, id: ChallengeId)
    requires |trace| > 0
  {
    var m := trace[|trace| - 1];
    match BirthOf(trace, id)
    case None => id !in m.redis.challenges && Counted(trace, id) == [] && Acknowledged(trace, id) == ""
    case Some(b) =>
      && b.answer != "" && b.attempts >= 1
      && (id in m.redis.challenges ==>
            m.redis.challenges[id].answer == b.answer && m.redis.challenges[id].mode == b.mode
              && m.redis.challenges[id].target == |b.answer|)
      && if Live(m.redis, id, m.now).Some? then
           LiveFate(m.redis.challenges[id], b.attempts, Counted(trace, id), Acknowledged(trace, id))
         else Legal(Counted(trace, id), b.attempts)
  }

  ghost predicate LiveFate(c: Challenge, attempts: int, outs: seq<Outcome>, acknowledged: string) {
    && CountsDown(outs, attempts) && c.remaining == attempts - |outs| >= 1
    && c.progress == acknowledged && |c.progress| < c.target
    && (!c.mode.ButtonSequence? ==> c.progress == "")
  }

  /** A reported outcome carries a live challenge's fate on. */
  lemma LiveFateStep(r: Redis, r': Redis, id: ChallengeId, at: Time, note: Note, attempts: int, outs: seq<Outcome>,
      acknowledged: string)
    requires Live(r, id, at).Some? && LiveFate(r.challenges[id], attempts, outs, acknowledged)
    requires note.Reported? && Effect(r, r', note.id, at, note.outcome)
    ensures var outs' := outs + Counted1(note, id);
            if id in r'.challenges then LiveFate(r'.challenges[id], attempts, outs', Acked1(acknowledged, note, id))
               && Live(r', id, at).Some?
            else Legal(outs', attempts)
  {
    var outs' := outs + Counted1(note, id);
    assert |outs'| > |outs| ==> outs'[..|outs'| - 1] == outs;
  }

  lemma DeadFateStep(r: Redis, r': Redis, id: ChallengeId, at: Time, note: Note)
    requires Live(r, id, at).None?
    requires note.Reported? && Effect(r, r', note.id, at, note.outcome)
    ensures Counted1(note, id) == [] && Acked1("", note, id) == "" && Live(r', id, at).None?
    ensures id !in r.challenges ==> id !in r'.challenges
    ensures forall acknowledged :: Acked1(acknowledged, note, id) == acknowledged
  {
  }

  lemma Unfold(trace: seq<Moment>, m: Moment, id: ChallengeId)
    ensures Counted(trace + [m], id) == Counted(trace, id) + Counted1(m.note, id)
    ensures Acknowledged(trace + [m], id) == Acked1(Acknowledged(trace, id), m.note, id)
    ensures BirthOf(trace, id).Some? ==> BirthOf(trace + [m], id) == BirthOf(trace, id)
    ensures BirthOf(trace, id).None? ==>
              BirthOf(trace + [m], id) == if m.note.Created? && m.note.id == id
                then Some(Birth(m.note.attempts, m.note.mode, m.note.answer)) else None
  {
    assert (trace + [m])[..|trace|] == trace;
  }

  lemma {:induction false} BirthStays(trace: seq<Moment>, i: nat, id: ChallengeId)
    requires i <= |trace| && BirthOf(trace[..i], id).Some?
    ensures BirthOf(trace, id) == BirthOf(trace[..i], id)
    decreases |trace|
  {
    if i < |trace| {
      var front := trace[..|trace| - 1];
      assert front[..i] == trace[..i];
      BirthStays(front, i, id);
      Unfold(front, trace[|trace| - 1], id);
      assert front + [trace[|trace| - 1]] == trace;
    } else {
      assert trace[..i] == trace;
    }
  }

  lemma SeenAgrees(trace: seq<Moment>, i: nat, id: ChallengeId)
    requires i < |trace| && FateSound(trace, id) && FateSound(trace[..i + 1], id)
    ensures Agrees(trace[|trace| - 1].redis, id, SeenAt(trace, i, id))
    ensures BirthOf(trace, id).None? ==> SeenAt(trace, i, id).None?
  {
    var earlier := trace[..i + 1];
    if SeenAt(trace, i, id).Some? {
      assert earlier[|earlier| - 1] == trace[i];
      BirthStays(trace, i + 1, id);
    }
  }

  /** Steps that report nothing: the challenge stays as it is, or disappears. */
  lemma QuietFate(trace: seq<Moment>, m: Moment, id: ChallengeId)
    requires |trace| > 0 && FateSound(trace, id)
    requires !m.note.Reported? && (m.note.Created? ==> m.note.id != id) && trace[|trace| - 1].now <= m.now
    requires var r := trace[|trace| - 1].redis;
             id in m.redis.challenges ==> id in r.challenges && m.redis.challenges[id] == r.challenges[id]
    ensures FateSound(trace + [m], id)
  {
    Unfold(trace, m, id);
    assert Counted(trace, id) + [] == Counted(trace, id);
    hide BirthOf, Counted, Acknowledged, CountsDown;
  }

  lemma BornFate(trace: seq<Moment>, m: Moment, id: ChallengeId)
    requires |trace| > 0 && FateSound(trace, id) && BirthOf(trace, id).None?
    requires m.note.Created? && m.note.id == id && m.note.answer != "" && m.note.attempts >= 1
    requires id in m.redis.challenges && m.now < m.redis.challenges[id].expiresAt
    requires m.redis.challenges[id] == Challenge(m.note.answer, m.note.mode, m.note.attempts, |m.note.answer|, "",
                                                 m.redis.challenges[id].expiresAt)
    ensures FateSound(trace + [m], id)
  {
    Unfold(trace, m, id);
    assert Counted(trace + [m], id) == [];
    hide BirthOf, Counted, Acknowledged;
  }

  lemma ReportedFate(trace: seq<Moment>, m: Moment, id: ChallengeId)
    requires |trace| > 0 && FateSound(trace, id) && trace[|trace| - 1].now <= m.now && m.note.Reported?
    requires Effect(trace[|trace| - 1].redis, m.redis, m.note.id, m.now, m.note.outcome)
    ensures FateSound(trace + [m], id)
  {
    var r := trace[|trace| - 1].redis;
    Unfold(trace, m, id);
    if Live(r, id, m.now).Some? {
      if BirthOf(trace, id).Some? {
        LiveFateStep(r, m.redis, id, m.now, m.note, BirthOf(trace, id).value.attempts, Counted(trace, id),
                     Acknowledged(trace, id));
      }
    } else {
      DeadFateStep(r, m.redis, id, m.now, m.note);
      assert Counted(trace, id) + [] == Counted(trace, id);
      assert id !in r.challenges ==> id !in m.redis.challenges;
    }
    hide BirthOf, Counted, Acknowledged, LiveFate, Legal, CountsDown;
  }

  lemma {:induction false} UnbornIfFresh(trace: seq<Moment>, id: ChallengeId)
    requires forall i :: 0 <= i < |trace| && trace[i].note.Created? ==> trace[i].note.id != id
    ensures BirthOf(trace, id).None?
  {
    if trace != [] {
      UnbornIfFresh(trace[..|trace| - 1], id);
    }
  }

  lemma StepFate(trace: seq<Moment>, s: Settings, step: Step, id: ChallengeId)
    requires s.Valid() && |trace| > 0 && forall k, x | 1 <= k <= |trace| :: FateSound(trace[..k], x)
    ensures FateSound(trace + [Execute(trace, s, step)], id)
  {
    var last := trace[|trace| - 1];
    var m := Execute(trace, s, step);
    assert trace[..|trace|] == trace;
    hide FateSound, Verify, Press, Effect, RecordFailure;
    if m.note.Reported? {
      StepEffect(trace, s, step, m.note.id);
      ReportedFate(trace, m, id);
    } else if m.note.Created? && m.note.id == id {
      UnbornIfFresh(trace, id);
      BornFate(trace, m, id);
    } else {
      QuietFate(trace, m, id);
    }
  }

  lemma StepEffect(trace: seq<Moment>, s: Settings, step: Step, id: ChallengeId)
    requires |trace| > 0 && forall k | 1 <= k <= |trace| :: FateSound(trace[..k], id)
    requires var m := Execute(trace, s, step); m.note.Reported? && m.note.id == id
    ensures var m := Execute(trace, s, step); Effect(trace[|trace| - 1].redis, m.redis, id, m.now, m.note.outcome)
  {
    var r := trace[|trace| - 1].redis;
    assert trace[..|trace|] == trace;
    hide FateSound, Effect, Verify, Press;
    match step
    case Answer(_, answer, readAt, at) =>
      SeenAgrees(trace, readAt, id);
      VerifyEffect(r, s, id, SeenAt(trace, readAt, id), answer, at);
    case PressButton(_, choice, readAt, readAgainAt, at) =>
      SeenAgrees(trace, readAt, id);
      SeenAgrees(trace, readAgainAt, id);
      PressEffect(r, s, id, SeenAt(trace, readAt, id), SeenAt(trace, readAgainAt, id), choice, at);
    case _ =>
  }

  lemma {:induction false} RunFate(s: Settings, start: Time, steps: seq<Step>, i: nat, id: ChallengeId)
    requires s.Valid() && i <= |steps|
    ensures FateSound(Run(s, start, steps)[..i + 1], id)
    decreases |steps|
  {
    hide FateSound, Execute;
    if i < |steps| {
      RunExtends(s, start, steps, i);
      RunFate(s, start, steps[..i], i, id);
      assert Run(s, start, steps)[..i + 1] == Run(s, start, steps[..i])[..i + 1];
    } else if steps == [] {
      FirstFate(s, start, id);
    } else {
      var shorter := steps[..|steps| - 1];
      var trace := Run(s, start, shorter);
      forall k, x | 1 <= k <= |trace|
        ensures FateSound(trace[..k], x)
      {
        RunFate(s, start, shorter, k - 1, x);
      }
      StepFate(trace, s, steps[|steps| - 1], id);
      assert Run(s, start, steps)[..i + 1] == trace + [Execute(trace, s, steps[|steps| - 1])];
    }
  }

  lemma FirstFate(s: Settings, start: Time, id: ChallengeId)
    ensures Run(s, start, [])[..1] == [Moment(EMPTY, start, Nothing)]
    ensures FateSound(Run(s, start, [])[..1], id)
  {
    var first := [Moment(EMPTY, start, Nothing)];
    assert first[..1] == first && first[..0] == [];
  }

  // ----- the theorems -----

  predicate Failure(o: Outcome) {
    o.Invalid? || o.LockedNow?
  }

  /** The counted outcomes of every challenge form a legal sequence for the attempts it was created with. */
  lemma OutcomesAreLegal(s: Settings, start: Time, steps: seq<Step>, id: ChallengeId)
    requires s.Valid() && Counted(Run(s, start, steps), id) != []
    ensures var trace := Run(s, start, steps);
            BirthOf(trace, id).Some? && Legal(Counted(trace, id), BirthOf(trace, id).value.attempts)
  {
    RunFate(s, start, steps, |steps|, id);
    assert Run(s, start, steps)[..|steps| + 1] == Run(s, start, steps);
    hide Run, Counted, BirthOf;
  }

  /**
   One challenge, created with `attempts` attempts, yields: failures that leave strictly decreasing,
   positive numbers of attempts, and then at most one success or the lock, after which nothing more
   is counted.  So there is at most one success and there are at most `attempts` counted failures.
   */
  lemma OutcomesOfOneChallenge(s: Settings, start: Time, steps: seq<Step>, id: ChallengeId, i: nat, j: nat)
    requires s.Valid()
    requires i < j < |Counted(Run(s, start, steps), id)|
    ensures var trace := Run(s, start, steps);
            var outs := Counted(trace, id);
            && BirthOf(trace, id).Some?
            && outs[i].Invalid? && outs[i].remaining == BirthOf(trace, id).value.attempts - 1 - i >= 1
            && (outs[j].Invalid? ==> 1 <= outs[j].remaining < outs[i].remaining)
            && |outs| <= BirthOf(trace, id).value.attempts + (if outs[|outs| - 1].Success? then 1 else 0)
            && (outs[j].LockedNow? ==> j == BirthOf(trace, id).value.attempts - 1)
  {
    OutcomesAreLegal(s, start, steps, id);
    var trace := Run(s, start, steps);
    var outs := Counted(trace, id);
    assert outs[i] == outs[..|outs| - 1][i];
    if j < |outs| - 1 {
      assert outs[j] == outs[..|outs| - 1][j];
    }
    if |outs| > 1 {
      assert outs[|outs| - 2] == outs[..|outs| - 1][|outs| - 2];
    }
    hide Run, Counted, BirthOf;
  }

  /**
   While a challenge is live its stored progress is shorter than the target and is exactly the presses
   acknowledged since the last counted failure, also when presses race.
   */
  lemma ProgressIsAcknowledged(s: Settings, start: Time, steps: seq<Step>, id: ChallengeId)
    requires s.Valid()
    requires var m := Run(s, start, steps)[|steps|]; Live(m.redis, id, m.now).Some?
    ensures var trace := Run(s, start, steps);
            var c := trace[|steps|].redis.challenges[id];
            c.progress == Acknowledged(trace, id) && |c.progress| < c.target == |c.answer|
  {
    RunFate(s, start, steps, |steps|, id);
    var trace := Run(s, start, steps);
    assert trace[..|steps| + 1] == trace;
    hide Run, Acknowledged, BirthOf;
  }
}
