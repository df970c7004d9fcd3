/** Concrete runs of the captcha store in which creating a challenge is interrupted, or meets a dying lock. */
module CaptchaCases {
  import opened Common
  import opened Captcha
  import opened CaptchaRuns

  /** Three attempts, two minutes to answer, a minute of lockout, eight seconds between creations. */
  const SETTINGS: Settings := Settings(120000, 3, 60000, 8000, 60)

  lemma OneStep(steps: seq<Step>, t: seq<Moment>, step: Step, m: Moment)
    requires t == Run(SETTINGS, 0, steps) && Execute(t, SETTINGS, step) == m
    ensures Run(SETTINGS, 0, steps + [step]) == t + [m]
  {
    assert (steps + [step])[..|steps|] == steps;
  }

  /** Challenge 0, created at once, after `n` wrong answers of which the first came at 100. */
  function AfterWrong(n: nat): Redis {
    Redis(map[0 := Challenge("A", ImageText, 3 - n, 1, "", 120000)], Some(Active(0, 120000)), None,
          if n == 0 then None else Some(Counter(n, 60100)), map[], Some(8000), Some(Counter(1, 60000)))
  }

  const CREATED: seq<Step> := [Step.Start(0, 0)] + [Step.Install(0, ImageText, "A", 1, 1, 0)]

  lemma FirstChallenge()
    ensures Run(SETTINGS, 0, CREATED)
            == [Moment(EMPTY, 0, Nothing)]
              + [Moment(EMPTY.(userRate := Some(8000), guildRate := Some(Counter(1, 60000))), 0, Started(0))]
               + [Moment(AfterWrong(0), 0, Created(0, 3, ImageText, "A", 1))]
  {
    var t0 := [Moment(EMPTY, 0, Nothing)];
    var m1 := Moment(EMPTY.(userRate := Some(8000), guildRate := Some(Counter(1, 60000))), 0, Started(0));
    assert Run(SETTINGS, 0, []) == t0;
    assert TtlReported(None, 0, 0);
    assert Execute(t0, SETTINGS, Step.Start(0, 0)) == m1;
    OneStep([], t0, Step.Start(0, 0), m1);
    assert [] + [Step.Start(0, 0)] == [Step.Start(0, 0)];
    hide Run;
    var step := Step.Install(0, ImageText, "A", 1, 1, 0);
    var t1 := t0 + [m1];
    assert t1[1] == m1 && Installs(t1, step);
    assert Execute(t1, SETTINGS, step) == Moment(AfterWrong(0), 0, Created(0, 3, ImageText, "A", 1));
    OneStep([Step.Start(0, 0)], t1, step, Moment(AfterWrong(0), 0, Created(0, 3, ImageText, "A", 1)));
  }

  /** A wrong answer to challenge 0, read when it was new. */
  lemma WrongAnswer(t: seq<Moment>, n: nat, at: Time)
    requires |t| > 2 && t[2] == Moment(AfterWrong(0), 0, t[2].note)
    requires n < 2 && t[|t| - 1] == Moment(AfterWrong(n), t[|t| - 1].now, t[|t| - 1].note) && t[|t| - 1].now <= at
    requires if n == 0 then at == 100 else 100 <= at < 60100
    ensures Execute(t, SETTINGS, Answer(0, "B", 2, at)) == Moment(AfterWrong(n + 1), at, Reported(0, Invalid(2 - n)))
  {
    assert SeenAt(t, 2, 0) == Some(AfterWrong(0).challenges[0]);
    assert AfterWrong(n).challenges[0 := AfterWrong(n + 1).challenges[0]] == AfterWrong(n + 1).challenges;
  }

  const WRONG_ONCE: seq<Step> := CREATED + [Answer(0, "B", 2, 100)]

  const WRONG_TWICE: seq<Step> := WRONG_ONCE + [Answer(0, "B", 2, 200)]

  lemma TwoWrongAnswers()
    ensures Run(SETTINGS, 0, WRONG_TWICE)
            == Run(SETTINGS, 0, CREATED) + [Moment(AfterWrong(1), 100, Reported(0, Invalid(2)))]
               + [Moment(AfterWrong(2), 200, Reported(0, Invalid(1)))]
  {
    FirstChallenge();
    var t2 := Run(SETTINGS, 0, CREATED);
    hide Run, Execute;
    WrongAnswer(t2, 0, 100);
    var m3, m4 := Moment(AfterWrong(1), 100, Reported(0, Invalid(2))),
      Moment(AfterWrong(2), 200, Reported(0, Invalid(1)));
    OneStep(CREATED, t2, Answer(0, "B", 2, 100), m3);
    WrongAnswer(t2 + [m3], 1, 200);
    OneStep(WRONG_ONCE, t2 + [m3], Answer(0, "B", 2, 200), m4);
  }

  // ----- a lock in its last second -----

  /** Three wrong answers: the counter lives until 60100, the lock until 60300. */
  function LockedState(): Redis {
    Redis(map[], None, Some(60300), Some(Counter(3, 60100)), map[], Some(8000), Some(Counter(1, 60000)))
  }

  const UNTIL_DYING_LOCK: seq<Step> := WRONG_TWICE + [Answer(0, "B", 2, 300)] + [Step.Start(0, 60000)]

  lemma ThirdWrongAnswer(t: seq<Moment>)
    requires |t| > 2 && t[2] == Moment(AfterWrong(0), 0, t[2].note)
    requires t[|t| - 1] == Moment(AfterWrong(2), 200, t[|t| - 1].note)
    ensures Execute(t, SETTINGS, Answer(0, "B", 2, 300)) == Moment(LockedState(), 300, Reported(0, LockedNow))
  {
    assert SeenAt(t, 2, 0) == Some(AfterWrong(0).challenges[0]);
    assert AfterWrong(2).challenges - {0} == map[];
  }

  /**
   A run without any interruption in which the counter branch is taken: the lock has 300 milliseconds
   left and is reported as gone, the counter has 100.
   */
  lemma CounterBranchMeetsDyingLock()
    ensures SETTINGS.Valid()
    ensures var t := Run(SETTINGS, 0, UNTIL_DYING_LOCK);
            t[5].redis == LockedState() && t[6].note == NotStarted(LockedByCounter) && t[6].redis.lock == Some(120000)
  {
    FirstChallenge();
    TwoWrongAnswers();
    var t4 := Run(SETTINGS, 0, WRONG_TWICE);
    hide Run;
    ThirdWrongAnswer(t4);
    var m5, m6 := Moment(LockedState(), 300, Reported(0, LockedNow)),
                  Moment(LockedState().(lock := Some(120000)), 60000, NotStarted(LockedByCounter));
    OneStep(WRONG_TWICE, t4, Answer(0, "B", 2, 300), m5);
    assert TtlReported(Some(60300), 60000, 0);
    assert Execute(t4 + [m5], SETTINGS, Step.Start(0, 60000)) == m6;
    OneStep(WRONG_TWICE + [Answer(0, "B", 2, 300)], t4 + [m5], Step.Start(0, 60000), m6);
  }

  // ----- wrong answers between an admission and its transaction -----

  /** The second creation is admitted at 8000, with nothing counted; two wrong answers come before its transaction. */
  const INTERRUPTED: seq<Step> :=
    CREATED + [Step.Start(0, 8000)] + [Answer(0, "B", 2, 8100)] + [Answer(0, "B", 2, 8200)]
      + [Step.Install(1, ImageText, "A", 3, 3, 8300)]

  function Restarted(r: Redis): Redis {
    r.(userRate := Some(16000), guildRate := Some(Counter(2, 60000)))
  }

  /** Challenge 0 after `n` wrong answers at 8100 and 8200, the second creation under way. */
  function LateWrong(n: nat): Redis {
    Restarted(AfterWrong(0)).(challenges := map[0 := Challenge("A", ImageText, 3 - n, 1, "", 120000)],
                              failures := if n == 0 then None else Some(Counter(n, 68100)))
  }

  /** Two wrong answers are counted, and the new challenge has all three attempts. */
  function Overdrawn(): Redis {
    LateWrong(2).(challenges := map[1 := Challenge("A", ImageText, 3, 1, "", 128300)],
                  active := Some(Active(1, 128300)))
  }

  lemma LateWrongAnswer(t: seq<Moment>, n: nat, at: Time)
    requires |t| > 2 && t[2] == Moment(AfterWrong(0), 0, t[2].note)
    requires n < 2 && t[|t| - 1] == Moment(LateWrong(n), t[|t| - 1].now, t[|t| - 1].note) && t[|t| - 1].now <= at
    requires if n == 0 then at == 8100 else 8100 <= at < 68100
    ensures Execute(t, SETTINGS, Answer(0, "B", 2, at)) == Moment(LateWrong(n + 1), at, Reported(0, Invalid(2 - n)))
  {
    assert SeenAt(t, 2, 0) == Some(AfterWrong(0).challenges[0]);
    assert LateWrong(n).challenges[0 := LateWrong(n + 1).challenges[0]] == LateWrong(n + 1).challenges;
  }

  lemma Interrupted()
    ensures |Run(SETTINGS, 0, INTERRUPTED)| == 7
    ensures Run(SETTINGS, 0, INTERRUPTED)[..3] == Run(SETTINGS, 0, CREATED)
    ensures Run(SETTINGS, 0, INTERRUPTED)[6] == Moment(Overdrawn(), 8300, Created(1, 3, ImageText, "A", 3))
    ensures forall i | 0 <= i < 6 :: Run(SETTINGS, 0, INTERRUPTED)[i].note.Created? ==>
            Run(SETTINGS, 0, INTERRUPTED)[i].note.id == 0
  {
    FirstChallenge();
    var t2 := Run(SETTINGS, 0, CREATED);
    var m3 := Moment(LateWrong(0), 8000, Started(0));
    var m4, m5 := Moment(LateWrong(1), 8100, Reported(0, Invalid(2))),
      Moment(LateWrong(2), 8200, Reported(0, Invalid(1)));
    assert |t2| == 3 && t2[2] == Moment(AfterWrong(0), 0, Created(0, 3, ImageText, "A", 1));
    hide Run;
    SecondStart(t2);
    OneStep(CREATED, t2, Step.Start(0, 8000), m3);
    LateWrongAnswer(t2 + [m3], 0, 8100);
    OneStep(CREATED + [Step.Start(0, 8000)], t2 + [m3], Answer(0, "B", 2, 8100), m4);
    LateWrongAnswer(t2 + [m3] + [m4], 1, 8200);
    OneStep(CREATED + [Step.Start(0, 8000)] + [Answer(0, "B", 2, 8100)], t2 + [m3] + [m4], Answer(0, "B", 2, 8200), m5);
    var t5 := t2 + [m3] + [m4] + [m5];
    LateInstallation(t5);
    OneStep(CREATED + [Step.Start(0, 8000)] + [Answer(0, "B", 2, 8100)] + [Answer(0, "B", 2, 8200)], t5,
            Step.Install(1, ImageText, "A", 3, 3, 8300), Moment(Overdrawn(), 8300, Created(1, 3, ImageText, "A", 3)));
    hide Execute;
  }

  lemma SecondStart(t: seq<Moment>)
    requires |t| > 2 && t[|t| - 1] == Moment(AfterWrong(0), 0, t[|t| - 1].note)
    ensures Execute(t, SETTINGS, Step.Start(0, 8000)) == Moment(LateWrong(0), 8000, Started(0))
  {
    assert TtlReported(None, 8000, 0);
  }

  lemma LateInstallation(t: seq<Moment>)
    requires |t| == 6 && t[3] == Moment(LateWrong(0), 8000, Started(0)) && t[5] == Moment(LateWrong(2), 8200, t[5].note)
    requires forall i | 0 <= i < 6 && t[i].note.Created? :: t[i].note.id == 0 && t[i].note.startedAt == 1
    ensures Execute(t, SETTINGS, Step.Install(1, ImageText, "A", 3, 3, 8300))
            == Moment(Overdrawn(), 8300, Created(1, 3, ImageText, "A", 3))
  {
    assert ActiveAt(t, 3) == Some(0);
    assert Installs(t, Step.Install(1, ImageText, "A", 3, 3, 8300));
    assert (LateWrong(2).challenges - {0})[1 := Overdrawn().challenges[1]] == Overdrawn().challenges;
  }

  /**
   The budget can be overdrawn: two wrong answers arrive between an admission and its transaction, and the
   new challenge starts with all three attempts although two are counted.
   */
  lemma InterruptedCreationOverdraws()
    ensures var m := Run(SETTINGS, 0, INTERRUPTED)[6];
            Live(m.redis, 1, m.now).Some? && m.redis.challenges[1].remaining == 3 && Count(m.redis.failures, m.now) == 2
    ensures !BudgetKeptThroughout(SETTINGS, 0, INTERRUPTED) && !AllInstallCleanly(SETTINGS, 0, INTERRUPTED)
  {
    Interrupted();
    var m := Run(SETTINGS, 0, INTERRUPTED)[6];
    assert Live(m.redis, 1, m.now).Some? && !BudgetKept(m, SETTINGS);
    BudgetKeptExactly(SETTINGS, 0, INTERRUPTED);
    NotKept(SETTINGS, 0, INTERRUPTED, 6);
    hide *;
  }

  lemma NotKept(s: Settings, start: Time, steps: seq<Step>, i: nat)
    requires i <= |steps| && !BudgetKept(Run(s, start, steps)[i], s)
    ensures !BudgetKeptThroughout(s, start, steps)
  {
    hide Run, BudgetKept;
  }

  /** One more wrong answer, to the new challenge: the counter is at the maximum and there is no lock. */
  const UNTIL_UNLOCKED: seq<Step> := INTERRUPTED + [Answer(1, "B", 6, 8400)] + [Step.Start(0, 16000)]

  /**
   What the counter branch is for: after such an interruption the counter reaches the maximum without any
   lock, and the branch refuses the next creation and sets the lock.
   */
  lemma CounterBranchWithoutLock()
    ensures var t := Run(SETTINGS, 0, UNTIL_UNLOCKED);
            t[7].redis.lock == None && Count(t[7].redis.failures, 16000) == 3
            && t[8].note == NotStarted(LockedByCounter) && t[8].redis.lock == Some(76000)
  {
    Interrupted();
    var t6 := Run(SETTINGS, 0, INTERRUPTED);
    var wrong := Overdrawn().(challenges := map[1 := Challenge("A", ImageText, 2, 1, "", 128300)],
                              failures := Some(Counter(3, 68100)));
    var m7 := Moment(wrong, 8400, Reported(1, Invalid(2)));
    var m8 := Moment(wrong.(lock := Some(76000)), 16000, NotStarted(LockedByCounter));
    hide Run;
    assert SeenAt(t6, 6, 1) == Some(Overdrawn().challenges[1]);
    assert Overdrawn().challenges[1 := wrong.challenges[1]] == wrong.challenges;
    assert Execute(t6, SETTINGS, Answer(1, "B", 6, 8400)) == m7;
    OneStep(INTERRUPTED, t6, Answer(1, "B", 6, 8400), m7);
    assert TtlReported(None, 16000, 0);
    assert Execute(t6 + [m7], SETTINGS, Step.Start(0, 16000)) == m8;
    OneStep(INTERRUPTED + [Answer(1, "B", 6, 8400)], t6 + [m7], Step.Start(0, 16000), m8);
  }
}
