/** What the onboarding record says at any time: each of its fields is what the last write of that field said. */
module SetupOutcomes {
  import opened Common
  import opened SetupOwnership

  /** The record uses the resource that was reported. */
  predicate InUse(r: Resources, kind: ResourceKind, id: nat) {
    || (kind == VerificationChannel && r.channel == Some(id))
    || (kind == VerifiedRole && r.verifiedRole == Some(id))
    || (kind == UnverifiedRole && r.unverifiedRole == Some(id))
    || (kind == VerificationMessage && r.message == Some(id))
  }

  /**
   A setup begins and settings are edited only under the version they were made for and not while a setup is
   pending; a setup is settled only by the one that is pending; a deletion counts only for what is in use.
   */
  predicate TakesEffect(c: Config, step: Step) {
    match step
    case BeginSetup(expected, _) => c.version == expected && c.health != Pending
    case EditSettings(expected, _) => c.version == expected && c.health != Pending
    case CompleteSetup(result) => c.version == result.pendingVersion && c.health == Pending
    case FailSetup(pendingVersion, _) => c.version == pendingVersion && c.health == Pending
    case ReportDeleted(kind, id) => InUse(c.resources, kind, id)
    case Touch(_) => false
  }

  function HealthSaid(step: Step): Option<Health> {
    match step
    case BeginSetup(_, _) => Some(Pending)
    case CompleteSetup(result) => Some(result.health)
    case FailSetup(_, somethingCreated) => Some(if somethingCreated then Partial else Broken)
    case ReportDeleted(_, _) => Some(Broken)
    case _ => None
  }

  function ModeSaid(step: Step): Option<nat> {
    match step
    case BeginSetup(_, mode) => Some(mode)
    case CompleteSetup(result) => Some(result.mode)
    case EditSettings(_, Verification(mode, _)) => Some(mode)
    case _ => None
  }

  function EnabledSaid(step: Step): Option<bool> {
    match step
    case CompleteSetup(_) => Some(true)
    case EditSettings(_, Basics(enabled, _)) => Some(enabled)
    case _ => None
  }

  function ResourcesSaid(step: Step): Option<Resources> {
    match step
    case CompleteSetup(r) => Some(Resources(Some(r.channel), Some(r.verifiedRole), r.unverifiedRole, Some(r.message)))
    case _ => None
  }

  function SettingsSaid(step: Step): Option<nat> {
    match step
    case EditSettings(_, edit) => Some(edit.settings)
    case _ => None
  }

  function Or<T>(said: Option<T>, otherwise: T): T {
    if said.Some? then said.value else otherwise
  }

  predicate StepWrites(c: Config, step: Step) {
    Execute(c, step)
    == if TakesEffect(c, step)
       then Config(c.version + 1, Or(HealthSaid(step), c.health), Or(ModeSaid(step), c.mode),
                   Or(EnabledSaid(step), c.verificationEnabled), Or(ResourcesSaid(step), c.resources),
                   Or(SettingsSaid(step), c.settings), c.lastActivity)
       else c.(lastActivity := if step.Touch? then step.at else c.lastActivity)
  }

  /** A step that takes effect writes what it says under the next version; others leave all but the activity time. */
  lemma StepWritesExactly(c: Config, step: Step)
    ensures StepWrites(c, step)
  {
  }

  /** What each of the transactions answers: a conflict exactly when it does not take effect. */
  lemma AnswersExactly(c: Config, expected: nat, mode: nat, result: SetupResult, edit: Edit)
    ensures Begin(c, expected, mode) == if TakesEffect(c, BeginSetup(expected, mode))
                                        then Ok(Execute(c, BeginSetup(expected, mode))) else Err(Conflict)
    ensures Complete(c, result) == if TakesEffect(c, CompleteSetup(result))
                                   then Ok(Execute(c, CompleteSetup(result))) else Err(Conflict)
    ensures Update(c, expected, edit) == if TakesEffect(c, EditSettings(expected, edit))
                                         then Ok(Execute(c, EditSettings(expected, edit))) else Err(Conflict)
  {
  }

  // ----- runs -----

  /** Step `i` is the last of the first `n` steps that took effect and said something of the field. */
  ghost predicate LastSaid<T>(steps: seq<Step>, n: nat, said: Step -> Option<T>, i: nat) {
    && i < n <= |steps| && TakesEffect(After(steps, i), steps[i]) && said(steps[i]).Some?
    && forall k | i < k < n :: !(TakesEffect(After(steps, k), steps[k]) && said(steps[k]).Some?)
  }

  ghost predicate NothingSaid<T>(steps: seq<Step>, n: nat, said: Step -> Option<T>) {
    n <= |steps| && forall k | 0 <= k < n :: !(TakesEffect(After(steps, k), steps[k]) && said(steps[k]).Some?)
  }

  /** The field is what was said of it last, or its initial value where nothing was. */
  ghost predicate IsLastSaid<T>(steps: seq<Step>, n: nat, said: Step -> Option<T>, field: Config -> T)
    requires n <= |steps|
  {
    || (NothingSaid(steps, n, said) && field(After(steps, n)) == field(INITIAL))
    || (exists i: nat :: LastSaid(steps, n, said, i) && Some(field(After(steps, n))) == said(steps[i]))
  }

  /** The field changes by what takes effect and says something of it, and by nothing else. */
  ghost predicate SetBy<T(!new)>(said: Step -> Option<T>, field: Config -> T) {
    forall c, step: Step ::
      field(Execute(c, step)) == if TakesEffect(c, step) && said(step).Some? then said(step).value else field(c)
  }

  lemma OneMoreStep<T(!new)>(steps: seq<Step>, n: nat, said: Step -> Option<T>, field: Config -> T)
    requires n < |steps| && IsLastSaid(steps, n, said, field)
    requires var c := After(steps, n);
             field(After(steps, n + 1))
             == if TakesEffect(c, steps[n]) && said(steps[n]).Some? then said(steps[n]).value else field(c)
    ensures IsLastSaid(steps, n + 1, said, field)
  {
    hide Execute, TakesEffect, After;
    if TakesEffect(After(steps, n), steps[n]) && said(steps[n]).Some? {
      assert LastSaid(steps, n + 1, said, n);
    } else if !NothingSaid(steps, n, said) {
      var i: nat :| LastSaid(steps, n, said, i) && Some(field(After(steps, n))) == said(steps[i]);
      assert LastSaid(steps, n + 1, said, i);
    }
  }

  lemma SetByAt<T(!new)>(said: Step -> Option<T>, field: Config -> T, c: Config, step: Step)
    requires SetBy(said, field)
    ensures field(Execute(c, step)) == if TakesEffect(c, step) && said(step).Some? then said(step).value else field(c)
  {
    hide Execute, TakesEffect;
  }

  lemma {:induction false} FieldIsLastSaid<T(!new)>(steps: seq<Step>, n: nat, said: Step -> Option<T>,
      field: Config -> T)
    requires n <= |steps| && SetBy(said, field)
    ensures IsLastSaid(steps, n, said, field)
  {
    hide *;
    if n == 0 {
      NothingSaidYet(steps, said, field);
    } else {
      FieldIsLastSaid(steps, n - 1, said, field);
      AfterOne(steps, n - 1);
      SetByAt(said, field, After(steps, n - 1), steps[n - 1]);
      OneMoreStep(steps, n - 1, said, field);
    }
  }

  lemma NothingSaidYet<T(!new)>(steps: seq<Step>, said: Step -> Option<T>, field: Config -> T)
    ensures IsLastSaid(steps, 0, said, field)
  {
    assert NothingSaid(steps, 0, said);
  }

  lemma AfterOne(steps: seq<Step>, n: nat)
    requires n < |steps|
    ensures After(steps, n + 1) == Execute(After(steps, n), steps[n])
  {
  }

  lemma FieldsAreSet()
    ensures SetBy(HealthSaid, (c: Config) => c.health) && SetBy(ModeSaid, (c: Config) => c.mode)
    ensures SetBy(EnabledSaid, (c: Config) => c.verificationEnabled)
    ensures SetBy(ResourcesSaid, (c: Config) => c.resources) && SetBy(SettingsSaid, (c: Config) => c.settings)
  {
    forall c: Config, step: Step
      ensures StepWrites(c, step)
    {
      StepWritesExactly(c, step);
    }
    hide Execute, TakesEffect, HealthSaid, ModeSaid, EnabledSaid, ResourcesSaid, SettingsSaid;
  }

  /**
   At every moment of every run each field of the record is what the last step that took effect said of it:
   nothing else ever changes the health, the mode, the switch, the resources or the settings.
   */
  lemma RecordIsTheLastWrites(steps: seq<Step>, n: nat)
    requires n <= |steps|
    ensures IsLastSaid(steps, n, HealthSaid, (c: Config) => c.health)
    ensures IsLastSaid(steps, n, ModeSaid, (c: Config) => c.mode)
    ensures IsLastSaid(steps, n, EnabledSaid, (c: Config) => c.verificationEnabled)
    ensures IsLastSaid(steps, n, ResourcesSaid, (c: Config) => c.resources)
    ensures IsLastSaid(steps, n, SettingsSaid, (c: Config) => c.settings)
  {
    FieldsAreSet();
    hide *;
    FieldIsLastSaid(steps, n, HealthSaid, (c: Config) => c.health);
    FieldIsLastSaid(steps, n, ModeSaid, (c: Config) => c.mode);
    FieldIsLastSaid(steps, n, EnabledSaid, (c: Config) => c.verificationEnabled);
    FieldIsLastSaid(steps, n, ResourcesSaid, (c: Config) => c.resources);
    FieldIsLastSaid(steps, n, SettingsSaid, (c: Config) => c.settings);
  }
}
