/**
 The onboarding configuration record of one guild and who owns it while a verification setup is
 under way: versioned writes, the PENDING marker, and the background job that settles it.
 */
module SetupOwnership {
  import opened Common

  datatype Health = NotConfigured | Pending | Healthy | Partial | Broken

  datatype ResourceKind = VerificationChannel | VerifiedRole | UnverifiedRole | VerificationMessage

  datatype Resources = Resources(
    channel: Option<nat>, verifiedRole: Option<nat>, unverifiedRole: Option<nat>, message: Option<nat>)
  {
    function Of(kind: ResourceKind): Option<nat> {
      match kind
      case VerificationChannel => channel
      case VerifiedRole => verifiedRole
      case UnverifiedRole => unverifiedRole
      case VerificationMessage => message
    }
  }

  /** `settings` stands for the parts of the record that administrators edit. */
  datatype Config = Config(
    version: nat, health: Health, mode: nat, verificationEnabled: bool, resources: Resources, settings: nat,
      lastActivity: Time)

  const INITIAL: Config := Config(1, NotConfigured, 0, false, Resources(None, None, None, None), 0, 0)

  datatype SetupError = Conflict | NoConfiguration

  datatype SetupResult = SetupResult(
    pendingVersion: nat, mode: nat, channel: nat, verifiedRole: nat, unverifiedRole: Option<nat>, message: nat,
      health: Health)

  function ResourcesOf(r: SetupResult): Resources {
    Resources(Some(r.channel), Some(r.verifiedRole), r.unverifiedRole, Some(r.message))
  }

  // ----- the transactions -----

  function Begin(c: Config, expectedVersion: nat, mode: nat): Result<Config, SetupError> {
    if c.version != expectedVersion || c.health.Pending? then Err(Conflict)
    else Ok(c.(health := Pending, mode := mode, version := c.version + 1))
  }

  function Complete(c: Config, r: SetupResult): Result<Config, SetupError> {
    if c.version != r.pendingVersion || !c.health.Pending? then Err(Conflict)
    else Ok(c.(verificationEnabled := true, mode := r.mode, resources := ResourcesOf(r), health := r.health,
               version := c.version + 1))
  }

  function Fail(c: Config, pendingVersion: nat, partial: bool): Config {
    if c.version != pendingVersion || !c.health.Pending? then c
    else c.(health := if partial then Partial else Broken, version := c.version + 1)
  }

  predicate Uses(c: Config, kind: ResourceKind, id: nat) {
    c.resources.Of(kind) == Some(id)
  }

  function MarkDeleted(c: Config, kind: ResourceKind, id: nat): Config {
    if !Uses(c, kind, id) then c else c.(health := Broken, version := c.version + 1)
  }

  /** What an administrator may change: never the resources, never their health. */
  datatype Edit =
    | Basics(verificationEnabled: bool, settings: nat)
    | Verification(mode: nat, settings: nat)
    | Other(settings: nat)

  function Edited(c: Config, edit: Edit): Config {
    match edit
    case Basics(enabled, settings) => c.(verificationEnabled := enabled, settings := settings, version := c.version + 1)
    case Verification(mode, settings) => c.(mode := mode, settings := settings, version := c.version + 1)
    case Other(settings) => c.(settings := settings, version := c.version + 1)
  }

  function Update(c: Config, expectedVersion: nat, edit: Edit): Result<Config, SetupError> {
    if c.health.Pending? || c.version != expectedVersion then Err(Conflict) else Ok(Edited(c, edit))
  }

  // ----- runs -----

  datatype Step =
    | BeginSetup(expectedVersion: nat, mode: nat)
    | CompleteSetup(result: SetupResult)
    | FailSetup(pendingVersion: nat, partial: bool)
    | ReportDeleted(kind: ResourceKind, id: nat)
    | EditSettings(expectedVersion: nat, edit: Edit)
    | Touch(at: Time)

  predicate ValidStep(step: Step) {
    step.CompleteSetup? ==> step.result.health in {Healthy, Partial, Broken}
  }

  function Execute(c: Config, step: Step): Config {
    match step
    case BeginSetup(expected, mode) => var r := Begin(c, expected, mode); if r.Ok? then r.value else c
    case CompleteSetup(result) => var r := Complete(c, result); if r.Ok? then r.value else c
    case FailSetup(pendingVersion, partial) => Fail(c, pendingVersion, partial)
    case ReportDeleted(kind, id) => MarkDeleted(c, kind, id)
    case EditSettings(expected, edit) => var r := Update(c, expected, edit); if r.Ok? then r.value else c
    case Touch(at) => c.(lastActivity := at)
  }

  /** The record after the first `i` steps. */
  function After(steps: seq<Step>, i: nat): Config
    requires i <= |steps|
  {
    if i == 0 then INITIAL else Execute(After(steps, i - 1), steps[i - 1])
  }

  ghost predicate ValidSteps(steps: seq<Step>) {
    forall i :: 0 <= i < |steps| ==> ValidStep(steps[i])
  }

  /** Step `i` wrote the record under a new version. */
  predicate Wrote(steps: seq<Step>, i: nat)
    requires i < |steps|
  {
    After(steps, i + 1).version != After(steps, i).version
  }

  /** Step `i` settled the setup that is pending at `pendingVersion`. */
  predicate Settled(steps: seq<Step>, i: nat, pendingVersion: nat)
    requires i < |steps|
  {
    && Wrote(steps, i)
    && ((steps[i].CompleteSetup? && steps[i].result.pendingVersion == pendingVersion)
        || (steps[i].FailSetup? && steps[i].pendingVersion == pendingVersion))
  }

  lemma {:induction false} VersionsGrow(steps: seq<Step>, i: nat, j: nat)
    requires i <= j <= |steps|
    ensures After(steps, i).version <= After(steps, j).version
    ensures (exists k :: i <= k < j && Wrote(steps, k)) ==> After(steps, i).version < After(steps, j).version
    decreases j - i
  {
    if i < j {
      VersionsGrow(steps, i, j - 1);
      assert Wrote(steps, j - 1) <==> After(steps, j).version == After(steps, j - 1).version + 1;
    }
  }

  /** A step that does not write a new version leaves everything but the activity time. */
  lemma QuietStep(steps: seq<Step>, i: nat)
    requires i < |steps| && !Wrote(steps, i)
    ensures After(steps, i + 1) == After(steps, i).(lastActivity := After(steps, i + 1).lastActivity)
  {
  }

  /** Step `b` began the setup that is still pending after `n` steps: nothing was written since. */
  ghost predicate PendingSince(steps: seq<Step>, b: nat, n: nat) {
    && b < n <= |steps| && steps[b].BeginSetup? && Wrote(steps, b)
    && After(steps, b + 1).version == After(steps, n).version
    && forall k | b < k < n :: !Wrote(steps, k)
  }

  /** While the record is PENDING its version is that of the last begin, and no other write has happened since. */
  lemma {:induction false} PendingIsOwned(steps: seq<Step>, n: nat) returns (b: nat)
    requires ValidSteps(steps) && n <= |steps| && After(steps, n).health.Pending?
    ensures PendingSince(steps, b, n)
    ensures forall k | b < k < n :: !(steps[k].BeginSetup? && Wrote(steps, k))
  {
    assert n > 0;
    assert ValidStep(steps[n - 1]);
    if Wrote(steps, n - 1) {
      b := n - 1;
    } else {
      QuietStep(steps, n - 1);
      b := PendingIsOwned(steps, n - 1);
    }
  }

  /** Of all attempts to complete or fail one pending setup at most one takes effect. */
  lemma SettledOnce(steps: seq<Step>, i: nat, j: nat, pendingVersion: nat)
    requires i < |steps| && j < |steps| && Settled(steps, i, pendingVersion) && Settled(steps, j, pendingVersion)
    ensures i == j
  {
    if i < j {
      VersionsGrow(steps, i, j);
    } else if j < i {
      VersionsGrow(steps, j, i);
    }
  }

  /** Once a setup was completed, the job's own failure path leaves the record as it is, whenever it runs. */
  lemma FailureCannotUndoCompletion(steps: seq<Step>, i: nat, n: nat, partial: bool)
    requires i < n <= |steps| && steps[i].CompleteSetup? && Wrote(steps, i)
    ensures Fail(After(steps, n), steps[i].result.pendingVersion, partial) == After(steps, n)
  {
    VersionsGrow(steps, i, n);
  }

  /** After step `i` completed a setup, no step before `n` reported one of its resources as deleted. */
  ghost predicate IntactSince(steps: seq<Step>, i: nat, n: nat)
    requires i < n <= |steps| && steps[i].CompleteSetup?
  {
    forall k | i < k < n && steps[k].ReportDeleted? ::
           ResourcesOf(steps[i].result).Of(steps[k].kind) != Some(steps[k].id)
  }

  ghost predicate HealthySince(steps: seq<Step>, i: nat, n: nat) {
    && i < n <= |steps| && steps[i].CompleteSetup? && Wrote(steps, i) && steps[i].result.health.Healthy?
    && After(steps, n).resources == ResourcesOf(steps[i].result)
    && IntactSince(steps, i, n)
  }

  /**
   A HEALTHY record holds the channel, the verified role and the message of a completed setup, and
   none of its resources has been reported deleted since that completion.
   */
  lemma {:induction false} HealthyIsIntact(steps: seq<Step>, n: nat) returns (i: nat)
    requires ValidSteps(steps) && n <= |steps| && After(steps, n).health.Healthy?
    ensures HealthySince(steps, i, n)
    ensures var r := After(steps, n).resources; r.channel.Some? && r.verifiedRole.Some? && r.message.Some?
  {
    assert n > 0;
    assert ValidStep(steps[n - 1]);
    if steps[n - 1].CompleteSetup? && Wrote(steps, n - 1) {
      i := n - 1;
    } else {
      i := HealthyIsIntact(steps, n - 1);
    }
  }

  // ----- what others do to the record -----

  function Onward(c: Config, steps: seq<Step>): Config {
    if steps == [] then c else Execute(Onward(c, steps[..|steps| - 1]), steps[|steps| - 1])
  }

  /** The record after others' steps; the first of them creates it where it is missing. */
  function Later(record: Option<Config>, steps: seq<Step>): Option<Config> {
    if steps == [] then record else Some(Onward(if record.Some? then record.value else INITIAL, steps))
  }

  function Failed(record: Option<Config>, pendingVersion: nat, partial: bool): Option<Config> {
    if record.Some? then Some(Fail(record.value, pendingVersion, partial)) else None
  }

  predicate OwnedBy(record: Option<Config>, pendingVersion: nat) {
    record.Some? && record.value.version == pendingVersion && record.value.health.Pending?
  }

  /** A version that is not pending any more is never pending again. */
  lemma {:induction false} NeverPendingAgain(c: Config, steps: seq<Step>, pendingVersion: nat)
    requires c.version >= pendingVersion && !OwnedBy(Some(c), pendingVersion)
    ensures Onward(c, steps).version >= pendingVersion && !OwnedBy(Some(Onward(c, steps)), pendingVersion)
  {
    if steps != [] {
      NeverPendingAgain(c, steps[..|steps| - 1], pendingVersion);
    }
  }

  /** The failure path of a job whose setup was settled leaves the record as others left it. */
  lemma FailsNothing(c: Config, steps: seq<Step>, pendingVersion: nat, partial: bool)
    requires c.version >= pendingVersion && !OwnedBy(Some(c), pendingVersion)
    ensures Failed(Later(Some(c), steps), pendingVersion, partial) == Later(Some(c), steps)
  {
    NeverPendingAgain(c, steps, pendingVersion);
    hide Onward;
  }

  // ----- the repository and the setup job -----

  class OnboardingRepository {
    var record: Option<Config>

    constructor ()
      ensures record == None
    {
      record := None;
    }

    method Ensure() returns (c: Config)
      modifies this
      ensures record == Some(c) && c == (if old(record).Some? then old(record).value else INITIAL)
    {
      if record.None? {
        record := Some(INITIAL);
      }
      c := record.value;
    }

    method BeginVerificationSetup(expectedVersion: nat, mode: nat) returns (r: Result<Config, SetupError>)
      modifies this
      ensures var c := if old(record).Some? then old(record).value else INITIAL;
              r == Begin(c, expectedVersion, mode) && record == Some(if r.Ok? then r.value else c)
    {
      var current := Ensure();
      if current.version != expectedVersion || current.health.Pending? {
        return Err(Conflict);
      }
      current := current.(health := Pending, mode := mode, version := current.version + 1);
      record := Some(current);
      r := Ok(current);
    }

    method CompleteVerificationSetup(result: SetupResult) returns (r: Result<Config, SetupError>)
      modifies this
      ensures old(record).None? ==> r == Err(NoConfiguration) && record == None
      ensures old(record).Some? ==>
                r == Complete(old(record).value, result) && record == (if r.Ok? then Some(r.value) else old(record))
    {
      if record.None? {
        return Err(NoConfiguration);
      }
      var current := record.value;
      if current.version != result.pendingVersion || !current.health.Pending? {
        return Err(Conflict);
      }
      current := current.(verificationEnabled := true, mode := result.mode, resources := ResourcesOf(result));
      current := current.(health := result.health, version := current.version + 1);
      record := Some(current);
      r := Ok(current);
    }

    method FailVerificationSetup(pendingVersion: nat, partial: bool)
      modifies this
      ensures record == if old(record).Some? then Some(Fail(old(record).value, pendingVersion, partial)) else None
    {
      if record.None? || record.value.version != pendingVersion || !record.value.health.Pending? {
        return;
      }
      record := Some(record.value.(health := if partial then Partial else Broken, version := record.value.version + 1));
    }

    method MarkVerificationResourceDeleted(kind: ResourceKind, id: nat) returns (changed: bool)
      modifies this
      ensures changed <==> old(record).Some? && Uses(old(record).value, kind, id)
      ensures record == if old(record).Some? then Some(MarkDeleted(old(record).value, kind, id)) else None
    {
      if record.None? {
        return false;
      }
      var current := record.value;
      var matches := (kind.VerificationChannel? && current.resources.channel == Some(id))
                     || (kind.VerifiedRole? && current.resources.verifiedRole == Some(id))
                     || (kind.UnverifiedRole? && current.resources.unverifiedRole == Some(id))
                     || (kind.VerificationMessage? && current.resources.message == Some(id));
      if !matches {
        return false;
      }
      record := Some(current.(health := Broken, version := current.version + 1));
      changed := true;
    }

    method UpdateSettings(expectedVersion: nat, edit: Edit) returns (r: Result<Config, SetupError>)
      modifies this
      ensures var c := if old(record).Some? then old(record).value else INITIAL;
              r == Update(c, expectedVersion, edit) && record == Some(if r.Ok? then r.value else c)
    {
      var current := Ensure();
      if current.health.Pending? || current.version != expectedVersion {
        return Err(Conflict);
      }
      current := Edited(current, edit);
      record := Some(current);
      r := Ok(current);
    }

    /** Others write the record, by any steps. */
    method Others(steps: seq<Step>)
      modifies this
      ensures record == Later(old(record), steps)
    {
      if steps != [] {
        record := Some(Onward(if record.Some? then record.value else INITIAL, steps));
      }
    }

    /**
     The setup job.  `resources` is what it created in Discord, None when that failed; `afterwards` is
     whether everything after the completion (the journal, the migration job, the status) went well.
     Whatever fails, the job's own failure path runs last; `meanwhile` is what others do before it does.
     */
    method SetupVerification(pendingVersion: nat, resources: Option<SetupResult>, createdAny: bool, afterwards: bool,
        meanwhile: seq<Step>)
      returns (ok: bool)
      requires resources.Some? ==> resources.value.pendingVersion == pendingVersion
      modifies this
      ensures ok <==> OwnedBy(old(record), pendingVersion) && resources.Some? && afterwards
      ensures ok ==> record == Some(Complete(old(record).value, resources.value).value)
      ensures !ok && OwnedBy(old(record), pendingVersion) && resources.Some? ==>
                record == Later(Some(Complete(old(record).value, resources.value).value), meanwhile)
      ensures !ok && !OwnedBy(old(record), pendingVersion) && old(record).Some?
              && old(record).value.version >= pendingVersion ==>
                record == Later(old(record), meanwhile)
      ensures resources.None? || !OwnedBy(old(record), pendingVersion) ==>
                record == Failed(Later(old(record), meanwhile), pendingVersion, createdAny)
    {
      ok := resources.Some?;
      if ok {
        var completed := CompleteVerificationSetup(resources.value);
        ok := completed.Ok? && afterwards;
      }
      if !ok {
        ghost var left := record;
        Others(meanwhile);
        if left.Some? && left.value.version >= pendingVersion && !OwnedBy(left, pendingVersion) {
          FailsNothing(left.value, meanwhile, pendingVersion, createdAny);
        }
        FailVerificationSetup(pendingVersion, createdAny);
      }
    }
  }
}
