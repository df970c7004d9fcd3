/** Automatic roles of a member: the plan limit, role checks and the assignment loop. */
module RoleLimits {
  import opened Common

  type RoleId = nat

  datatype AutoRoles = AutoRoles(
    joinHuman: seq<RoleId>, joinBot: seq<RoleId>, verified: seq<RoleId>, screening: seq<RoleId>,
    continueOnError: bool, retryFailedAssignments: bool)

  datatype Condition = CaptchaOnly | ScreeningOnly | Either | Both

  datatype Config = Config(
    autoRoleEnabled: bool, verificationEnabled: bool, dedicatedUnverifiedRole: bool,
    unverifiedRole: Option<RoleId>, verifiedRole: Option<RoleId>, condition: Condition, autoRoles: AutoRoles)

  datatype Verification = Verification(captchaVerified: bool, screeningCompleted: bool)

  // ----- the plan limit -----

  function ConfiguredAutoRoleIds(c: AutoRoles): seq<RoleId> {
    Distinct(c.joinHuman + c.joinBot + c.verified + c.screening)
  }

  function Positive(n: int): nat {
    if n < 0 then 0 else n
  }

  function LimitAutoRoleIds(ids: seq<RoleId>, maximum: int): seq<RoleId> {
    var d := Distinct(ids);
    d[..if |d| < Positive(maximum) then |d| else Positive(maximum)]
  }

  /** The automatic roles the plan lets this configuration use. */
  function Allowed(c: AutoRoles, maximum: int): set<RoleId> {
    set id | id in LimitAutoRoleIds(ConfiguredAutoRoleIds(c), maximum)
  }

  function Filtered(ids: seq<RoleId>, allowed: set<RoleId>): (kept: seq<RoleId>)
    ensures forall id :: id in kept <==> id in ids && id in allowed
  {
    if ids == [] then [] else (if ids[0] in allowed then [ids[0]] else []) + Filtered(ids[1..], allowed)
  }

  /** A configuration within the plan is used completely; beyond it, its first roles are. */
  lemma AllowedIsThePlanPrefix(c: AutoRoles, maximum: int)
    ensures |Allowed(c, maximum)| <= Positive(maximum)
    ensures |ConfiguredAutoRoleIds(c)| <= maximum ==> forall id :: id in Allowed(c, maximum) <==>
            id in c.joinHuman + c.joinBot + c.verified + c.screening
    ensures |ConfiguredAutoRoleIds(c)| > maximum ==> |Allowed(c, maximum)| == Positive(maximum)
  {
    var all := c.joinHuman + c.joinBot + c.verified + c.screening;
    var ids := Distinct(all);
    DistinctKeepsExactly(all);
    NothingToRemove(ids);
    var limited := LimitAutoRoleIds(ids, maximum);
    assert NoDuplicates(limited);
    CardinalityOfDistinct(limited);
    if |ids| <= maximum {
      assert limited == ids;
    }
  }

  lemma {:induction false} CardinalityOfDistinct<T>(s: seq<T>)
    requires NoDuplicates(s)
    ensures |set x | x in s| == |s|
  {
    if s != [] {
      var front, last := s[..|s| - 1], s[|s| - 1];
      CardinalityOfDistinct(front);
      assert s == front + [last];
      assert (set x | x in s) == (set x | x in front) + {last};
      assert last !in front;
    } else {
      assert (set x | x in s) == {};
    }
  }

  // ----- which roles an occasion asks for -----

  predicate ConditionSatisfied(condition: Condition, v: Verification) {
    match condition
    case CaptchaOnly => v.captchaVerified
    case ScreeningOnly => v.screeningCompleted
    case Either => v.captchaVerified || v.screeningCompleted
    case Both => v.captchaVerified && v.screeningCompleted
  }

  function OptionalRole(wanted: bool, role: Option<RoleId>): seq<RoleId> {
    if wanted && role.Some? then [role.value] else []
  }

  function JoinRoleIds(c: Config, maximum: int, bot: bool): seq<RoleId> {
    var allowed := Allowed(c.autoRoles, maximum);
    var configured := if !c.autoRoleEnabled then []
      else Filtered(if bot then c.autoRoles.joinBot else c.autoRoles.joinHuman, allowed);
    Distinct(OptionalRole(c.verificationEnabled && c.dedicatedUnverifiedRole, c.unverifiedRole) + configured)
  }

  function ConditionRoleIds(c: Config, maximum: int, v: Verification): seq<RoleId> {
    var allowed := Allowed(c.autoRoles, maximum);
    var satisfied := ConditionSatisfied(c.condition, v);
    Distinct((if v.screeningCompleted && c.autoRoleEnabled then Filtered(c.autoRoles.screening, allowed) else [])
             + OptionalRole(satisfied && c.verificationEnabled, c.verifiedRole)
             + (if satisfied && c.autoRoleEnabled then Filtered(c.autoRoles.verified, allowed) else []))
  }

  function SpecialRoles(c: Config): set<RoleId> {
    (if c.verifiedRole.Some? then {c.verifiedRole.value} else {}) + (if c.unverifiedRole.Some?
                                                                     then {c.unverifiedRole.value} else {})
  }

  /** Whatever the occasion, only allowed automatic roles and the two special roles are asked for, each once. */
  lemma AskedRolesAreAllowed(c: Config, maximum: int, bot: bool, v: Verification)
    ensures NoDuplicates(JoinRoleIds(c, maximum, bot)) && NoDuplicates(ConditionRoleIds(c, maximum, v))
    ensures forall id :: id in JoinRoleIds(c, maximum, bot) ==> id in Allowed(c.autoRoles, maximum) + SpecialRoles(c)
    ensures forall id :: id in ConditionRoleIds(c, maximum, v) ==> id in Allowed(c.autoRoles, maximum) + SpecialRoles(c)
  {
    var allowed := Allowed(c.autoRoles, maximum);
    var satisfied := ConditionSatisfied(c.condition, v);
    DistinctKeepsExactly(OptionalRole(c.verificationEnabled && c.dedicatedUnverifiedRole, c.unverifiedRole)
                         + if !c.autoRoleEnabled then []
                           else Filtered(if bot then c.autoRoles.joinBot else c.autoRoles.joinHuman, allowed));
    DistinctKeepsExactly((if v.screeningCompleted && c.autoRoleEnabled then Filtered(c.autoRoles.screening, allowed)
                          else [])
                         + OptionalRole(satisfied && c.verificationEnabled, c.verifiedRole)
                         + (if satisfied && c.autoRoleEnabled then Filtered(c.autoRoles.verified, allowed) else []));
    hide Allowed, Distinct, Filtered, ConditionSatisfied;
  }

  // ----- one assignment -----

  datatype Role = Role(guild: nat, managed: bool, position: nat)

  datatype Code =
    | CrossGuildRole | EveryoneRole | ManagedRole | BotRoleTooLow | RoleNotFound | DiscordRoleAssignmentFailed

  /** Discord as one occasion meets it: the roles it knows, the bot (position -1 when absent), what it refuses. */
  datatype Discord = Discord(
    guild: nat, roles: map<RoleId, Role>, manageRoles: bool, botPosition: int, refuses: set<RoleId>)

  /** None when the role may be added; the id of the everyone role is the guild's own. */
  function EvaluateRole(id: RoleId, r: Role, guild: nat, botPosition: int): Option<Code> {
    if r.guild != guild then Some(CrossGuildRole)
    else if id == guild then Some(EveryoneRole)
    else if r.managed then Some(ManagedRole)
    else if r.position >= botPosition then Some(BotRoleTooLow)
    else None
  }

  datatype Verdict = AlreadyAssigned | Assigned | Refused(code: Code)

  function VerdictOn(id: RoleId, has: set<RoleId>, d: Discord): Verdict {
    if id in has then AlreadyAssigned
    else if id !in d.roles then Refused(RoleNotFound)
    else
      var decision := EvaluateRole(id, d.roles[id], d.guild, d.botPosition);
      if decision.Some? then Refused(decision.value)
      else if id in d.refuses then Refused(DiscordRoleAssignmentFailed)
      else Assigned
  }

  predicate Breaks(v: Verdict, continueOnError: bool) {
    v == Refused(DiscordRoleAssignmentFailed) && !continueOnError
  }

  /** The verdicts in order, up to and including the one that ends the loop. */
  function Verdicts(ids: seq<RoleId>, has: set<RoleId>, d: Discord, continueOnError: bool): (vs: seq<Verdict>)
    ensures |vs| <= |ids|
  {
    if ids == [] then []
    else
      var v := VerdictOn(ids[0], has, d);
      if Breaks(v, continueOnError) then [v]
      else [v] + Verdicts(ids[1..], if v.Assigned? then has + {ids[0]} else has, d, continueOnError)
  }

  datatype Assignment = Assignment(added: seq<RoleId>, alreadyAssigned: seq<RoleId>, failed: seq<(RoleId, Code)>)

  function Recorded(a: Assignment, id: RoleId, v: Verdict): Assignment {
    match v
    case AlreadyAssigned => a.(alreadyAssigned := a.alreadyAssigned + [id])
    case Assigned => a.(added := a.added + [id])
    case Refused(code) => a.(failed := a.failed + [(id, code)])
  }

  function Record(ids: seq<RoleId>, vs: seq<Verdict>): Assignment
    requires |vs| <= |ids|
    decreases |vs|
  {
    if vs == [] then Assignment([], [], [])
    else Recorded(Record(ids, vs[..|vs| - 1]), ids[|vs| - 1], vs[|vs| - 1])
  }

  function FailedIds(failed: seq<(RoleId, Code)>): seq<RoleId> {
    if failed == [] then [] else FailedIds(failed[..|failed| - 1]) + [failed[|failed| - 1].0]
  }

  function Members(ids: seq<RoleId>): set<RoleId> {
    set id | id in ids
  }

  /** The ids an assignment mentions, with multiplicity. */
  function Mentioned(a: Assignment): multiset<RoleId> {
    multiset(a.added) + multiset(a.alreadyAssigned) + multiset(FailedIds(a.failed))
  }

  lemma RecordedMentions(a: Assignment, id: RoleId, v: Verdict)
    ensures Mentioned(Recorded(a, id, v)) == Mentioned(a) + multiset{id}
  {
    match v
    case AlreadyAssigned =>
      assert multiset(a.alreadyAssigned + [id]) == multiset(a.alreadyAssigned) + multiset{id};
    case Assigned =>
      assert multiset(a.added + [id]) == multiset(a.added) + multiset{id};
    case Refused(code) =>
      assert (a.failed + [(id, code)])[..|a.failed|] == a.failed;
      assert multiset(FailedIds(a.failed) + [id]) == multiset(FailedIds(a.failed)) + multiset{id};
  }

  /** Every processed id is recorded exactly once, in one of the three lists. */
  lemma {:induction false} RecordedExactlyOnce(ids: seq<RoleId>, vs: seq<Verdict>)
    requires |vs| <= |ids|
    ensures Mentioned(Record(ids, vs)) == multiset(ids[..|vs|])
    decreases |vs|
  {
    if vs != [] {
      var n := |vs| - 1;
      RecordedExactlyOnce(ids, vs[..n]);
      RecordedMentions(Record(ids, vs[..n]), ids[n], vs[n]);
      hide Mentioned, Recorded;
      assert ids[..|vs|] == ids[..n] + [ids[n]];
    } else {
      assert ids[..0] == [];
    }
  }

  /** All ids are processed when the configuration continues on errors; otherwise up to the first refusal by Discord. */
  lemma {:induction false} ProcessedPrefix(ids: seq<RoleId>, has: set<RoleId>, d: Discord, continueOnError: bool)
    ensures var vs := Verdicts(ids, has, d, continueOnError);
            && (continueOnError ==> |vs| == |ids|)
            && (forall i :: 0 <= i < |vs| - 1 ==> !Breaks(vs[i], continueOnError))
            && (|vs| < |ids| ==> |vs| > 0 && Breaks(vs[|vs| - 1], continueOnError))
    decreases |ids|
  {
    if ids != [] {
      var v := VerdictOn(ids[0], has, d);
      if !Breaks(v, continueOnError) {
        ProcessedPrefix(ids[1..], if v.Assigned? then has + {ids[0]} else has, d, continueOnError);
      }
    }
  }

  /** Only roles the checks accept are added: of this guild, not everyone, not managed, below the bot. */
  lemma {:induction false} OnlyAcceptedRoles(ids: seq<RoleId>, has: set<RoleId>, d: Discord, continueOnError: bool,
      i: nat)
    requires var vs := Verdicts(ids, has, d, continueOnError); i < |vs| && vs[i].Assigned?
    ensures ids[i] in d.roles && EvaluateRole(ids[i], d.roles[ids[i]], d.guild, d.botPosition).None? && ids[i] !in has
    decreases |ids|
  {
    if i > 0 {
      var v := VerdictOn(ids[0], has, d);
      OnlyAcceptedRoles(ids[1..], if v.Assigned? then has + {ids[0]} else has, d, continueOnError, i - 1);
    }
  }

  lemma VerdictsUnfold(ids: seq<RoleId>, has: set<RoleId>, d: Discord, continueOnError: bool)
    requires ids != []
    ensures var v := VerdictOn(ids[0], has, d);
            Verdicts(ids, has, d, continueOnError)
            == [v] + if Breaks(v, continueOnError) then []
              else Verdicts(ids[1..], if v.Assigned? then has + {ids[0]} else has, d, continueOnError)
  {
  }

  lemma RecordStep(ids: seq<RoleId>, vs: seq<Verdict>, v: Verdict)
    requires |vs| < |ids|
    ensures Record(ids, vs + [v]) == Recorded(Record(ids, vs), ids[|vs|], v)
  {
    assert (vs + [v])[..|vs|] == vs;
  }

  /** One turn of the assignment loop, seen from the verdicts. */
  lemma LoopStep(ids: seq<RoleId>, vs: seq<Verdict>, has: set<RoleId>, d: Discord, continueOnError: bool)
    requires |vs| < |ids|
    ensures var v := VerdictOn(ids[|vs|], has, d);
            && vs + Verdicts(ids[|vs|..], has, d, continueOnError)
               == (vs + [v]) + (if Breaks(v, continueOnError) then []
                                else Verdicts(ids[|vs| + 1..], if v.Assigned? then has + {ids[|vs|]}
                                              else has, d, continueOnError))
            && Record(ids, vs + [v]) == Recorded(Record(ids, vs), ids[|vs|], v)
  {
    var rest, v := ids[|vs|..], VerdictOn(ids[|vs|], has, d);
    VerdictsUnfold(rest, has, d, continueOnError);
    assert rest[0] == ids[|vs|] && rest[1..] == ids[|vs| + 1..];
    RecordStep(ids, vs, v);
    hide Verdicts, VerdictOn, Record, Recorded;
    Associative(vs, [v], if Breaks(v, continueOnError) then []
                else Verdicts(rest[1..], if v.Assigned? then has + {rest[0]} else has, d, continueOnError));
  }

  lemma {:induction false} AssignedAreAsked(ids: seq<RoleId>, vs: seq<Verdict>)
    requires |vs| <= |ids|
    ensures forall id :: id in Record(ids, vs).added ==> id in ids
    decreases |vs|
  {
    if vs != [] {
      AssignedAreAsked(ids, vs[..|vs| - 1]);
    }
  }

  function RolesAfter(has: set<RoleId>, ids: seq<RoleId>, d: Discord, continueOnError: bool): set<RoleId> {
    if ids == [] || !d.manageRoles then has
    else has + Members(Record(ids, Verdicts(ids, has, d, continueOnError)).added)
  }

  /** What the assignment loop reports. */
  function Reported(has: set<RoleId>, ids: seq<RoleId>, d: Discord, continueOnError: bool): Assignment {
    if ids == [] || !d.manageRoles then Assignment([], [], []) else Record(ids, Verdicts(ids, has, d, continueOnError))
  }

  predicate Throws(has: set<RoleId>, ids: seq<RoleId>, c: AutoRoles, d: Discord) {
    ids != [] && (!d.manageRoles
      || (c.retryFailedAssignments && Refused(DiscordRoleAssignmentFailed) in Verdicts(ids, has, d, c.continueOnError)))
  }

  lemma NothingRecorded(ids: seq<RoleId>)
    ensures Record(ids, []) == Assignment([], [], [])
  {
  }

  lemma NoVerdicts(has: set<RoleId>, d: Discord, continueOnError: bool)
    ensures Verdicts([], has, d, continueOnError) == []
  {
  }

  lemma DecisionIsNotDiscords(id: RoleId, d: Discord)
    requires id in d.roles
    ensures EvaluateRole(id, d.roles[id], d.guild, d.botPosition) != Some(DiscordRoleAssignmentFailed)
  {
  }

  // ----- the two occasions -----

  datatype Occasion = Joined(bot: bool) | Evaluated(state: Verification)

  predicate Removable(role: Option<RoleId>, d: Discord) {
    && role.Some? && role.value in d.roles && role.value !in d.refuses
    && EvaluateRole(role.value, d.roles[role.value], d.guild, d.botPosition).None?
  }

  function AfterOccasion(has: set<RoleId>, c: Config, maximum: int, o: Occasion, d: Discord): set<RoleId> {
    match o
    case Joined(bot) => RolesAfter(has, JoinRoleIds(c, maximum, bot), d, c.autoRoles.continueOnError)
    case Evaluated(v) =>
      var ids := ConditionRoleIds(c, maximum, v);
      var after := RolesAfter(has, ids, d, c.autoRoles.continueOnError);
      if !Throws(has, ids, c.autoRoles, d) && ConditionSatisfied(c.condition, v) && Removable(c.unverifiedRole, d)
      then after - {c.unverifiedRole.value} else after
  }

  /** The roles once the assignments of an evaluation are made. */
  function AfterConditions(has: set<RoleId>, c: Config, maximum: int, v: Verification, d: Discord): set<RoleId> {
    RolesAfter(has, ConditionRoleIds(c, maximum, v), d, c.autoRoles.continueOnError)
  }

  /** The removal of the unverified role is attempted. */
  predicate DropsUnverified(after: set<RoleId>, c: Config, v: Verification, d: Discord) {
    && ConditionSatisfied(c.condition, v) && c.unverifiedRole.Some? && c.unverifiedRole.value in after
    && c.unverifiedRole.value in d.roles
    && EvaluateRole(c.unverifiedRole.value, d.roles[c.unverifiedRole.value], d.guild, d.botPosition).None?
  }

  /** The unverified role is still there and the checks do not let the bot remove it. */
  function Undroppable(after: set<RoleId>, c: Config, v: Verification, d: Discord): seq<(RoleId, Code)> {
    if ConditionSatisfied(c.condition, v) && c.unverifiedRole.Some? && c.unverifiedRole.value in after
       && c.unverifiedRole.value in d.roles then
      var decision := EvaluateRole(c.unverifiedRole.value, d.roles[c.unverifiedRole.value], d.guild, d.botPosition);
      if decision.Some? then [(c.unverifiedRole.value, decision.value)] else []
    else []
  }

  predicate EvaluationThrows(has: set<RoleId>, c: Config, maximum: int, v: Verification, d: Discord) {
    || Throws(has, ConditionRoleIds(c, maximum, v), c.autoRoles, d)
    || (DropsUnverified(AfterConditions(has, c, maximum, v, d), c, v, d) && c.unverifiedRole.value in d.refuses)
  }

  function EvaluationReport(has: set<RoleId>, c: Config, maximum: int, v: Verification, d: Discord): Assignment {
    var a := Reported(has, ConditionRoleIds(c, maximum, v), d, c.autoRoles.continueOnError);
    a.(failed := a.failed + Undroppable(AfterConditions(has, c, maximum, v, d), c, v, d))
  }

  lemma {:induction false} NoFailureNoRefusal(ids: seq<RoleId>, vs: seq<Verdict>, i: nat)
    requires i < |vs| <= |ids| && Record(ids, vs).failed == []
    ensures !vs[i].Refused? && (vs[i].Assigned? ==> ids[i] in Record(ids, vs).added)
    decreases |vs|
  {
    var n := |vs| - 1;
    assert Record(ids, vs) == Recorded(Record(ids, vs[..n]), ids[n], vs[n]);
    if i < n {
      NoFailureNoRefusal(ids, vs[..n], i);
    }
  }

  /** A role the loop passes over as held was held before, or added by the loop itself. */
  lemma {:induction false} AlreadyHeld(ids: seq<RoleId>, has: set<RoleId>, d: Discord, continueOnError: bool, i: nat)
    requires var vs := Verdicts(ids, has, d, continueOnError); i < |vs| && vs[i].AlreadyAssigned?
    ensures ids[i] in has || exists j ::
              0 <= j < i && Verdicts(ids, has, d, continueOnError)[j].Assigned? && ids[j] == ids[i]
    decreases |ids|
  {
    var vs := Verdicts(ids, has, d, continueOnError);
    if i > 0 {
      var has' := if vs[0].Assigned? then has + {ids[0]} else has;
      var rest := Verdicts(ids[1..], has', d, continueOnError);
      assert vs == [VerdictOn(ids[0], has, d)] + rest;
      AlreadyHeld(ids[1..], has', d, continueOnError, i - 1);
      hide Verdicts, VerdictOn;
      if ids[i] !in has' {
        var j :| 0 <= j < i - 1 && rest[j].Assigned? && ids[1..][j] == ids[i];
        assert vs[j + 1].Assigned? && ids[j + 1] == ids[i];
      }
    }
  }

  lemma AllRolesHeld(has: set<RoleId>, ids: seq<RoleId>, c: AutoRoles, d: Discord, i: nat)
    requires i < |ids| && !Throws(has, ids, c, d) && Reported(has, ids, d, c.continueOnError).failed == []
    ensures ids[i] in RolesAfter(has, ids, d, c.continueOnError)
  {
    var vs := Verdicts(ids, has, d, c.continueOnError);
    ProcessedPrefix(ids, has, d, c.continueOnError);
    forall j | 0 <= j < |vs|
      ensures !vs[j].Refused? && (vs[j].Assigned? ==> ids[j] in Record(ids, vs).added)
    {
      NoFailureNoRefusal(ids, vs, j);
    }
    if vs[i].AlreadyAssigned? {
      AlreadyHeld(ids, has, d, c.continueOnError, i);
    }
    hide Verdicts, Record;
  }

  /**
   When an evaluation counts the roles as granted, the member has every role the evaluation asked for, and
   the unverified role is gone unless Discord no longer knows it.
   */
  lemma GrantedMeans(has: set<RoleId>, c: Config, maximum: int, v: Verification, d: Discord)
    requires !EvaluationThrows(has, c, maximum, v, d)
    requires ConditionSatisfied(c.condition, v) && EvaluationReport(has, c, maximum, v, d).failed == []
    ensures var now := AfterOccasion(has, c, maximum, Evaluated(v), d);
            && (forall id :: id in ConditionRoleIds(c, maximum, v) && c.unverifiedRole != Some(id) ==> id in now)
            && (c.unverifiedRole.Some? && c.unverifiedRole.value in now ==> c.unverifiedRole.value !in d.roles)
  {
    var ids := ConditionRoleIds(c, maximum, v);
    forall id | id in ids
      ensures id in AfterConditions(has, c, maximum, v, d)
    {
      var i :| 0 <= i < |ids| && ids[i] == id;
      AllRolesHeld(has, ids, c.autoRoles, d, i);
    }
    hide ConditionRoleIds, RolesAfter, EvaluateRole, Reported, ConditionSatisfied, Throws;
  }

  class Member {
    var roles: set<RoleId>

    constructor (roles: set<RoleId>)
      ensures this.roles == roles
    {
      this.roles := roles;
    }

    /** Assign the roles one by one; `threw` when the permission is missing or a refusal is to be retried. */
    method AssignRoles(ids: seq<RoleId>, c: AutoRoles, d: Discord) returns (result: Assignment, threw: bool)
      modifies this
      ensures roles == RolesAfter(old(roles), ids, d, c.continueOnError)
      ensures result == Reported(old(roles), ids, d, c.continueOnError)
      ensures threw == Throws(old(roles), ids, c, d)
    {
      result, threw := Assignment([], [], []), false;
      if ids == [] {
        return;
      }
      if !d.manageRoles {
        threw := true;
        return;
      }
      ghost var before := roles;
      ghost var goal := Verdicts(ids, roles, d, c.continueOnError);
      ghost var vs: seq<Verdict> := [];
      var retryable := false;
      var broken := false;
      var i := 0;
      assert ids[0..] == ids && [] + goal == goal;
      hide Verdicts, Record;
      assert Record(ids, []) == result by { NothingRecorded(ids); }
      while i < |ids| && !broken
        invariant 0 <= i <= |ids| && |vs| == i && result == Record(ids, vs)
        invariant roles == before + Members(result.added)
        invariant goal == vs + (if broken then [] else Verdicts(ids[i..], roles, d, c.continueOnError))
        invariant retryable <==> Refused(DiscordRoleAssignmentFailed) in vs
      {
        var id := ids[i];
        LoopStep(ids, vs, roles, d, c.continueOnError);
        vs := vs + [VerdictOn(id, roles, d)];
        if id in roles {
          result := result.(alreadyAssigned := result.alreadyAssigned + [id]);
        } else if id !in d.roles {
          result := result.(failed := result.failed + [(id, RoleNotFound)]);
        } else {
          var decision := EvaluateRole(id, d.roles[id], d.guild, d.botPosition);
          if decision.Some? {
            DecisionIsNotDiscords(id, d);
            result := result.(failed := result.failed + [(id, decision.value)]);
          } else if id in d.refuses {
            result := result.(failed := result.failed + [(id, DiscordRoleAssignmentFailed)]);
            retryable := true;
            broken := !c.continueOnError;
          } else {
            assert Members(result.added + [id]) == Members(result.added) + {id};
            roles := roles + {id};
            result := result.(added := result.added + [id]);
          }
        }
        hide VerdictOn, EvaluateRole, Members;
        i := i + 1;
      }
      assert goal == vs by {
        NoVerdicts(roles, d, c.continueOnError);
        assert ids[|ids|..] == [] && vs + [] == vs;
      }
      threw := retryable && c.retryFailedAssignments;
    }

    method AssignJoinRoles(c: Config, maximum: int, bot: bool, d: Discord) returns (result: Assignment, threw: bool)
      modifies this
      ensures roles == AfterOccasion(old(roles), c, maximum, Joined(bot), d)
      ensures result == Reported(old(roles), JoinRoleIds(c, maximum, bot), d, c.autoRoles.continueOnError)
      ensures threw == Throws(old(roles), JoinRoleIds(c, maximum, bot), c.autoRoles, d)
    {
      var ids := JoinRoleIds(c, maximum, bot);
      if ids == [] {
        return Assignment([], [], []), false;
      }
      result, threw := AssignRoles(ids, c.autoRoles, d);
    }

    /**
     Assign what the verification state has earned, and drop the unverified role once it is satisfied.
     The roles count as granted when the state is satisfied and the report names no failure.
     */
    method EvaluateMemberConditions(c: Config, maximum: int, v: Verification, d: Discord)
      returns (result: Assignment, removed: bool, granted: bool, threw: bool)
      modifies this
      ensures roles == AfterOccasion(old(roles), c, maximum, Evaluated(v), d)
      ensures threw == EvaluationThrows(old(roles), c, maximum, v, d)
      ensures !threw ==>
                && result == EvaluationReport(old(roles), c, maximum, v, d)
                && removed == DropsUnverified(AfterConditions(old(roles), c, maximum, v, d), c, v, d)
                && granted == (ConditionSatisfied(c.condition, v) && result.failed == [])
    {
      hide Reported, ConditionRoleIds, RolesAfter, Throws, EvaluateRole;
      removed, granted := false, false;
      result, threw := AssignRoles(ConditionRoleIds(c, maximum, v), c.autoRoles, d);
      if threw {
        return;
      }
      var satisfied := ConditionSatisfied(c.condition, v);
      if satisfied && c.unverifiedRole.Some? && c.unverifiedRole.value in roles {
        var id := c.unverifiedRole.value;
        if id in d.roles {
          var decision := EvaluateRole(id, d.roles[id], d.guild, d.botPosition);
          if decision.Some? {
            result := result.(failed := result.failed + [(id, decision.value)]);
          } else if id in d.refuses {
            threw := true;
            return;
          } else {
            roles := roles - {id};
            removed := true;
          }
        }
      }
      granted := satisfied && result.failed == [];
    }
  }

  // ----- a member's life -----

  /** One occasion in a member's life: the roles just before it, what happened, and Discord as it was then. */
  datatype Visit = Visit(before: set<RoleId>, occasion: Occasion, discord: Discord)

  /** The roles one visit added. */
  function AddedBy(c: Config, maximum: int, v: Visit): set<RoleId> {
    AfterOccasion(v.before, c, maximum, v.occasion, v.discord) - v.before
  }

  /** All roles the visits added, whatever others gave or took away in between. */
  function AddedOver(c: Config, maximum: int, life: seq<Visit>): set<RoleId> {
    if life == [] then {} else AddedOver(c, maximum, life[..|life| - 1]) + AddedBy(c, maximum, life[|life| - 1])
  }

  lemma OccasionAddsOnlyAllowed(has: set<RoleId>, c: Config, maximum: int, o: Occasion, d: Discord)
    ensures AfterOccasion(has, c, maximum, o, d) - has <= Allowed(c.autoRoles, maximum) + SpecialRoles(c)
  {
    var bot, v := o.Joined? && o.bot, if o.Evaluated? then o.state else Verification(false, false);
    AskedRolesAreAllowed(c, maximum, bot, v);
    var ids := if o.Joined? then JoinRoleIds(c, maximum, bot) else ConditionRoleIds(c, maximum, v);
    AssignedAreAsked(ids, Verdicts(ids, has, d, c.autoRoles.continueOnError));
    hide Allowed, SpecialRoles, JoinRoleIds, ConditionRoleIds, Verdicts, Record;
  }

  lemma {:induction false} LifeAddsOnlyAllowed(c: Config, maximum: int, life: seq<Visit>)
    ensures AddedOver(c, maximum, life) <= Allowed(c.autoRoles, maximum) + SpecialRoles(c)
  {
    if life != [] {
      var last := life[|life| - 1];
      LifeAddsOnlyAllowed(c, maximum, life[..|life| - 1]);
      OccasionAddsOnlyAllowed(last.before, c, maximum, last.occasion, last.discord);
      hide AfterOccasion, Allowed, SpecialRoles;
    }
  }

  /**
   Under one configuration and plan all occasions of a member's life together, also when the member leaves and
   joins again or others change the roles in between, ever add at most the plan's number of distinct roles,
   besides the verified and the unverified role.
   */
  lemma RolePlanLimit(c: Config, maximum: int, life: seq<Visit>)
    ensures |AddedOver(c, maximum, life) - SpecialRoles(c)| <= Positive(maximum)
  {
    LifeAddsOnlyAllowed(c, maximum, life);
    AllowedIsThePlanPrefix(c.autoRoles, maximum);
    SubsetCardinality(AddedOver(c, maximum, life) - SpecialRoles(c), Allowed(c.autoRoles, maximum));
    hide *;
  }
}
