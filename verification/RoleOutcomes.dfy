/** Which roles a member ends up with and what is reported of each: the plan, the checks, Discord, the first refusal. */
module RoleOutcomes {
  import opened Common
  import opened RoleLimits

  // ----- which roles are asked for -----

  /** Beyond the plan the first configured roles are used: no unused one was configured before a used one. */
  lemma FirstRolesAreUsed(c: AutoRoles, maximum: int, used: RoleId, unused: RoleId, p: nat, q: nat)
    requires used in Allowed(c, maximum) && unused !in Allowed(c, maximum)
    requires var all := c.joinHuman + c.joinBot + c.verified + c.screening;
             FirstAt(all, used, p) && FirstAt(all, unused, q)
    ensures p < q
  {
    var all := c.joinHuman + c.joinBot + c.verified + c.screening;
    var d := Distinct(all);
    DistinctKeepsExactly(all);
    NothingToRemove(d);
    var limited := LimitAutoRoleIds(d, maximum);
    assert all[q] == unused && unused in d;
    var i :| 0 <= i < |limited| && limited[i] == used;
    var j :| 0 <= j < |d| && d[j] == unused;
    assert d[i] == used;
    assert forall k :: 0 <= k < |limited| ==> limited[k] == d[k] && limited[k] in Allowed(c, maximum);
    DistinctKeepsOrder(all, i, j, p, q);
  }

  /** The member has done what the configuration asks for. */
  predicate Satisfies(condition: Condition, v: Verification) {
    && (condition == CaptchaOnly || condition == Both ==> v.captchaVerified)
    && (condition == ScreeningOnly || condition == Both ==> v.screeningCompleted)
    && (condition == Either ==> v.captchaVerified || v.screeningCompleted)
  }

  /** On joining: the plan's roles for people or bots, and the unverified role where it is used. */
  lemma JoinAsksExactly(c: Config, maximum: int, bot: bool, id: RoleId)
    ensures id in JoinRoleIds(c, maximum, bot) <==>
            || (c.verificationEnabled && c.dedicatedUnverifiedRole && c.unverifiedRole == Some(id))
            || (c.autoRoleEnabled && id in (if bot then c.autoRoles.joinBot else c.autoRoles.joinHuman)
                && id in Allowed(c.autoRoles, maximum))
  {
    var allowed := Allowed(c.autoRoles, maximum);
    DistinctKeepsExactly(OptionalRole(c.verificationEnabled && c.dedicatedUnverifiedRole, c.unverifiedRole)
                         + if !c.autoRoleEnabled then []
                           else Filtered(if bot then c.autoRoles.joinBot else c.autoRoles.joinHuman, allowed));
    hide Allowed, Distinct, Filtered;
  }

  /** On an evaluation: screening roles once screened, and once satisfied the verified role and the verified roles. */
  lemma EvaluationAsksExactly(c: Config, maximum: int, v: Verification, id: RoleId)
    ensures ConditionSatisfied(c.condition, v) == Satisfies(c.condition, v)
    ensures id in ConditionRoleIds(c, maximum, v) <==>
            || (v.screeningCompleted && c.autoRoleEnabled && id in c.autoRoles.screening
                && id in Allowed(c.autoRoles, maximum))
            || (Satisfies(c.condition, v) && c.verificationEnabled && c.verifiedRole == Some(id))
            || (Satisfies(c.condition, v) && c.autoRoleEnabled && id in c.autoRoles.verified
                && id in Allowed(c.autoRoles, maximum))
  {
    var allowed := Allowed(c.autoRoles, maximum);
    var satisfied := ConditionSatisfied(c.condition, v);
    DistinctKeepsExactly((if v.screeningCompleted && c.autoRoleEnabled then Filtered(c.autoRoles.screening, allowed)
                          else [])
                         + OptionalRole(satisfied && c.verificationEnabled, c.verifiedRole)
                         + (if satisfied && c.autoRoleEnabled then Filtered(c.autoRoles.verified, allowed) else []));
    hide Allowed, Distinct, Filtered;
  }

  // ----- what becomes of each role -----

  /** The bot may handle the role: of this guild, not everyone's, not managed by others, below the bot's own. */
  predicate MayHandle(id: RoleId, d: Discord) {
    && id in d.roles && d.roles[id].guild == d.guild && id != d.guild && !d.roles[id].managed
    && d.roles[id].position < d.botPosition
  }

  /** Why a role that is not held is not given; the first reason that applies, None when it is given. */
  predicate Reason(id: RoleId, d: Discord, why: Option<Code>) {
    && (why == Some(RoleNotFound) <==> id !in d.roles)
    && (why == Some(CrossGuildRole) <==> id in d.roles && d.roles[id].guild != d.guild)
    && (why == Some(EveryoneRole) <==> id in d.roles && d.roles[id].guild == d.guild && id == d.guild)
    && (why == Some(ManagedRole) <==>
        id in d.roles && d.roles[id].guild == d.guild && id != d.guild && d.roles[id].managed)
    && (why == Some(BotRoleTooLow) <==>
        id in d.roles && d.roles[id].guild == d.guild && id != d.guild && !d.roles[id].managed
        && d.roles[id].position >= d.botPosition)
    && (why == Some(DiscordRoleAssignmentFailed) <==> MayHandle(id, d) && id in d.refuses)
  }

  lemma ChecksMean(id: RoleId, has: set<RoleId>, d: Discord)
    ensures id in d.roles ==>
              (EvaluateRole(id, d.roles[id], d.guild, d.botPosition).None? <==> MayHandle(id, d))
              && Reason(id, d.(refuses := {}), EvaluateRole(id, d.roles[id], d.guild, d.botPosition))
    ensures var v := VerdictOn(id, has, d);
            && (v == AlreadyAssigned <==> id in has)
            && (v == Assigned <==> id !in has && MayHandle(id, d) && id !in d.refuses)
            && (v.Refused? ==> Reason(id, d, Some(v.code)))
  {
  }

  /** Discord refuses to give the role although the checks let it through. */
  predicate RefusedByDiscord(id: RoleId, has: set<RoleId>, d: Discord) {
    id !in has && MayHandle(id, d) && id in d.refuses
  }

  /** The loop reaches this position: nothing stops it, or nothing before it was refused by Discord. */
  ghost predicate Reached(ids: seq<RoleId>, has: set<RoleId>, d: Discord, continueOnError: bool, i: nat) {
    i < |ids| && (continueOnError || forall j :: 0 <= j < i ==> !RefusedByDiscord(ids[j], has, d))
  }

  lemma {:induction false} VerdictsReach(ids: seq<RoleId>, has: set<RoleId>, d: Discord, continueOnError: bool, i: nat)
    requires i < |ids| && NoDuplicates(ids)
    ensures i < |Verdicts(ids, has, d, continueOnError)| <==> Reached(ids, has, d, continueOnError, i)
    ensures i < |Verdicts(ids, has, d, continueOnError)| ==>
              Verdicts(ids, has, d, continueOnError)[i] == VerdictOn(ids[i], has, d)
    decreases |ids|
  {
    var v := VerdictOn(ids[0], has, d);
    VerdictsUnfold(ids, has, d, continueOnError);
    ChecksMean(ids[0], has, d);
    assert Breaks(v, continueOnError) <==> !continueOnError && RefusedByDiscord(ids[0], has, d);
    if i > 0 && !Breaks(v, continueOnError) {
      var has' := if v.Assigned? then has + {ids[0]} else has;
      VerdictsReach(ids[1..], has', d, continueOnError, i - 1);
      assert forall j :: 0 <= j < i - 1 ==> ids[1..][j] == ids[j + 1] && ids[j + 1] != ids[0];
      hide Verdicts, MayHandle;
      ReachedLater(ids, has, has', d, continueOnError, i);
      assert VerdictOn(ids[i], has', d) == VerdictOn(ids[i], has, d);
    }
  }

  lemma ReachedLater(ids: seq<RoleId>, has: set<RoleId>, has': set<RoleId>, d: Discord, continueOnError: bool, i: nat)
    requires 0 < i < |ids| && NoDuplicates(ids) && (has' == has || has' == has + {ids[0]})
    requires !continueOnError ==> !RefusedByDiscord(ids[0], has, d)
    ensures Reached(ids[1..], has', d, continueOnError, i - 1) <==> Reached(ids, has, d, continueOnError, i)
  {
    hide MayHandle;
    if Reached(ids[1..], has', d, continueOnError, i - 1) && !continueOnError {
      forall j | 0 <= j < i
        ensures !RefusedByDiscord(ids[j], has, d)
      {
        if j > 0 {
          assert ids[1..][j - 1] == ids[j];
        }
      }
    }
    if Reached(ids, has, d, continueOnError, i) && !continueOnError {
      forall j | 0 <= j < i - 1
        ensures !RefusedByDiscord(ids[1..][j], has', d)
      {
        assert ids[1..][j] == ids[j + 1] && ids[j + 1] != ids[0];
      }
    }
  }

  // ----- the report, the member's roles, and when an assignment throws -----

  lemma {:induction false} RecordHas(ids: seq<RoleId>, vs: seq<Verdict>, i: nat, code: Code)
    requires i < |ids| && |vs| <= |ids| && NoDuplicates(ids)
    ensures var a := Record(ids, vs);
            && (ids[i] in a.added <==> i < |vs| && vs[i] == Assigned)
            && (ids[i] in a.alreadyAssigned <==> i < |vs| && vs[i] == AlreadyAssigned)
            && ((ids[i], code) in a.failed <==> i < |vs| && vs[i] == Refused(code))
    decreases |vs|
  {
    if vs != [] {
      var n := |vs| - 1;
      RecordHas(ids, vs[..n], i, code);
      assert i != n ==> ids[i] != ids[n];
    }
  }

  /** What one role of an assignment comes to: added, held already, or failed for a reason; nothing if not reached. */
  lemma ReportExactly(has: set<RoleId>, ids: seq<RoleId>, d: Discord, continueOnError: bool, i: nat, code: Code)
    requires i < |ids| && NoDuplicates(ids)
    ensures var a := Reported(has, ids, d, continueOnError);
            var reached := d.manageRoles && Reached(ids, has, d, continueOnError, i);
            && (ids[i] in a.added <==> reached && ids[i] !in has && MayHandle(ids[i], d) && ids[i] !in d.refuses)
            && (ids[i] in a.alreadyAssigned <==> reached && ids[i] in has)
            && ((ids[i], code) in a.failed <==> reached && ids[i] !in has && Reason(ids[i], d, Some(code)))
  {
    var vs := Verdicts(ids, has, d, continueOnError);
    VerdictsReach(ids, has, d, continueOnError, i);
    RecordHas(ids, vs, i, code);
    ChecksMean(ids[i], has, d);
    ReasonIsOne(ids[i], d);
    hide Verdicts, VerdictOn, Record, Reached;
  }

  /** The list goes through its roles in the order in which they were asked for. */
  ghost predicate OrderedAs(list: seq<RoleId>, ids: seq<RoleId>) {
    && (forall p :: 0 <= p < |list| ==> list[p] in ids)
    && forall p, q :: 0 <= p < q < |list| ==>
       exists i, j :: 0 <= i < j < |ids| && ids[i] == list[p] && ids[j] == list[q]
  }

  lemma OrderedFurther(list: seq<RoleId>, ids: seq<RoleId>, id: RoleId)
    requires OrderedAs(list, ids)
    ensures OrderedAs(list, ids + [id]) && OrderedAs(list + [id], ids + [id])
  {
    var more := ids + [id];
    forall p, q | 0 <= p < q < |list|
      ensures exists i, j :: 0 <= i < j < |more| && more[i] == list[p] && more[j] == list[q]
    {
      var i, j :| 0 <= i < j < |ids| && ids[i] == list[p] && ids[j] == list[q];
      assert more[i] == list[p] && more[j] == list[q];
    }
    forall p | 0 <= p < |list|
      ensures exists i, j :: 0 <= i < j < |more| && more[i] == list[p] && more[j] == id
    {
      var i :| 0 <= i < |ids| && ids[i] == list[p];
      assert more[i] == list[p] && more[|ids|] == id;
    }
  }

  lemma {:induction false} RecordKeepsOrder(ids: seq<RoleId>, vs: seq<Verdict>)
    requires |vs| <= |ids|
    ensures var a, asked := Record(ids, vs), ids[..|vs|];
            OrderedAs(a.added, asked) && OrderedAs(a.alreadyAssigned, asked) && OrderedAs(FailedIds(a.failed), asked)
    decreases |vs|
  {
    if vs != [] {
      var n := |vs| - 1;
      RecordKeepsOrder(ids, vs[..n]);
      var a := Record(ids, vs[..n]);
      hide OrderedAs;
      OrderedFurther(a.added, ids[..n], ids[n]);
      OrderedFurther(a.alreadyAssigned, ids[..n], ids[n]);
      OrderedFurther(FailedIds(a.failed), ids[..n], ids[n]);
      assert ids[..|vs|] == ids[..n] + [ids[n]];
      FailedOneMore(a, ids[n], vs[n]);
    }
  }

  lemma FailedOneMore(a: Assignment, id: RoleId, v: Verdict)
    ensures FailedIds(Recorded(a, id, v).failed) == FailedIds(a.failed) + if v.Refused? then [id] else []
  {
    if v.Refused? {
      assert (a.failed + [(id, v.code)])[..|a.failed|] == a.failed;
    }
  }

  /** Each list of the report is in the order in which the roles were asked for. */
  lemma ReportKeepsOrder(has: set<RoleId>, ids: seq<RoleId>, d: Discord, continueOnError: bool)
    ensures var a := Reported(has, ids, d, continueOnError);
            OrderedAs(a.added, ids) && OrderedAs(a.alreadyAssigned, ids) && OrderedAs(FailedIds(a.failed), ids)
  {
    var vs := Verdicts(ids, has, d, continueOnError);
    RecordKeepsOrder(ids, vs);
    OrderedInAll(Record(ids, vs).added, ids, |vs|);
    OrderedInAll(Record(ids, vs).alreadyAssigned, ids, |vs|);
    OrderedInAll(FailedIds(Record(ids, vs).failed), ids, |vs|);
    hide OrderedAs, Verdicts, Record;
  }

  lemma OrderedInAll(list: seq<RoleId>, ids: seq<RoleId>, n: nat)
    requires n <= |ids| && OrderedAs(list, ids[..n])
    ensures OrderedAs(list, ids)
  {
    assert forall x :: x in ids[..n] ==> x in ids;
    forall p, q | 0 <= p < q < |list|
      ensures exists i, j :: 0 <= i < j < |ids| && ids[i] == list[p] && ids[j] == list[q]
    {
      var i, j :| 0 <= i < j < n && ids[..n][i] == list[p] && ids[..n][j] == list[q];
      assert ids[i] == list[p] && ids[j] == list[q];
    }
  }

  /** There is at most one reason, and none for a role that is given. */
  lemma ReasonIsOne(id: RoleId, d: Discord)
    ensures forall a, b :: Reason(id, d, Some(a)) && Reason(id, d, Some(b)) ==> a == b
    ensures MayHandle(id, d) && id !in d.refuses ==> forall a :: !Reason(id, d, Some(a))
  {
  }

  /** The roles after an assignment: those before it, and those reached that the checks and Discord let through. */
  lemma RolesAfterExactly(has: set<RoleId>, ids: seq<RoleId>, d: Discord, continueOnError: bool, id: RoleId)
    requires NoDuplicates(ids)
    ensures id in RolesAfter(has, ids, d, continueOnError) <==>
            || id in has
            || (&& d.manageRoles && MayHandle(id, d) && id !in d.refuses
                && exists i :: 0 <= i < |ids| && ids[i] == id && Reached(ids, has, d, continueOnError, i))
  {
    hide Record, Verdicts, Reached, MayHandle;
    if id in ids {
      var i :| 0 <= i < |ids| && ids[i] == id;
      ReportExactly(has, ids, d, continueOnError, i, RoleNotFound);
      assert forall j :: 0 <= j < |ids| && ids[j] == id ==> j == i;
    } else if ids != [] && d.manageRoles {
      AssignedAreAsked(ids, Verdicts(ids, has, d, continueOnError));
    }
  }

  /** An assignment throws without the permission, or where a refusal by Discord that was met is to be retried. */
  lemma ThrowsExactly(has: set<RoleId>, ids: seq<RoleId>, c: AutoRoles, d: Discord)
    requires NoDuplicates(ids)
    ensures Throws(has, ids, c, d) <==>
            && ids != []
            && (|| !d.manageRoles
                || (&& c.retryFailedAssignments
                    && exists i ::
                      0 <= i < |ids| && Reached(ids, has, d, c.continueOnError, i) && RefusedByDiscord(ids[i], has, d)))
  {
    var vs := Verdicts(ids, has, d, c.continueOnError);
    forall i | 0 <= i < |ids|
      ensures i < |vs| <==> Reached(ids, has, d, c.continueOnError, i)
      ensures i < |vs| ==> (vs[i] == Refused(DiscordRoleAssignmentFailed) <==> RefusedByDiscord(ids[i], has, d))
    {
      VerdictsReach(ids, has, d, c.continueOnError, i);
      ChecksMean(ids[i], has, d);
      RefusalIsDiscords(ids[i], has, d);
      hide Verdicts, VerdictOn, Reached;
    }
    hide Verdicts, Reached, RefusedByDiscord;
    assert Refused(DiscordRoleAssignmentFailed) in vs <==>
           exists i :: 0 <= i < |vs| && vs[i] == Refused(DiscordRoleAssignmentFailed);
  }

  lemma RefusalIsDiscords(id: RoleId, has: set<RoleId>, d: Discord)
    ensures VerdictOn(id, has, d) == Refused(DiscordRoleAssignmentFailed) <==> RefusedByDiscord(id, has, d)
  {
  }

  // ----- an evaluation -----

  /** The unverified role is dropped, or failed to be, once the member is verified and holds it. */
  predicate HoldsUnverified(after: set<RoleId>, c: Config, v: Verification, d: Discord) {
    Satisfies(c.condition, v) && c.unverifiedRole.Some? && c.unverifiedRole.value in after
    && c.unverifiedRole.value in d.roles
  }

  /**
   An evaluation assigns what was earned; unless that throws it then takes the unverified role away where the bot
   may handle it, reports it as failed where it may not, and throws where Discord refuses.
   */
  lemma EvaluationMeans(has: set<RoleId>, c: Config, maximum: int, v: Verification, d: Discord)
    ensures var ids := ConditionRoleIds(c, maximum, v);
            var after := RolesAfter(has, ids, d, c.autoRoles.continueOnError);
            var threw := Throws(has, ids, c.autoRoles, d);
            var loop := Reported(has, ids, d, c.autoRoles.continueOnError);
            var report := EvaluationReport(has, c, maximum, v, d);
            var drops := HoldsUnverified(after, c, v, d) && MayHandle(c.unverifiedRole.value, d);
            && AfterConditions(has, c, maximum, v, d) == after
            && (DropsUnverified(after, c, v, d) <==> drops)
            && (EvaluationThrows(has, c, maximum, v, d) <==>
                threw || (drops && c.unverifiedRole.value in d.refuses))
            && (AfterOccasion(has, c, maximum, Evaluated(v), d)
                == if !threw && drops && c.unverifiedRole.value !in d.refuses then after - {c.unverifiedRole.value}
                   else after)
            && report.added == loop.added && report.alreadyAssigned == loop.alreadyAssigned
            && (if HoldsUnverified(after, c, v, d) && !MayHandle(c.unverifiedRole.value, d) then
                  exists code :: report.failed == loop.failed + [(c.unverifiedRole.value, code)]
                                 && Reason(c.unverifiedRole.value, d.(refuses := {}), Some(code))
                else report.failed == loop.failed)
  {
    EvaluationAsksExactly(c, maximum, v, 0);
    if c.unverifiedRole.Some? {
      ChecksMean(c.unverifiedRole.value, has, d);
    }
    hide ConditionRoleIds, RolesAfter, Throws, Reported, ConditionSatisfied, Satisfies, EvaluateRole, MayHandle, Reason;
  }
}
