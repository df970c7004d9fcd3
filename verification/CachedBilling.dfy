/** The entitlement read path on top of the billing system: what its callers may rely on. */
module CachedBilling {
  import opened Common
  import opened BillingModel
  import Billing = BillingSteps
  import History = BillingHistory
  import opened CachedReads

  ghost function GuildRows(db: Db, g: GuildId): map<RowKey, Row> {
    map k | k in db.rows && k.guild == g :: db.rows[k]
  }

  ghost function ViewOf(db: Db, g: GuildId): Option<GuildView> {
    if g in db.guildVersion then Some(GuildView(db.guildVersion[g], GuildRows(db, g))) else None
  }

  /** What the guild looked like at every moment of a billing run. */
  ghost function Views(trace: seq<Billing.Moment>, g: GuildId): CachedReads.History {
    seq(|trace|, i requires 0 <= i < |trace| => ViewOf(trace[i].db, g))
  }

  /** Every billing run, with all its writers of rows, keeps the discipline the read path relies on. */
  lemma BillingIsDisciplined(start: Db, steps: seq<Billing.Step>, g: GuildId)
    ensures Disciplined(Views(Billing.Run(start, steps), g))
  {
    var trace := Billing.Run(start, steps);
    var h := Views(trace, g);
    forall a, b | 0 <= a <= b < |h| && h[a].Some? && h[b].Some?
      ensures h[a].value.version <= h[b].value.version
      ensures h[a].value.version == h[b].value.version ==> h[a].value.rows == h[b].value.rows
    {
      History.NothingGoesBack(start, steps, a, b);
      assert History.GuildsEvolve(trace[a].db, trace[b].db);
      hide History.Evolves, Billing.Run, History.SameGuildRows;
      if h[a].value.version == h[b].value.version {
        assert History.SameGuildRows(trace[a].db, trace[b].db, g);
        assert GuildRows(trace[a].db, g) == GuildRows(trace[b].db, g);
      }
    }
  }

  /**
   Whatever the billing system and the readers do, and however their steps interleave: a cached read
   returns nothing, or the guild's entitlement rows at a moment of the billing run inside the call.
   */
  lemma CachedEntitlementsAreLinearizable(
    start: Db, billing: seq<Billing.Step>, g: GuildId, ttl: nat, steps: seq<Step>, c: nat)
    requires var w := RunFrom(Idle(ViewOf(start, g), ttl), steps);
             && w.history == Views(Billing.Run(start, billing), g)
             && c < |w.calls| && w.calls[c].phase.Returned?
    ensures var w := RunFrom(Idle(ViewOf(start, g), ttl), steps);
            var call := w.calls[c];
            ResultOf(call) == map[]
            || exists m: nat, l: nat ::
                 && call.start <= m <= call.phase.finish && m <= |billing| && l < |w.loads|
                 && ValueOf(w.loads[l]) == Some(call.phase.returned)
                 && ResultOf(call) == Visible(GuildRows(Billing.Run(start, billing)[m].db, g), w.loads[l].at)
  {
    var w := RunFrom(Idle(ViewOf(start, g), ttl), steps);
    var call := w.calls[c];
    BillingIsDisciplined(start, billing, g);
    CachedReadIsLinearizable(ViewOf(start, g), ttl, steps, c);
    if ResultOf(call) != map[] {
      var m: nat, l: nat :| call.start <= m <= call.phase.finish && AnswerAt(w, m, l, ResultOf(call))
                            && ValueOf(w.loads[l]) == Some(call.phase.returned);
      assert w.history[m] == ViewOf(Billing.Run(start, billing)[m].db, g);
      assert ResultOf(call) == Visible(GuildRows(Billing.Run(start, billing)[m].db, g), w.loads[l].at);
    }
    hide RunFrom, Billing.Run;
  }

  // ----- why the version must be raised -----

  /** A process commits `view`, and a read of process `p` finds a copy there. */
  ghost function WriteThenRead(w: World, p: Process, view: GuildView, now: Time): World
    requires |w.history| > 0
  {
    var c := |w.calls|;
    Next(Next(Next(Next(w, Transaction(Some(view))), Enter(p)), LookLocal(c)), Check(c, now))
  }

  /**
   The discipline is needed: if one writer commits rows without raising the version, every process
   whose copy is still young answers the next call, begun after that commit, with the old rows.
   */
  lemma UnversionedWriteBreaksReads(w: World, p: Process, view: GuildView, now: Time)
    requires Invariant(w) && p in w.local && view.version == w.local[p].version
             && !Stale(w.local[p], view.version, now, w.ttl)
    ensures var w' := WriteThenRead(w, p, view, now);
            var c := |w.calls|;
            && w'.history == w.history + [Some(view)] && |w'.calls| == c + 1
            && w'.calls[c].phase.Returned? && w'.calls[c].start == |w.history| == w'.calls[c].phase.finish
            && ResultOf(w'.calls[c]) == w.local[p].entitlements
  {
    var c := |w.calls|;
    var w1 := Next(Next(w, Transaction(Some(view))), Enter(p));
    assert w1.calls == w.calls + [Call(p, |w.history|, view.version, false, AtLocal)];
    assert Next(w1, LookLocal(c)).calls[c].phase == Got(w.local[p]);
    hide Visible, Invariant;
  }
}
