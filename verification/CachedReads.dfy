/**
 The entitlement read path under concurrency, for one guild: several processes, each with a local
 copy and at most one load under way, share one Redis copy of a snapshot that is read from the
 database in two separate queries.
 */
module CachedReads {
  import opened Common
  import opened BillingModel

  // ----- the database as the read path sees it -----

  /** The guild's entitlement version and its entitlement rows, as committed together. */
  datatype GuildView = GuildView(version: nat, rows: map<RowKey, Row>)

  /** Every committed state of the guild, oldest first; None where the guild does not exist. */
  type History = seq<Option<GuildView>>

  /**
   What the read path relies on: the version never goes back, and whoever changes a row raises the
   version in the same transaction.
   */
  ghost predicate Disciplined(h: History) {
    forall a, b | 0 <= a <= b < |h| && h[a].Some? && h[b].Some? ::
      h[a].value.version <= h[b].value.version
      && (h[a].value.version == h[b].value.version ==> h[a].value.rows == h[b].value.rows)
  }

  predicate VisibleRow(r: Row, at: Time) {
    r.status == RowActive && r.startsAt <= at && OpenAt(r.endsAt, at)
  }

  /** The rows the entitlement query returns at an instant. */
  function Visible(rows: map<RowKey, Row>, at: Time): map<RowKey, Row> {
    map k | k in rows && VisibleRow(rows[k], at) :: rows[k]
  }

  function RowsIn(view: Option<GuildView>): map<RowKey, Row> {
    if view.Some? then view.value.rows else map[]
  }

  /** `b` is the earliest end among the rows, None when none of them ends. */
  ghost predicate IsBoundary(rows: map<RowKey, Row>, b: Option<Time>) {
    && (forall k :: k in rows && rows[k].endsAt.Some? ==> b.Some? && b.value <= rows[k].endsAt.value)
    && (b.Some? ==> exists k :: k in rows && rows[k].endsAt == b)
  }

  datatype Snapshot = Snapshot(version: nat, cachedAt: Time, boundary: Option<Time>, entitlements: map<RowKey, Row>)

  // ----- loads and calls -----

  type Process = nat

  /**
   One run of the loader.  It reads the version, then the rows, then publishes the snapshot in its
   own process, then writes it to Redis.  `versionAt` and `rowsAt` are the moments of the two queries.
   */
  datatype Load = Load(process: Process, ownerVersion: nat, at: Time, versionAt: nat, rowsAt: nat, phase: LoadPhase)

  datatype LoadPhase =
    | Started
    | VersionRead
    | Computed(value: Snapshot)
    | PublishedLocally(value: Snapshot)
    | Stored(value: Snapshot)
    | Settled(value: Snapshot)
    | Broken

  function ValueOf(l: Load): Option<Snapshot> {
    if l.phase.Started? || l.phase.VersionRead? || l.phase.Broken? then None else Some(l.phase.value)
  }

  predicate Running(l: Load) {
    !l.phase.Settled? && !l.phase.Broken?
  }

  /** One call of the read path; it read the guild's version at moment `start`. */
  datatype Call = Call(process: Process, start: nat, version: nat, second: bool, phase: CallPhase)

  datatype CallPhase =
    | AtLocal
    | AtRedis
    | RedisAnswered(reply: Option<Snapshot>)
    | Waiting(load: nat)
    | Got(value: Snapshot)
    | Invalidating
    | Returned(returned: Snapshot, finish: nat)
    | Threw

  /** What a call that returned hands to its caller: nothing when the version is not the one it read. */
  function ResultOf(c: Call): map<RowKey, Row>
    requires c.phase.Returned?
  {
    if c.phase.returned.version != c.version then map[] else c.phase.returned.entitlements
  }

  datatype World = World(
    history: History, ttl: nat,
    local: map<Process, Snapshot>, flight: map<Process, nat>, redis: Option<Snapshot>,
    loads: seq<Load>, calls: seq<Call>)

  datatype Step =
    | Transaction(view: Option<GuildView>)
    | Enter(process: Process)
    | LookLocal(call: nat)
    | AskRedis(call: nat, reachable: bool)
    | HandleAnswer(call: nat, at: Time)
    | ReadVersion(load: nat, now: Time)
    | ReadRows(load: nat, now: Time, boundary: Option<Time>)
    | PublishLocally(load: nat)
    | StoreInRedis(load: nat, reachable: bool)
    | Settle(load: nat)
    | Break(load: nat)
    | Await(call: nat)
    | Check(call: nat, now: Time)
    | DropFromRedis(call: nat, reachable: bool)
    | Evict(process: Process)
    | Flush

  predicate Stale(s: Snapshot, version: nat, now: Time, ttl: nat) {
    s.version != version || (s.boundary.Some? && s.boundary.value <= now) || now - s.cachedAt > ttl
  }

  function WithCall(w: World, c: nat, phase: CallPhase): World
    requires c < |w.calls|
  {
    w.(calls := w.calls[c := w.calls[c].(phase := phase)])
  }

  function WithLoad(w: World, l: nat, load: Load): World
    requires l < |w.loads|
  {
    w.(loads := w.loads[l := load])
  }

  function Now(w: World): nat
    requires |w.history| > 0
  {
    |w.history| - 1
  }

  /** A call's step; a step that does not apply changes nothing. */
  function CallStep(w: World, c: nat, step: Step): World
    requires c < |w.calls| && |w.history| > 0
  {
    var call := w.calls[c];
    match step
    case LookLocal(_) =>
      if !call.phase.AtLocal? then w
      else WithCall(w, c, if call.process in w.local then Got(w.local[call.process]) else AtRedis)
    case AskRedis(_, reachable) =>
      if !call.phase.AtRedis? then w
      else WithCall(w, c, RedisAnswered(if reachable then w.redis else None))
    case HandleAnswer(_, at) =>
      if !call.phase.RedisAnswered? then w
      else if call.phase.reply.Some? then
        WithCall(w, c, Got(call.phase.reply.value)).(local := w.local[call.process := call.phase.reply.value])
      else if call.process in w.flight then WithCall(w, c, Waiting(w.flight[call.process]))
      else
        WithCall(w, c, Waiting(|w.loads|)).(
          loads := w.loads + [Load(call.process, call.version, at, 0, 0, Started)],
          flight := w.flight[call.process := |w.loads|])
    case Await(_) =>
      if !(call.phase.Waiting? && call.phase.load < |w.loads|) then w
      else
        var load := w.loads[call.phase.load];
        if load.phase.Settled? then WithCall(w, c, Got(load.phase.value))
        else if load.phase.Broken? then WithCall(w, c, Threw)
        else w
    case Check(_, now) =>
      if !call.phase.Got? then w
      else if !call.second && Stale(call.phase.value, call.version, now, w.ttl) then
        WithCall(w, c, Invalidating).(local := w.local - {call.process})
      else WithCall(w, c, Returned(call.phase.value, Now(w)))
    case DropFromRedis(_, reachable) =>
      if !call.phase.Invalidating? then w
      else w.(calls := w.calls[c := call.(second := true, phase := AtLocal)],
              redis := if reachable then None else w.redis)
    case _ => w
  }

  /**
   A load's step.  A guild that is gone yields an empty snapshot with the version its caller saw; the
   boundary of a snapshot is the earliest end of its rows.
   */
  ghost function LoadStep(w: World, l: nat, step: Step): World
    requires l < |w.loads| && |w.history| > 0
  {
    var load := w.loads[l];
    match step
    case ReadVersion(_, now) =>
      if !load.phase.Started? then w
      else if w.history[Now(w)].None? then
        WithLoad(w, l, load.(versionAt := Now(w), rowsAt := Now(w),
                             phase := Computed(Snapshot(load.ownerVersion, now, None, map[]))))
      else WithLoad(w, l, load.(versionAt := Now(w), phase := VersionRead))
    case ReadRows(_, now, boundary) =>
      if !(load.phase.VersionRead? && load.versionAt < |w.history| && w.history[load.versionAt].Some?) then w
      else
        var entitlements := Visible(RowsIn(w.history[Now(w)]), load.at);
        if !IsBoundary(entitlements, boundary) then w
        else WithLoad(w, l, load.(rowsAt := Now(w),
          phase := Computed(Snapshot(w.history[load.versionAt].value.version, now, boundary, entitlements))))
    case PublishLocally(_) =>
      if !load.phase.Computed? then w
      else WithLoad(w, l, load.(phase := PublishedLocally(load.phase.value))).(local :=
                                                                               w.local[load.process :=
          load.phase.value])
    case StoreInRedis(_, reachable) =>
      if !load.phase.PublishedLocally? then w
      else WithLoad(w, l, load.(phase := Stored(load.phase.value))).(redis := if reachable then Some(load.phase.value)
                                                                     else w.redis)
    case Settle(_) =>
      if !load.phase.Stored? then w
      else WithLoad(w, l, load.(phase := Settled(load.phase.value))).(flight := w.flight - {load.process})
    case Break(_) =>
      if !(load.phase.Started? || load.phase.VersionRead?) then w
      else WithLoad(w, l, load.(phase := Broken)).(flight := w.flight - {load.process})
    case _ => w
  }

  /** One step of any participant, in any order: Redis may fail, entries may expire at any time. */
  ghost function Next(w: World, step: Step): (w': World)
    requires |w.history| > 0
    ensures w.history <= w'.history
  {
    match step
    case Transaction(view) => w.(history := w.history + [view])
    case Enter(p) =>
      if w.history[Now(w)].None? then w
      else w.(calls := w.calls + [Call(p, Now(w), w.history[Now(w)].value.version, false, AtLocal)])
    case Evict(p) => w.(local := w.local - {p})
    case Flush => w.(redis := None)
    case LookLocal(c) => if c < |w.calls| then CallStep(w, c, step) else w
    case AskRedis(c, _) => if c < |w.calls| then CallStep(w, c, step) else w
    case HandleAnswer(c, _) => if c < |w.calls| then CallStep(w, c, step) else w
    case Await(c) => if c < |w.calls| then CallStep(w, c, step) else w
    case Check(c, _) => if c < |w.calls| then CallStep(w, c, step) else w
    case DropFromRedis(c, _) => if c < |w.calls| then CallStep(w, c, step) else w
    case ReadVersion(l, _) => if l < |w.loads| then LoadStep(w, l, step) else w
    case ReadRows(l, _, _) => if l < |w.loads| then LoadStep(w, l, step) else w
    case PublishLocally(l) => if l < |w.loads| then LoadStep(w, l, step) else w
    case StoreInRedis(l, _) => if l < |w.loads| then LoadStep(w, l, step) else w
    case Settle(l) => if l < |w.loads| then LoadStep(w, l, step) else w
    case Break(l) => if l < |w.loads| then LoadStep(w, l, step) else w
  }

  function Idle(view: Option<GuildView>, ttl: nat): World {
    World([view], ttl, map[], map[], None, [], [])
  }

  ghost function RunFrom(w: World, steps: seq<Step>): (w': World)
    requires |w.history| > 0
    ensures |w'.history| > 0 && w.history <= w'.history
    decreases |steps|
  {
    if steps == [] then w else Next(RunFrom(w, steps[..|steps| - 1]), steps[|steps| - 1])
  }

  // ----- the invariant -----

  /** The two queries of a load, and the snapshot it made of them. */
  ghost predicate LoadFaithful(h: History, l: Load) {
    && (l.phase.VersionRead? ==> l.versionAt < |h| && h[l.versionAt].Some?)
    && (ValueOf(l).Some? ==> Faithful(h, l, ValueOf(l).value))
  }

  ghost predicate Faithful(h: History, l: Load, value: Snapshot) {
    || value.entitlements == map[]
    || (&& l.versionAt <= l.rowsAt < |h| && h[l.versionAt].Some? && h[l.rowsAt].Some?
        && value.version == h[l.versionAt].value.version
        && value.entitlements == Visible(h[l.rowsAt].value.rows, l.at))
  }

  /** Some loader produced this snapshot. */
  ghost predicate Loaded(loads: seq<Load>, value: Snapshot) {
    exists l :: 0 <= l < |loads| && ValueOf(loads[l]) == Some(value)
  }

  ghost predicate CallSound(h: History, loads: seq<Load>, c: Call) {
    && c.start < |h| && h[c.start].Some? && c.version == h[c.start].value.version
    && (c.phase.RedisAnswered? && c.phase.reply.Some? ==> Loaded(loads, c.phase.reply.value))
    && (c.phase.Got? ==> Loaded(loads, c.phase.value))
    && (c.phase.Returned? ==> c.start <= c.phase.finish < |h| && ReturnedInTime(h, loads, c))
  }

  /** The snapshot a call returned comes from a load whose queries both came before the return. */
  ghost predicate ReturnedInTime(h: History, loads: seq<Load>, c: Call)
    requires c.phase.Returned?
  {
    exists l :: 0 <= l < |loads| && ValueOf(loads[l]) == Some(c.phase.returned)
                && (c.phase.returned.entitlements == map[] || loads[l].rowsAt <= c.phase.finish)
  }

  /** Each process has at most one running load, and its flight entry is that load. */
  ghost predicate Flights(w: World) {
    && (forall p :: p in w.flight ==>
        w.flight[p] < |w.loads| && w.loads[w.flight[p]].process == p && Running(w.loads[w.flight[p]]))
    && (forall l :: 0 <= l < |w.loads| && Running(w.loads[l]) ==>
        w.loads[l].process in w.flight && w.flight[w.loads[l].process] == l)
  }

  ghost predicate Copies(w: World) {
    && (forall p :: p in w.local ==> Loaded(w.loads, w.local[p]))
    && (w.redis.Some? ==> Loaded(w.loads, w.redis.value))
  }

  ghost predicate Invariant(w: World) {
    && |w.history| > 0
    && (forall l :: 0 <= l < |w.loads| ==> LoadFaithful(w.history, w.loads[l]))
    && (forall c :: 0 <= c < |w.calls| ==> CallSound(w.history, w.loads, w.calls[c]))
    && Flights(w)
    && Copies(w)
  }

  /** Loads only go forward: a value, once computed, stays, with the moments of its queries. */
  ghost predicate LoadsGrow(a: seq<Load>, b: seq<Load>) {
    |a| <= |b| && forall l :: 0 <= l < |a| && ValueOf(a[l]).Some? ==>
      ValueOf(b[l]) == ValueOf(a[l]) && b[l].rowsAt == a[l].rowsAt
  }

  lemma GrowthKeeps(h: History, h': History, loads: seq<Load>, loads': seq<Load>, w: World)
    requires h <= h' && LoadsGrow(loads, loads') && w.history == h && w.loads == loads
    ensures forall v :: Loaded(loads, v) ==> Loaded(loads', v)
    ensures forall c :: CallSound(h, loads, c) ==> CallSound(h', loads', c)
    ensures Copies(w) ==> Copies(w.(loads := loads'))
  {
    forall v | Loaded(loads, v)
      ensures Loaded(loads', v)
    {
      var l :| 0 <= l < |loads| && ValueOf(loads[l]) == Some(v);
      assert ValueOf(loads'[l]) == Some(v);
    }
    forall c | CallSound(h, loads, c)
      ensures CallSound(h', loads', c)
    {
      if c.phase.Returned? {
        var l :| 0 <= l < |loads| && ValueOf(loads[l]) == Some(c.phase.returned)
                 && (c.phase.returned.entitlements == map[] || loads[l].rowsAt <= c.phase.finish);
        assert ValueOf(loads'[l]) == Some(c.phase.returned) && loads'[l].rowsAt == loads[l].rowsAt;
      }
    }
  }

  lemma CallStepGrows(w: World, c: nat, step: Step)
    requires c < |w.calls| && |w.history| > 0
    ensures var w' := CallStep(w, c, step);
            && w'.history == w.history && LoadsGrow(w.loads, w'.loads) && |w'.calls| == |w.calls|
            && (forall d :: 0 <= d < |w.calls| && d != c ==> w'.calls[d] == w.calls[d])
            && (forall l :: 0 <= l < |w'.loads| ==> if l < |w.loads| then w'.loads[l] == w.loads[l]
                else w'.loads[l].phase.Started?)
  {
  }

  lemma CallStepKeepsFlights(w: World, c: nat, step: Step)
    requires Flights(w) && c < |w.calls| && |w.history| > 0
    ensures Flights(CallStep(w, c, step))
  {
    hide Stale, Visible;
    var w' := CallStep(w, c, step);
    if w'.loads != w.loads {
      assert w'.flight == w.flight[w.calls[c].process := |w.loads|];
    }
  }

  lemma CallStepKeepsCopies(w: World, c: nat, step: Step)
    requires Copies(w) && c < |w.calls| && |w.history| > 0 && CallSound(w.history, w.loads, w.calls[c])
    ensures Copies(CallStep(w, c, step))
  {
    var w' := CallStep(w, c, step);
    CallStepGrows(w, c, step);
    GrowthKeeps(w.history, w'.history, w.loads, w'.loads, w);
    assert w'.redis == w.redis || w'.redis == None;
    assert forall p :: p in w'.local ==> Loaded(w.loads, w'.local[p]);
    hide Loaded, ReturnedInTime, LoadsGrow, CallStep;
  }

  lemma CallStepKeepsCall(w: World, c: nat, step: Step)
    requires Copies(w) && c < |w.calls| && |w.history| > 0 && CallSound(w.history, w.loads, w.calls[c])
    requires forall l :: 0 <= l < |w.loads| ==> LoadFaithful(w.history, w.loads[l])
    ensures var w' := CallStep(w, c, step); CallSound(w.history, w.loads, w'.calls[c])
  {
    var w' := CallStep(w, c, step);
    if step.Check? && w.calls[c].phase.Got? && w'.calls[c].phase.Returned? {
      var value := w.calls[c].phase.value;
      var l :| 0 <= l < |w.loads| && ValueOf(w.loads[l]) == Some(value);
      assert LoadFaithful(w.history, w.loads[l]);
      assert ReturnedInTime(w.history, w.loads, w'.calls[c]);
    }
    hide Visible, ReturnedInTime, LoadFaithful;
  }

  lemma CallStepKeeps(w: World, c: nat, step: Step)
    requires Invariant(w) && c < |w.calls|
    ensures Invariant(CallStep(w, c, step))
  {
    var w' := CallStep(w, c, step);
    CallStepGrows(w, c, step);
    CallStepKeepsFlights(w, c, step);
    CallStepKeepsCopies(w, c, step);
    CallStepKeepsCall(w, c, step);
    GrowthKeeps(w.history, w'.history, w.loads, w'.loads, w);
    hide CallStep, Flights, Copies, CallSound, Loaded, LoadsGrow;
  }

  lemma LoadStepGrows(w: World, l: nat, step: Step)
    requires l < |w.loads| && |w.history| > 0 && LoadFaithful(w.history, w.loads[l])
    ensures var w' := LoadStep(w, l, step);
            && w'.history == w.history && w'.calls == w.calls && LoadsGrow(w.loads, w'.loads) && |w'.loads| == |w.loads|
            && (forall k :: 0 <= k < |w.loads| && k != l ==> w'.loads[k] == w.loads[k])
            && LoadFaithful(w.history, w'.loads[l])
  {
    assert Visible(map[], w.loads[l].at) == map[];
    hide Visible;
  }

  lemma LoadStepKeepsFlights(w: World, l: nat, step: Step)
    requires Flights(w) && l < |w.loads| && |w.history| > 0
    ensures Flights(LoadStep(w, l, step))
  {
    hide Visible;
    var w' := LoadStep(w, l, step);
    assert w'.flight == if Running(w.loads[l]) && !Running(w'.loads[l]) then w.flight - {w.loads[l].process}
           else w.flight;
  }

  lemma LoadStepKeepsCopies(w: World, l: nat, step: Step)
    requires Copies(w) && l < |w.loads| && |w.history| > 0 && LoadFaithful(w.history, w.loads[l])
    ensures Copies(LoadStep(w, l, step))
  {
    var w' := LoadStep(w, l, step);
    LoadStepGrows(w, l, step);
    GrowthKeeps(w.history, w'.history, w.loads, w'.loads, w);
    assert ValueOf(w.loads[l]).Some? ==> Loaded(w.loads, ValueOf(w.loads[l]).value);
    hide Visible, Loaded, ReturnedInTime, LoadsGrow, CallSound;
  }

  lemma LoadStepKeeps(w: World, l: nat, step: Step)
    requires Invariant(w) && l < |w.loads|
    ensures Invariant(LoadStep(w, l, step))
  {
    var w' := LoadStep(w, l, step);
    LoadStepGrows(w, l, step);
    LoadStepKeepsFlights(w, l, step);
    LoadStepKeepsCopies(w, l, step);
    GrowthKeeps(w.history, w'.history, w.loads, w'.loads, w);
    hide LoadStep, Flights, Copies, CallSound, Loaded, LoadsGrow, LoadFaithful;
  }

  lemma StepKeeps(w: World, step: Step)
    requires Invariant(w)
    ensures Invariant(Next(w, step))
  {
    var w' := Next(w, step);
    hide CallStep, LoadStep, Invariant;
    match step
    case Transaction(view) => QuietKeeps(w, w');
    case Enter(p) => EnterKeeps(w, p);
    case Evict(p) => QuietKeeps(w, w');
    case Flush => QuietKeeps(w, w');
    case LookLocal(c) => if c < |w.calls| { CallStepKeeps(w, c, step); }
    case AskRedis(c, _) => if c < |w.calls| { CallStepKeeps(w, c, step); }
    case HandleAnswer(c, _) => if c < |w.calls| { CallStepKeeps(w, c, step); }
    case Await(c) => if c < |w.calls| { CallStepKeeps(w, c, step); }
    case Check(c, _) => if c < |w.calls| { CallStepKeeps(w, c, step); }
    case DropFromRedis(c, _) => if c < |w.calls| { CallStepKeeps(w, c, step); }
    case ReadVersion(l, _) => if l < |w.loads| { LoadStepKeeps(w, l, step); }
    case ReadRows(l, _, _) => if l < |w.loads| { LoadStepKeeps(w, l, step); }
    case PublishLocally(l) => if l < |w.loads| { LoadStepKeeps(w, l, step); }
    case StoreInRedis(l, _) => if l < |w.loads| { LoadStepKeeps(w, l, step); }
    case Settle(l) => if l < |w.loads| { LoadStepKeeps(w, l, step); }
    case Break(l) => if l < |w.loads| { LoadStepKeeps(w, l, step); }
  }

  lemma QuietKeeps(w: World, w': World)
    requires Invariant(w) && w.history <= w'.history
    requires w' == w.(history := w'.history, local := w'.local, redis := w'.redis)
    requires forall p :: p in w'.local ==> p in w.local && w'.local[p] == w.local[p]
    requires w'.redis.None? || w'.redis == w.redis
    ensures Invariant(w')
  {
    GrowthKeeps(w.history, w'.history, w.loads, w'.loads, w);
    hide Visible, Loaded, ReturnedInTime, CallSound;
  }

  lemma EnterKeeps(w: World, p: Process)
    requires Invariant(w)
    ensures Invariant(Next(w, Enter(p)))
  {
    hide Visible, Loaded, ReturnedInTime;
  }

  lemma {:induction false} RunKeeps(view: Option<GuildView>, ttl: nat, steps: seq<Step>)
    ensures Invariant(RunFrom(Idle(view, ttl), steps))
    decreases |steps|
  {
    if steps != [] {
      var shorter := steps[..|steps| - 1];
      RunKeeps(view, ttl, shorter);
      StepKeeps(RunFrom(Idle(view, ttl), shorter), steps[|steps| - 1]);
    }
  }

  // ----- what a call returns -----

  /** `result` is what the database would have answered at moment `m`, filtered at the instant of load `l`. */
  ghost predicate AnswerAt(w: World, m: nat, l: nat, result: map<RowKey, Row>) {
    m < |w.history| && w.history[m].Some? && l < |w.loads| && result == Visible(w.history[m].value.rows, w.loads[l].at)
  }

  /**
   A cached read is linearizable: it returns nothing, or the rows the database held at some moment
   between the start of the call and its return, filtered at the instant of the load that produced
   the snapshot it returned.
   */
  lemma CachedReadIsLinearizable(view: Option<GuildView>, ttl: nat, steps: seq<Step>, c: nat)
    requires var w := RunFrom(Idle(view, ttl), steps);
             Disciplined(w.history) && c < |w.calls| && w.calls[c].phase.Returned?
    ensures var w := RunFrom(Idle(view, ttl), steps);
            var call := w.calls[c];
            ResultOf(call) == map[]
            || exists m: nat, l: nat ::
                 && call.start <= m <= call.phase.finish && AnswerAt(w, m, l, ResultOf(call))
                 && ValueOf(w.loads[l]) == Some(call.phase.returned)
  {
    var w := RunFrom(Idle(view, ttl), steps);
    RunKeeps(view, ttl, steps);
    var call := w.calls[c];
    assert CallSound(w.history, w.loads, call);
    if ResultOf(call) != map[] {
      var l :| 0 <= l < |w.loads| && ValueOf(w.loads[l]) == Some(call.phase.returned)
        && w.loads[l].rowsAt <= call.phase.finish;
      var load := w.loads[l];
      assert LoadFaithful(w.history, load);
      SameVersionBetween(w.history, load, call.start);
      assert AnswerAt(w, if load.rowsAt >= call.start then load.rowsAt else call.start, l, ResultOf(call));
    }
  }

  /** Rows read before the call, under the version the call saw, are the rows at its start. */
  lemma SameVersionBetween(h: History, load: Load, start: nat)
    requires Disciplined(h) && start < |h| && h[start].Some?
    requires load.versionAt <= load.rowsAt < |h| && h[load.versionAt].Some? && h[load.rowsAt].Some?
    requires h[load.versionAt].value.version == h[start].value.version
    ensures load.rowsAt < start ==> h[load.rowsAt].value.rows == h[start].value.rows
  {
  }

  /** Every snapshot a call returns was produced by a loader. */
  lemma EveryValueWasLoaded(view: Option<GuildView>, ttl: nat, steps: seq<Step>, c: nat)
    requires var w := RunFrom(Idle(view, ttl), steps); c < |w.calls| && w.calls[c].phase.Returned?
    ensures var w := RunFrom(Idle(view, ttl), steps); Loaded(w.loads, w.calls[c].phase.returned)
  {
    RunKeeps(view, ttl, steps);
    var w := RunFrom(Idle(view, ttl), steps);
    assert CallSound(w.history, w.loads, w.calls[c]);
  }

  /** At most one loader runs at a time in each process. */
  lemma SingleFlight(view: Option<GuildView>, ttl: nat, steps: seq<Step>, a: nat, b: nat)
    requires var w := RunFrom(Idle(view, ttl), steps);
             a < |w.loads| && b < |w.loads| && Running(w.loads[a]) && Running(w.loads[b])
               && w.loads[a].process == w.loads[b].process
    ensures a == b
  {
    RunKeeps(view, ttl, steps);
  }

  /**
   A call answers with the copy it found on its first pass if and only if that is of the version it read, not past
   its boundary and not too old; otherwise it drops the local copy and looks once more.  A second copy is answered
   as it is.
   */
  lemma FirstCopyIsCheckedExactly(w: World, c: nat, now: Time)
    requires |w.history| > 0 && c < |w.calls| && w.calls[c].phase.Got?
    ensures var call, w' := w.calls[c], Next(w, Check(c, now));
            var copy := call.phase.value;
            var usable := && copy.version == call.version && now - copy.cachedAt <= w.ttl
                          && (copy.boundary == None || now < copy.boundary.value);
            && c < |w'.calls| && w'.redis == w.redis && w'.loads == w.loads && w'.flight == w.flight
            && w'.calls[c] == call.(phase := if usable || call.second then Returned(copy, |w.history| - 1)
                                             else Invalidating)
            && w'.local == if usable || call.second then w.local else w.local - {call.process}
  {
  }

  // ----- a read that nobody disturbs -----

  /** What a load of an existing guild makes of its two queries: the version, and the rows said at its instant. */
  lemma LoadReadsBothQueries(w: World, l: nat, now: Time, boundary: Option<Time>)
    requires |w.history| > 0 && l < |w.loads| && w.history[|w.history| - 1].Some?
    ensures w.loads[l].phase.Started? ==>
              Next(w, ReadVersion(l, now))
              == w.(loads := w.loads[l := w.loads[l].(versionAt := |w.history| - 1, phase := VersionRead)])
    ensures var load, rows := w.loads[l], w.history[|w.history| - 1].value.rows;
            load.phase.VersionRead? && load.versionAt < |w.history| && w.history[load.versionAt].Some?
            && IsBoundary(Visible(rows, load.at), boundary) ==>
              var value := Snapshot(w.history[load.versionAt].value.version, now, boundary, Visible(rows, load.at));
              Next(w, ReadRows(l, now, boundary))
              == w.(loads := w.loads[l := load.(rowsAt := |w.history| - 1, phase := Computed(value))])
  {
    hide Visible, IsBoundary;
  }

  lemma LastCallMoves(w: World, calls: seq<Call>, call: Call, phase: CallPhase)
    requires w.calls == calls + [call]
    ensures WithCall(w, |calls|, phase) == w.(calls := calls + [call.(phase := phase)])
  {
  }

  lemma LastLoadMoves(w: World, loads: seq<Load>, load: Load, load': Load)
    requires w.loads == loads + [load]
    ensures WithLoad(w, |loads|, load') == w.(loads := loads + [load'])
  {
  }

  /** The copy may be answered to a call that read this version. */
  predicate UsableFor(copy: Snapshot, version: nat, ttl: nat, now: Time) {
    copy.version == version && now - copy.cachedAt <= ttl && (copy.boundary == None || now < copy.boundary.value)
  }

  /** A read in a process that holds a usable copy answers it; neither Redis nor a loader is asked. */
  lemma HeldCopyAnswers(w: World, p: Process, now: Time)
    requires |w.history| > 0 && w.history[|w.history| - 1].Some? && p in w.local
    requires UsableFor(w.local[p], w.history[|w.history| - 1].value.version, w.ttl, now)
    ensures var c := |w.calls|;
            var w' := Next(Next(Next(w, Enter(p)), LookLocal(c)), Check(c, now));
            && w' == w.(calls := w'.calls) && |w'.calls| == c + 1
            && w'.calls[c].phase == Returned(w.local[p], |w.history| - 1)
            && ResultOf(w'.calls[c]) == w.local[p].entitlements
  {
  }

  /** A read that finds none in its process and a usable one in Redis answers that, and its process keeps it. */
  lemma SharedCopyAnswers(w: World, p: Process, at: Time, now: Time)
    requires |w.history| > 0 && w.history[|w.history| - 1].Some? && p !in w.local && w.redis.Some?
    requires UsableFor(w.redis.value, w.history[|w.history| - 1].value.version, w.ttl, now)
    ensures var c := |w.calls|;
            var asked := Next(Next(Next(w, Enter(p)), LookLocal(c)), AskRedis(c, true));
            var w' := Next(Next(asked, HandleAnswer(c, at)), Check(c, now));
            && w' == w.(calls := w'.calls, local := w.local[p := w.redis.value]) && |w'.calls| == c + 1
            && w'.calls[c].phase == Returned(w.redis.value, |w.history| - 1)
            && ResultOf(w'.calls[c]) == w.redis.value.entitlements
  {
  }

  /** A call that finds no copy anywhere starts a load. */
  lemma CallMisses(w: World, c: nat, at: Time)
    requires |w.history| > 0 && c < |w.calls|
    ensures var call := w.calls[c];
            && (call.phase.AtLocal? && call.process !in w.local ==> Next(w, LookLocal(c)) == WithCall(w, c, AtRedis))
            && (call.phase.AtRedis? && w.redis == None ==>
                  Next(w, AskRedis(c, true)) == WithCall(w, c, RedisAnswered(None)))
            && (call.phase == RedisAnswered(None) && call.process !in w.flight ==>
                  Next(w, HandleAnswer(c, at)) == WithCall(w, c, Waiting(|w.loads|)).(
                    loads := w.loads + [Load(call.process, call.version, at, 0, 0, Started)],
                    flight := w.flight[call.process := |w.loads|]))
  {
  }

  /** A load that has its value hands it on: to its own process, to Redis, to those who wait for it. */
  lemma LoadHandsOn(w: World, l: nat)
    requires |w.history| > 0 && l < |w.loads|
    ensures var load := w.loads[l];
            && (load.phase.Computed? ==>
                  Next(w, PublishLocally(l)) == WithLoad(w, l, load.(phase := PublishedLocally(load.phase.value))).(
                    local := w.local[load.process := load.phase.value]))
            && (load.phase.PublishedLocally? ==>
                  Next(w, StoreInRedis(l, true)) == WithLoad(w, l, load.(phase := Stored(load.phase.value))).(
                    redis := Some(load.phase.value)))
            && (load.phase.Stored? ==>
                  Next(w, Settle(l)) == WithLoad(w, l, load.(phase := Settled(load.phase.value))).(
                    flight := w.flight - {load.process}))
  {
    hide Visible, IsBoundary;
  }

  lemma CallGetsLoad(w: World, c: nat, l: nat)
    requires |w.history| > 0 && c < |w.calls| && l < |w.loads| && w.calls[c].phase == Waiting(l)
    requires w.loads[l].phase.Settled?
    ensures Next(w, Await(c)) == WithCall(w, c, Got(w.loads[l].phase.value))
  {
  }

  /** The steps of a call that finds no copy anywhere, and of the load that it starts. */
  ghost function MissedRead(w: World, p: Process, at: Time, boundary: Option<Time>): World
    requires |w.history| > 0
  {
    hide Next;
    var c, l := |w.calls|, |w.loads|;
    var missed := Next(Next(Next(Next(w, Enter(p)), LookLocal(c)), AskRedis(c, true)), HandleAnswer(c, at));
    var loaded := Next(Next(missed, ReadVersion(l, at)), ReadRows(l, at, boundary));
    var shared := Next(Next(Next(loaded, PublishLocally(l)), StoreInRedis(l, true)), Settle(l));
    Next(Next(shared, Await(c)), Check(c, at))
  }

  /**
   A read of an existing guild that finds no copy and that nobody disturbs answers exactly the rows said at its
   instant, and leaves them with its process and in Redis for the others.
   */
  lemma UndisturbedReadAnswers(w: World, p: Process, at: Time, boundary: Option<Time>)
    requires |w.history| > 0 && w.history[|w.history| - 1].Some? && w.redis == None
    requires p !in w.local && p !in w.flight
    requires IsBoundary(Visible(w.history[|w.history| - 1].value.rows, at), boundary)
    ensures var c, view := |w.calls|, w.history[|w.history| - 1].value;
            var w' := MissedRead(w, p, at, boundary);
            var value := Snapshot(view.version, at, boundary, Visible(view.rows, at));
            && w'.history == w.history && w'.local == w.local[p := value] && w'.redis == Some(value)
            && w'.flight == w.flight && |w'.calls| == c + 1 && w'.calls[c].phase == Returned(value, |w.history| - 1)
            && ResultOf(w'.calls[c]) == Visible(view.rows, at)
  {
    var view, now := w.history[|w.history| - 1].value, |w.history| - 1;
    var value := Snapshot(view.version, at, boundary, Visible(view.rows, at));
    var call, load := Call(p, now, view.version, false, AtLocal), Load(p, view.version, at, 0, 0, Started);
    BoundaryAhead(view.rows, at, boundary);
    Entering(w, p);
    hide Next, Visible, IsBoundary;
    var missed := UndisturbedMiss(w, p, at, call);
    var loaded := UndisturbedLoad(missed, w.loads, load, at, boundary, value);
    var shared := UndisturbedHandOn(loaded, w.loads, load.(versionAt := now, rowsAt := now), value);
    assert w.flight[p := |w.loads|] - {p} == w.flight;
    var answered := UndisturbedAnswer(shared, w.calls, call, |w.loads|, value, at);
    assert MissedRead(w, p, at, boundary) == answered;
    hide MissedRead;
  }

  lemma Entering(w: World, p: Process)
    requires |w.history| > 0 && w.history[|w.history| - 1].Some?
    ensures Next(w, Enter(p))
            == w.(calls := w.calls
                  + [Call(p, |w.history| - 1, w.history[|w.history| - 1].value.version, false, AtLocal)])
  {
  }

  lemma UndisturbedAnswer(w: World, calls: seq<Call>, call: Call, l: nat, value: Snapshot, at: Time)
    returns (answered: World)
    requires |w.history| > 0 && w.calls == calls + [call.(phase := Waiting(l))] && l < |w.loads|
    requires w.loads[l].phase == Settled(value) && !call.second
    requires value.version == call.version && value.cachedAt == at
             && (value.boundary == None || at < value.boundary.value)
    ensures answered == Next(Next(w, Await(|calls|)), Check(|calls|, at))
    ensures answered.history == w.history && answered.local == w.local && answered.redis == w.redis
            && answered.flight == w.flight && |answered.calls| == |w.calls|
            && answered.calls[|calls|] == call.(phase := Returned(value, |w.history| - 1))
  {
    var c := |calls|;
    CheckKeepsRest(Next(w, Await(c)), c, at);
    hide Next;
    CallGetsLoad(w, c, l);
    LastCallMoves(w, calls, call.(phase := Waiting(l)), Got(value));
    var got := Next(w, Await(c));
    FirstCopyIsCheckedExactly(got, c, at);
    answered := Next(got, Check(c, at));
  }

  lemma CheckKeepsRest(w: World, c: nat, at: Time)
    requires |w.history| > 0
    ensures Next(w, Check(c, at)).history == w.history && |Next(w, Check(c, at)).calls| == |w.calls|
  {
  }

  /** Rows that are visible have not ended. */
  lemma BoundaryAhead(rows: map<RowKey, Row>, at: Time, boundary: Option<Time>)
    requires IsBoundary(Visible(rows, at), boundary)
    ensures boundary == None || at < boundary.value
  {
  }

  lemma UndisturbedMiss(w: World, p: Process, at: Time, call: Call) returns (missed: World)
    requires |w.history| > 0 && w.redis == None && p !in w.local && p !in w.flight
    requires call.process == p && call.phase == AtLocal && Next(w, Enter(p)) == w.(calls := w.calls + [call])
    ensures var c := |w.calls|;
            missed == Next(Next(Next(Next(w, Enter(p)), LookLocal(c)), AskRedis(c, true)), HandleAnswer(c, at))
    ensures missed == w.(calls := w.calls + [call.(phase := Waiting(|w.loads|))],
                         loads := w.loads + [Load(p, call.version, at, 0, 0, Started)],
                         flight := w.flight[p := |w.loads|])
  {
    var c := |w.calls|;
    hide Next;
    var w1 := Next(w, Enter(p));
    CallMisses(w1, c, at);
    LastCallMoves(w1, w.calls, call, AtRedis);
    var w2 := Next(w1, LookLocal(c));
    CallMisses(w2, c, at);
    LastCallMoves(w2, w.calls, call.(phase := AtRedis), RedisAnswered(None));
    var w3 := Next(w2, AskRedis(c, true));
    CallMisses(w3, c, at);
    LastCallMoves(w3, w.calls, call.(phase := RedisAnswered(None)), Waiting(|w.loads|));
    missed := Next(w3, HandleAnswer(c, at));
  }

  lemma UndisturbedLoad(w: World, loads: seq<Load>, load: Load, at: Time, boundary: Option<Time>, value: Snapshot)
    returns (loaded: World)
    requires |w.history| > 0 && w.history[|w.history| - 1].Some? && w.loads == loads + [load]
    requires load.phase.Started? && load.at == at
    requires var view := w.history[|w.history| - 1].value;
             && IsBoundary(Visible(view.rows, at), boundary)
             && value == Snapshot(view.version, at, boundary, Visible(view.rows, at))
    ensures loaded == Next(Next(w, ReadVersion(|loads|, at)), ReadRows(|loads|, at, boundary))
    ensures var now := |w.history| - 1;
            loaded == w.(loads := loads + [load.(versionAt := now, rowsAt := now, phase := Computed(value))])
  {
    var l, now := |loads|, |w.history| - 1;
    hide Next, Visible, IsBoundary;
    LoadReadsBothQueries(w, l, at, boundary);
    LastLoadMoves(w, loads, load, load.(versionAt := now, phase := VersionRead));
    var w1 := Next(w, ReadVersion(l, at));
    LoadReadsBothQueries(w1, l, at, boundary);
    LastLoadMoves(w1, loads, load.(versionAt := now, phase := VersionRead),
                  load.(versionAt := now, rowsAt := now, phase := Computed(value)));
    loaded := Next(w1, ReadRows(l, at, boundary));
  }

  lemma UndisturbedHandOn(w: World, loads: seq<Load>, load: Load, value: Snapshot) returns (shared: World)
    requires |w.history| > 0 && w.loads == loads + [load.(phase := Computed(value))]
    ensures var l := |loads|; shared == Next(Next(Next(w, PublishLocally(l)), StoreInRedis(l, true)), Settle(l))
    ensures shared == w.(loads := loads + [load.(phase := Settled(value))], local := w.local[load.process := value],
                         redis := Some(value), flight := w.flight - {load.process})
  {
    var l := |loads|;
    hide Next;
    LoadHandsOn(w, l);
    LastLoadMoves(w, loads, load.(phase := Computed(value)), load.(phase := PublishedLocally(value)));
    var w1 := Next(w, PublishLocally(l));
    LoadHandsOn(w1, l);
    LastLoadMoves(w1, loads, load.(phase := PublishedLocally(value)), load.(phase := Stored(value)));
    var w2 := Next(w1, StoreInRedis(l, true));
    LoadHandsOn(w2, l);
    LastLoadMoves(w2, loads, load.(phase := Stored(value)), load.(phase := Settled(value)));
    shared := Next(w2, Settle(l));
  }
}
