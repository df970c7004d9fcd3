/** The subscription status graph and the rule that decides when a subscription grants Premium. */
module Lifecycle {
  import opened Common

  datatype Status =
    | Pending | Incomplete | Active | PastDue | GracePeriod
    | Suspended | Cancelled | Expired | Disputed | Refunded

  datatype PaymentStatus =
    | AwaitingPayment | Succeeded | Failed | PaymentRefunded
    | PartiallyRefunded | PaymentDisputed | Reversed | Unknown

  function AllowedTransitions(current: Status): set<Status> {
    match current
    case Pending => {Incomplete, Active, Cancelled, Expired}
    case Incomplete => {Active, Expired, Cancelled}
    case Active => {PastDue, GracePeriod, Suspended, Cancelled, Disputed, Refunded, Expired}
    case PastDue => {Active, GracePeriod, Suspended, Cancelled, Disputed}
    case GracePeriod => {Active, Suspended, Cancelled, Expired, Disputed}
    case Suspended => {Active, Cancelled, Expired, Disputed, Refunded}
    case Cancelled => {Active, Expired, Refunded}
    case Expired => {}
    case Disputed => {Active, Suspended, Cancelled, Refunded}
    case Refunded => {}
  }

  predicate CanTransition(current: Status, next: Status) {
    current == next || next in AllowedTransitions(current)
  }

  /** The statuses that occupy a guild's single subscription slot. */
  predicate Effective(status: Status) {
    !status.Expired? && !status.Refunded?
  }

  /** Statuses that only a subscription with a past payment can have. */
  predicate PaidStatus(status: Status) {
    status in {Active, PastDue, GracePeriod, Suspended, Disputed}
  }

  datatype Grant = Grant(grants: bool, endsAt: Option<Time>)

  function SubscriptionGrants(
    status: Status, latestPayment: PaymentStatus,
    periodEnd: Option<Time>, graceEnd: Option<Time>, at: Time): Grant
  {
    if (status.Active? || status.Cancelled?) && latestPayment.Succeeded? && periodEnd.Some? && periodEnd.value > at then
      Grant(true, periodEnd)
    else if status.GracePeriod? && graceEnd.Some? && graceEnd.value > at then
      Grant(true, graceEnd)
    else
      Grant(false, None)
  }

  /** A path in the graph: every consecutive pair is a permitted status write. */
  ghost predicate IsPath(path: seq<Status>) {
    forall i :: 0 <= i < |path| - 1 ==> CanTransition(path[i], path[i + 1])
  }

  /** From where each status is entered: payment and cancellation from any that is not over, the others from few. */
  lemma EntriesOfEachStatus(current: Status, next: Status)
    ensures CanTransition(current, next) <==>
            || current == next
            || (Effective(current) && (next == Active || next == Cancelled))
            || (next == Incomplete && current == Pending)
            || (next == PastDue && current == Active)
            || (next == GracePeriod && current in {Active, PastDue})
            || (next == Suspended && current in {Active, PastDue, GracePeriod, Disputed})
            || (next == Disputed && current in {Active, PastDue, GracePeriod, Suspended})
            || (next == Expired && Effective(current) && current !in {PastDue, Disputed})
            || (next == Refunded && current in {Active, Suspended, Cancelled, Disputed})
  {
  }

  /** Expired and Refunded are exactly the statuses no sequence of permitted writes leaves. */
  lemma {:induction false} TerminalExactly(status: Status)
    ensures !Effective(status) <==>
            forall path: seq<Status> :: |path| > 0 && path[0] == status && IsPath(path) ==> path[|path| - 1] == status
  {
    if Effective(status) {
      var path := [status, if status.Active? then Expired else Active];
      assert IsPath(path) && path[0] == status && path[|path| - 1] != status;
    } else {
      forall path: seq<Status> | |path| > 0 && path[0] == status && IsPath(path)
        ensures path[|path| - 1] == status
      {
        TerminalIsSticky(path, |path| - 1);
      }
    }
  }

  lemma {:induction false} TerminalIsSticky(path: seq<Status>, i: nat)
    requires i < |path| && IsPath(path) && !Effective(path[0])
    ensures path[i] == path[0]
  {
    if i > 0 {
      TerminalIsSticky(path, i - 1);
      assert CanTransition(path[i - 1], path[i]);
    }
  }

  /** Whatever path leads from a new subscription to a paid status goes through Active first. */
  lemma {:induction false} PaidOnlyThroughActive(path: seq<Status>)
    requires |path| > 0 && path[0] == Pending && IsPath(path) && PaidStatus(path[|path| - 1])
    ensures Active in path
  {
    var last := |path| - 1;
    if path[last] != Active {
      assert CanTransition(path[last - 1], path[last]);
      var front := path[..last];
      assert IsPath(front) by {
        forall i | 0 <= i < |front| - 1 ensures CanTransition(front[i], front[i + 1]) {
          assert CanTransition(path[i], path[i + 1]);
        }
      }
      PaidOnlyThroughActive(front);
    }
  }
}
