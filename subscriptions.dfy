/** The rows of the `subscriptions` table and the column writes applied to them. */
module Subscriptions {
  import opened Wrappers

  type UserId = string

  /** `plan_type`. The TypeScript `Subscription` type lists only monthly and
      annual, but the free-trial button writes `free` and the action hook
      branches on it, so the table holds three plans. */
  datatype PlanType = Free | Monthly | Annual

  /** `status`: the three local statuses. */
  datatype Status = Active | Canceled | PastDue

  /** Milliseconds in a day; every timestamp in the model is in milliseconds. */
  const DayMs: int := 86400000

  /** One row of `subscriptions`. `id` is the local key the table assigns. */
  datatype Subscription = Subscription(
    id: nat,
    userId: UserId,
    plan: PlanType,
    status: Status,
    startDate: int,
    endDate: int,
    updatedAt: int,
    customerId: Option<string>,
    subscriptionId: Option<string>,
    priceId: Option<string>)

  /** The columns of one `update({...})` call; `None` leaves a column as it was. */
  datatype Patch = Patch(
    plan: Option<PlanType>,
    status: Option<Status>,
    startDate: Option<int>,
    endDate: Option<int>,
    customerId: Option<string>,
    subscriptionId: Option<string>,
    priceId: Option<string>,
    updatedAt: Option<int>)

  /** A patch that sets only `status` and `updated_at`. */
  function StatusPatch(s: Status, now: int): Patch {
    Patch(None, Some(s), None, None, None, None, None, Some(now))
  }

  /** The row after an update that writes the columns `p` carries. */
  function Apply(r: Subscription, p: Patch): Subscription {
    r.(plan := p.plan.GetOr(r.plan),
       status := p.status.GetOr(r.status),
       startDate := p.startDate.GetOr(r.startDate),
       endDate := p.endDate.GetOr(r.endDate),
       customerId := if p.customerId.Some? then p.customerId else r.customerId,
       subscriptionId := if p.subscriptionId.Some? then p.subscriptionId else r.subscriptionId,
       priceId := if p.priceId.Some? then p.priceId else r.priceId,
       updatedAt := p.updatedAt.GetOr(r.updatedAt))
  }

  /** `p2` writes every column that `p1` writes. */
  predicate Covers(p2: Patch, p1: Patch) {
    && (p1.plan.Some? ==> p2.plan.Some?)
    && (p1.status.Some? ==> p2.status.Some?)
    && (p1.startDate.Some? ==> p2.startDate.Some?)
    && (p1.endDate.Some? ==> p2.endDate.Some?)
    && (p1.customerId.Some? ==> p2.customerId.Some?)
    && (p1.subscriptionId.Some? ==> p2.subscriptionId.Some?)
    && (p1.priceId.Some? ==> p2.priceId.Some?)
    && (p1.updatedAt.Some? ==> p2.updatedAt.Some?)
  }

  /** Patches write absolute values, so a later patch that writes every column
      of an earlier one erases it: last write wins. */
  lemma LastWriteWins(r: Subscription, p1: Patch, p2: Patch)
    requires Covers(p2, p1)
    ensures Apply(Apply(r, p1), p2) == Apply(r, p2)
  {
  }

  /** The column values of an `insert` or `upsert` payload; `None` stands for
      a column the payload leaves out (null on insert, kept on conflict). */
  datatype RowValues = RowValues(
    plan: PlanType,
    status: Status,
    startDate: int,
    endDate: int,
    customerId: Option<string>,
    subscriptionId: Option<string>,
    priceId: Option<string>)

  /** The row an insert of `v` for `user` creates. `updated_at` is not in any
      payload; the model gives a new row the time of the insert. */
  function Materialize(id: nat, user: UserId, v: RowValues, now: int): (r: Subscription)
  {
    Subscription(id, user, v.plan, v.status, v.startDate, v.endDate, now,
                 v.customerId, v.subscriptionId, v.priceId)
  }

  /** The update an upsert applies to a row it conflicts with. */
  function MergePatch(v: RowValues): Patch {
    Patch(Some(v.plan), Some(v.status), Some(v.startDate), Some(v.endDate),
          v.customerId, v.subscriptionId, v.priceId, None)
  }

  /** The row holds the values the payload `v` supplies. */
  predicate Carries(r: Subscription, v: RowValues) {
    && r.plan == v.plan
    && r.status == v.status
    && r.startDate == v.startDate
    && r.endDate == v.endDate
    && (v.customerId.Some? ==> r.customerId == v.customerId)
    && (v.subscriptionId.Some? ==> r.subscriptionId == v.subscriptionId)
    && (v.priceId.Some? ==> r.priceId == v.priceId)
  }

  /** Inserting and merging agree on the supplied columns. */
  lemma PayloadWritten(r: Subscription, id: nat, user: UserId, v: RowValues, now: int)
    ensures Carries(Apply(r, MergePatch(v)), v)
    ensures Carries(Materialize(id, user, v, now), v)
  {
  }
}
