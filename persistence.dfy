/** The document store behind the handler, reduced to what the handler does
    with it: append an Order, and set one CustomPlan's payment status. Either
    write may fail; a failed write changes nothing. */
module Persistence {
  import opened Orders

  const PLAN_PAID := "paid"

  /** A CustomPlan document: its payment status and its other fields, which
      the handler never touches. */
  datatype CustomPlan = CustomPlan(paymentStatus: string, otherFields: map<string, string>)

  /** The contents of the store: the Order collection in insertion order and
      the CustomPlan collection by id. */
  datatype Db = Db(orders: seq<Order>, plans: map<string, CustomPlan>)

  /** `CustomPlan.findByIdAndUpdate(id, { paymentStatus: "paid" })` on success:
      only that plan's status changes; an unknown id updates nothing. */
  function MarkPaid(plans: map<string, CustomPlan>, id: string): (r: map<string, CustomPlan>)
    ensures r.Keys == plans.Keys
    ensures id in plans ==> r[id] == plans[id].(paymentStatus := PLAN_PAID)
    ensures forall k :: k in plans && k != id ==> r[k] == plans[k]
  {
    if id in plans then plans[id := plans[id].(paymentStatus := PLAN_PAID)] else plans
  }

  /** Setting a plan's status to paid a second time changes nothing. */
  lemma MarkPaidIdempotent(plans: map<string, CustomPlan>, id: string)
    ensures MarkPaid(MarkPaid(plans, id), id) == MarkPaid(plans, id)
  {
  }

  /** The Order and CustomPlan collections, updated in place by the handler. */
  class Store {
    var orders: seq<Order>
    var plans: map<string, CustomPlan>

    constructor (db: Db)
      ensures Snapshot() == db
    {
      orders := db.orders;
      plans := db.plans;
    }

    /** The current contents of the store. */
    function Snapshot(): Db
      reads this
    {
      Db(orders, plans)
    }

    /** `newOrder.save()`: appends the order unless the store reports an error. */
    method Save(order: Order, fails: bool) returns (saved: bool)
      modifies this
      ensures saved == !fails
      ensures orders == if saved then old(orders) + [order] else old(orders)
      ensures plans == old(plans)
    {
      saved := !fails;
      if saved {
        orders := orders + [order];
      }
    }

    /** `CustomPlan.findByIdAndUpdate(id, { paymentStatus: "paid" })`: marks the
        plan paid unless the store reports an error. */
    method FindByIdAndMarkPaid(id: string, fails: bool) returns (updated: bool)
      modifies this
      ensures updated == !fails
      ensures plans == if updated then MarkPaid(old(plans), id) else old(plans)
      ensures orders == old(orders)
    {
      updated := !fails;
      if updated {
        plans := MarkPaid(plans, id);
      }
    }
  }
}
