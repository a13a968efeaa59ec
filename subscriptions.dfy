/**
 * The subscription store (bot/helper/ext_utils/subscription_utils.py): the
 * plan catalogue and the per-user fields of the shared `user_data` table
 * that the subscription code reads and writes.
 *
 * The table is a `map<int, Record>`. The read functions and the `With…`
 * functions below are the specification; the class `Store` holds the table
 * and updates it in place, as the setters of the source do.
 */
module Subscriptions {
  import opened Wrappers
  import opened Json

  const SecondsPerDay := 86400

  datatype Plan = Plan(days: nat, amount: nat, caption: string)

  /** `PLANS`. */
  const Plans: map<string, Plan> := map[
    "7d" := Plan(7, 12000, "7 hari — Rp12.000"),
    "14d" := Plan(14, 20000, "14 hari — Rp20.000"),
    "30d" := Plan(30, 25000, "30 hari — Rp25.000")
  ]

  lemma PlanCatalogue()
    ensures Plans.Keys == {"7d", "14d", "30d"}
    ensures Plans["7d"].days == 7 && Plans["7d"].amount == 12000
    ensures Plans["14d"].days == 14 && Plans["14d"].amount == 20000
    ensures Plans["30d"].days == 30 && Plans["30d"].amount == 25000
  {
  }

  /** The `SUB_TX` dictionary: the gateway fields are stored as the gateway returned them. */
  datatype Tx = Tx(
    plan: string,
    amount: int,
    transactionId: Json,
    accessKey: Json,
    paymentUrl: Json,
    createdAt: int,
    expiredAt: Json,
    status: Json)

  /**
   * One entry of `user_data`: `SUB_END` (0 when absent), `SUB_PLAN` ("" when
   * absent), `SUB_GROUP` (None when absent or None), `SUB_TX`, and the
   * `AUTH`, `SUDO` and `thread_ids` entries the access filters read, which
   * this core never writes.
   */
  datatype Record = Record(
    subEnd: int,
    subPlan: string,
    subGroup: Option<int>,
    subTx: Option<Tx>,
    auth: bool,
    sudo: bool,
    threadIds: seq<int>)

  /** The entry `setdefault(uid, {})` creates; it reads like a missing one. */
  const Empty := Record(0, "", None, None, false, false, [])

  type Table = map<int, Record>

  /** `user_data.get(uid, {})`. */
  function Entry(t: Table, uid: int): Record {
    if uid in t then t[uid] else Empty
  }

  /** `get_sub_end`: the stored end, 0 for a user without a record. */
  function GetSubEnd(t: Table, uid: int): (e: int)
    ensures uid in t ==> e == t[uid].subEnd
    ensures uid !in t ==> e == 0
  {
    Entry(t, uid).subEnd
  }

  /** `get_sub_plan`: the stored plan id, "" for a user without a record. */
  function GetSubPlan(t: Table, uid: int): (p: string)
    ensures uid in t ==> p == t[uid].subPlan
    ensures uid !in t ==> p == ""
  {
    Entry(t, uid).subPlan
  }

  /** `get_bound_group`: a stored 0 or None reads back as None. */
  function GetBoundGroup(t: Table, uid: int): (g: Option<int>)
    ensures g.Some? ==> g.value != 0 && uid in t && t[uid].subGroup == g
    ensures g.None? ==> Entry(t, uid).subGroup in {None, Some(0)}
  {
    match Entry(t, uid).subGroup
    case Some(c) => if c != 0 then Some(c) else None
    case None => None
  }

  /** `get_pending_tx`: the stored transaction, None for a user without a record or without one. */
  function GetPendingTx(t: Table, uid: int): (tx: Option<Tx>)
    ensures tx.Some? ==> uid in t && t[uid].subTx == tx
    ensures uid in t ==> tx == t[uid].subTx
  {
    Entry(t, uid).subTx
  }

  /** `is_sub_active` at time `now`: the end lies strictly after `now`, a missing end counting as 0. */
  predicate IsSubActive(t: Table, uid: int, now: int)
    ensures IsSubActive(t, uid, now) <==> if uid in t then t[uid].subEnd > now else now < 0
  {
    GetSubEnd(t, uid) > now
  }

  /** With a clock reading epoch seconds (never negative), a user without a record is inactive. */
  lemma ActiveIffEndAfterNow(t: Table, uid: int, now: int)
    requires now >= 0
    ensures IsSubActive(t, uid, now) <==> uid in t && t[uid].subEnd > now
    ensures uid !in t ==> !IsSubActive(t, uid, now)
  {
  }

  /** The fields of an entry that no subscription setter writes. */
  predicate SameFlags(a: Record, b: Record) {
    a.auth == b.auth && a.sudo == b.sudo && a.threadIds == b.threadIds
  }

  /** `set_subscription`: the window restarts at `now`, whatever it was before. */
  function WithSubscription(t: Table, uid: int, planId: string, now: int): (t': Table)
    requires planId in Plans
    ensures uid in t'
    ensures GetSubPlan(t', uid) == planId
    ensures GetSubEnd(t', uid) == now + Plans[planId].days * SecondsPerDay
    ensures IsSubActive(t', uid, now)
    ensures GetBoundGroup(t', uid) == GetBoundGroup(t, uid) && GetPendingTx(t', uid) == GetPendingTx(t, uid)
    ensures Entry(t', uid).subGroup == Entry(t, uid).subGroup && SameFlags(t'[uid], Entry(t, uid))
    ensures t' - {uid} == t - {uid}
  {
    t[uid := Entry(t, uid).(subPlan := planId, subEnd := now + Plans[planId].days * SecondsPerDay)]
  }

  /** Renewing restarts the window: the time still left on an active subscription is lost. */
  lemma RenewalRestartsWindow(t: Table, uid: int, planId: string, now: int)
    requires planId in Plans && IsSubActive(t, uid, now)
    ensures GetSubEnd(WithSubscription(t, uid, planId, now), uid) < GetSubEnd(t, uid) + Plans[planId].days * SecondsPerDay
    ensures GetSubEnd(t, uid) > now + Plans[planId].days * SecondsPerDay ==>
              GetSubEnd(WithSubscription(t, uid, planId, now), uid) < GetSubEnd(t, uid)
  {
  }

  /** `set_pending_tx`: replaces whatever was pending. */
  function WithPendingTx(t: Table, uid: int, tx: Tx): (t': Table)
    ensures uid in t'
    ensures GetPendingTx(t', uid) == Some(tx)
    ensures GetSubEnd(t', uid) == GetSubEnd(t, uid) && GetSubPlan(t', uid) == GetSubPlan(t, uid)
    ensures Entry(t', uid).subGroup == Entry(t, uid).subGroup && SameFlags(t'[uid], Entry(t, uid))
    ensures t' - {uid} == t - {uid}
  {
    t[uid := Entry(t, uid).(subTx := Some(tx))]
  }

  /** `clear_pending_tx`: removes the pending transaction, if there is one. */
  function WithoutPendingTx(t: Table, uid: int): (t': Table)
    ensures GetPendingTx(t', uid) == None
    ensures GetPendingTx(t, uid) == None ==> t' == t
    ensures t'.Keys == t.Keys
    ensures GetSubEnd(t', uid) == GetSubEnd(t, uid) && GetSubPlan(t', uid) == GetSubPlan(t, uid)
    ensures Entry(t', uid).subGroup == Entry(t, uid).subGroup && SameFlags(Entry(t', uid), Entry(t, uid))
    ensures t' - {uid} == t - {uid}
  {
    if uid in t && t[uid].subTx.Some? then t[uid := t[uid].(subTx := None)] else t
  }

  /** `bind_group`: stores `chatId` whatever was bound before. */
  function WithGroup(t: Table, uid: int, chatId: int): (t': Table)
    ensures uid in t' && t'[uid].subGroup == Some(chatId)
    ensures GetBoundGroup(t', uid) == if chatId != 0 then Some(chatId) else None
    ensures GetSubEnd(t', uid) == GetSubEnd(t, uid) && GetSubPlan(t', uid) == GetSubPlan(t, uid)
    ensures GetPendingTx(t', uid) == GetPendingTx(t, uid) && SameFlags(t'[uid], Entry(t, uid))
    ensures t' - {uid} == t - {uid}
  {
    t[uid := Entry(t, uid).(subGroup := Some(chatId))]
  }

  /** `unbind_group`. */
  function WithoutGroup(t: Table, uid: int): (t': Table)
    ensures uid in t'
    ensures t'[uid].subGroup == None && GetBoundGroup(t', uid) == None
    ensures GetSubEnd(t', uid) == GetSubEnd(t, uid) && GetSubPlan(t', uid) == GetSubPlan(t, uid)
    ensures GetPendingTx(t', uid) == GetPendingTx(t, uid) && SameFlags(t'[uid], Entry(t, uid))
    ensures t' - {uid} == t - {uid}
  {
    t[uid := Entry(t, uid).(subGroup := None)]
  }

  /** The shared `user_data` table, with the setters of subscription_utils.py. */
  class Store {
    var users: Table

    constructor (initial: Table)
      ensures users == initial
    {
      users := initial;
    }

    /** `user_data.setdefault(uid, {})`. */
    method SetDefault(uid: int)
      modifies this
      ensures uid in users && users[uid] == Entry(old(users), uid)
      ensures users == old(users)[uid := Entry(old(users), uid)]
    {
      if uid !in users {
        users := users[uid := Empty];
      }
    }

    method SetSubscription(uid: int, planId: string, now: int)
      requires planId in Plans
      modifies this
      ensures users == WithSubscription(old(users), uid, planId, now)
    {
      var plan := Plans[planId];
      var end := now + plan.days * SecondsPerDay;
      SetDefault(uid);
      users := users[uid := users[uid].(subPlan := planId)];
      users := users[uid := users[uid].(subEnd := end)];
    }

    method SetPendingTx(uid: int, tx: Tx)
      modifies this
      ensures users == WithPendingTx(old(users), uid, tx)
    {
      SetDefault(uid);
      users := users[uid := users[uid].(subTx := Some(tx))];
    }

    method ClearPendingTx(uid: int)
      modifies this
      ensures users == WithoutPendingTx(old(users), uid)
    {
      if uid in users && users[uid].subTx.Some? {
        users := users[uid := users[uid].(subTx := None)];
      }
    }

    method BindGroup(uid: int, chatId: int)
      modifies this
      ensures users == WithGroup(old(users), uid, chatId)
    {
      SetDefault(uid);
      users := users[uid := users[uid].(subGroup := Some(chatId))];
    }

    method UnbindGroup(uid: int)
      modifies this
      ensures users == WithoutGroup(old(users), uid)
    {
      SetDefault(uid);
      users := users[uid := users[uid].(subGroup := None)];
    }
  }
}
