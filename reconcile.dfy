/**
 * The subscription handlers (bot/modules/subscription.py): the `sub buy`,
 * `sub check` and `sub cancel` callbacks, `/bind` in a group, `/unbind` in a
 * private chat, and the read-only `/myplan` view.
 *
 * Each handler makes at most one gateway call; the gateway's `Response` to
 * that call and the clock reading `now` are parameters. The pure functions
 * (`Buy`, `Check`, `Cancel`, `Callback`, `Bind`, `Unbind`) say what a handler
 * replies and what the table becomes; the methods run the source's sequence
 * of store calls on a `Store` and are proved to agree with them.
 */
module Reconcile {
  import opened Wrappers
  import opened Json
  import opened Gateway
  import opened Subscriptions
  import PyStr

  const SecondsPerHour := 3600
  const SecondsPerMinute := 60

  /** What the handler reports back (the texts and alerts it shows are not modelled). */
  datatype Reply =
    | Ignored
    | InvalidPlan
    | CreateFailed(error: Detail)
    | PaymentCreated(tx: Tx)
    | NothingPending
    | CheckFailed(error: Detail)
    | Activated(plan: string)
    | Finished(status: string)
    | StillPending(reported: Json)
    | Cancelled
    | NotSubscribed
    | PublicGroupRefused
    | BoundElsewhere(current: int)
    | Bound(chatId: int)
    | Unbound
      /** an exception other than `BTZPayError` escaped the handler */
    | Crashed(exc: Exception)

  /** A handler's reply and the table after it. */
  datatype Step = Step(reply: Reply, users: Table)

  // ---------------------------------------------------------------- time left

  datatype TimeLeft = TimeLeft(days: nat, hours: nat, minutes: nat)

  function Seconds(d: TimeLeft): int {
    d.days * SecondsPerDay + d.hours * SecondsPerHour + d.minutes * SecondsPerMinute
  }

  lemma DivModParts(left: nat)
    ensures var days, rest := left / 86400, left % 86400;
            var hours, mins := rest / 3600, (left % 3600) / 60;
            && hours < 24 && mins < 60
            && days * 86400 + hours * 3600 + mins * 60 <= left < days * 86400 + hours * 3600 + mins * 60 + 60
  {
    var days, rest := left / 86400, left % 86400;
    assert left == days * 86400 + rest;
    var hours, r2 := rest / 3600, rest % 3600;
    assert rest == hours * 3600 + r2;
    assert left == (days * 24 + hours) * 3600 + r2;
    assert left % 3600 == r2;
    var mins, r3 := r2 / 60, r2 % 60;
    assert r2 == mins * 60 + r3;
  }

  /** `_fmt_time_left(end)` at time `now`: the days, hours and whole minutes until `end` (all zero once it has passed). */
  function FmtTimeLeft(endTs: int, now: int): (d: TimeLeft)
    ensures d.hours < 24 && d.minutes < 60
    ensures var left := if endTs > now then endTs - now else 0;
            Seconds(d) <= left < Seconds(d) + SecondsPerMinute
    ensures endTs <= now ==> d == TimeLeft(0, 0, 0)
  {
    var left: nat := if endTs > now then endTs - now else 0;
    DivModParts(left);
    TimeLeft(left / SecondsPerDay, (left % SecondsPerDay) / SecondsPerHour, (left % SecondsPerHour) / SecondsPerMinute)
  }

  // ---------------------------------------------------------------- myplan

  datatype PlanView = PlanView(plan: string, left: TimeLeft, group: Option<int>)

  /** `/myplan`: nothing for an inactive user, otherwise the plan, the time left and the bound group. */
  function MyPlan(t: Table, uid: int, now: int): (v: Option<PlanView>)
    ensures v.Some? <==> IsSubActive(t, uid, now)
    ensures v.Some? ==> && v.value.plan == GetSubPlan(t, uid)
                        && v.value.group == GetBoundGroup(t, uid)
                        && v.value.left.hours < 24 && v.value.left.minutes < 60
                        && Seconds(v.value.left) <= GetSubEnd(t, uid) - now < Seconds(v.value.left) + SecondsPerMinute
  {
    if !IsSubActive(t, uid, now) then None
    else Some(PlanView(GetSubPlan(t, uid), FmtTimeLeft(GetSubEnd(t, uid), now), GetBoundGroup(t, uid)))
  }

  // ---------------------------------------------------------------- sub buy

  /** The pending transaction `sub buy` stores for the gateway's `data`. */
  function NewTx(planId: string, amount: int, data: map<string, Json>, now: int): Tx {
    Tx(planId, amount,
       Get(data, "transactionId"), Get(data, "accessKey"), Get(data, "paymentUrl"),
       now, Get(data, "expiredAt"),
       if "status" in data then data["status"] else JStr("pending"))
  }

  /** The object `create_qris` returned, when it returned one. */
  function CreatedData(resp: Response): Option<map<string, Json>> {
    var r := DataField(resp);
    if r.Ok? && r.value.JDict? then Some(r.value.fields) else None
  }

  /** The failure of a gateway call as the handler reports it: its own error, or an escaping one. */
  function Failure(e: Exception, report: Detail -> Reply): Reply {
    if e.BTZPayError? then report(e.detail) else Crashed(e)
  }

  /** `sub buy <plan>`, with `parts` the tokens of the callback data. */
  function Buy(t: Table, uid: int, parts: seq<string>, now: int, resp: Response): (s: Step)
    ensures |parts| < 3 || parts[2] !in Plans ==> s == Step(InvalidPlan, t)
    ensures s.reply.PaymentCreated? <==> |parts| >= 3 && parts[2] in Plans && CreatedData(resp).Some?
    ensures !s.reply.PaymentCreated? ==> s.users == t
    ensures |parts| >= 3 && parts[2] in Plans && DataField(resp).Raised? ==>
              s.reply == if DataField(resp).exc.BTZPayError? then CreateFailed(DataField(resp).exc.detail)
                         else Crashed(DataField(resp).exc)
    ensures |parts| >= 3 && parts[2] in Plans && DataField(resp).Ok? && !DataField(resp).value.JDict? ==>
              s == Step(Crashed(AttributeError), t)
    ensures s.reply.PaymentCreated? ==>
              var tx, data := s.reply.tx, CreatedData(resp).value;
              && tx.plan == parts[2]
              && tx.amount == Plans[parts[2]].amount
              && tx.transactionId == Get(data, "transactionId")
              && tx.accessKey == Get(data, "accessKey")
              && tx.paymentUrl == Get(data, "paymentUrl")
              && tx.expiredAt == Get(data, "expiredAt")
              && tx.createdAt == now
              && tx.status == (if "status" in data then data["status"] else JStr("pending"))
              && s.users == WithPendingTx(t, uid, tx)
              && GetPendingTx(s.users, uid) == Some(tx)
  {
    if |parts| < 3 || parts[2] !in Plans then Step(InvalidPlan, t)
    else
      var planId := parts[2];
      match DataField(resp)
      case Raised(e) => Step(Failure(e, d => CreateFailed(d)), t)
      case Ok(data) =>
        if !data.JDict? then Step(Crashed(AttributeError), t)
        else
          var tx := NewTx(planId, Plans[planId].amount, data.fields, now);
          Step(PaymentCreated(tx), WithPendingTx(t, uid, tx))
  }

  // ---------------------------------------------------------------- sub check

  const ClosingStatuses := {"expired", "gagal", "cancel"}

  datatype Verdict = Paid | Closed(word: string) | Open

  /**
   * How `str(info.get("status") or "").lower()` is judged. Only a string can
   * lower-case to one of the status words: `str` of any other JSON value is
   * "", "true", a numeral, or starts with '[' or '{'.
   */
  function StatusVerdict(status: Json): (v: Verdict)
    ensures v == Paid <==> status.JStr? && PyStr.Lower(status.s) == "sukses"
    ensures v.Closed? <==> status.JStr? && PyStr.Lower(status.s) in ClosingStatuses
    ensures v.Closed? ==> v.word == PyStr.Lower(status.s)
  {
    match status
    case JStr(s) =>
      var w := PyStr.Lower(s);
      if w == "sukses" then Paid else if w in ClosingStatuses then Closed(w) else Open
    case _ => Open
  }

  /** The `status` field of what `get_transaction` returned, when it returned an object. */
  function ReportedStatus(resp: Response): Option<Json> {
    var r := DataField(resp);
    if r.Ok? && r.value.JDict? then Some(Get(r.value.fields, "status")) else None
  }

  /** `sub check`. */
  function Check(t: Table, uid: int, now: int, resp: Response): (s: Step)
    ensures GetPendingTx(t, uid).None? ==> s == Step(NothingPending, t)
    ensures s.reply.Activated? || s.reply.Finished? || s.users == t
    ensures GetPendingTx(t, uid).Some? && ReportedStatus(resp).None? ==>
              s.users == t && (s.reply.CheckFailed? || s.reply.Crashed?)
    ensures GetPendingTx(t, uid).Some? && DataField(resp).Raised? ==>
              s.reply == if DataField(resp).exc.BTZPayError? then CheckFailed(DataField(resp).exc.detail)
                         else Crashed(DataField(resp).exc)
    ensures GetPendingTx(t, uid).Some? && DataField(resp).Ok? && !DataField(resp).value.JDict? ==>
              s == Step(Crashed(AttributeError), t)
    ensures GetPendingTx(t, uid).Some? && ReportedStatus(resp).Some? ==>
              var status, plan := ReportedStatus(resp).value, GetPendingTx(t, uid).value.plan;
              match StatusVerdict(status)
              case Paid => s.reply == (if plan in Plans then Activated(plan) else Crashed(KeyError(plan)))
              case Closed(w) => s.reply == Finished(w)
              case Open => s == Step(StillPending(status), t)
    ensures s.reply.Activated? ==>
              && GetPendingTx(t, uid).Some?
              && var plan := GetPendingTx(t, uid).value.plan;
              && plan in Plans && s.reply.plan == plan
              && GetSubPlan(s.users, uid) == plan
              && GetSubEnd(s.users, uid) == now + Plans[plan].days * SecondsPerDay
              && IsSubActive(s.users, uid, now)
              && GetPendingTx(s.users, uid) == None
              && GetBoundGroup(s.users, uid) == GetBoundGroup(t, uid)
              && s.users - {uid} == t - {uid}
              && s.users == WithoutPendingTx(WithSubscription(t, uid, plan, now), uid)
    ensures s.reply.Finished? ==>
              && GetPendingTx(t, uid).Some?
              && GetPendingTx(s.users, uid) == None
              && GetSubEnd(s.users, uid) == GetSubEnd(t, uid)
              && GetSubPlan(s.users, uid) == GetSubPlan(t, uid)
              && GetBoundGroup(s.users, uid) == GetBoundGroup(t, uid)
              && s.users - {uid} == t - {uid}
              && s.users == WithoutPendingTx(t, uid)
  {
    match GetPendingTx(t, uid)
    case None => Step(NothingPending, t)
    case Some(tx) =>
      match DataField(resp)
      case Raised(e) => Step(Failure(e, d => CheckFailed(d)), t)
      case Ok(info) =>
        if !info.JDict? then Step(Crashed(AttributeError), t)
        else
          var status := Get(info.fields, "status");
          match StatusVerdict(status)
          case Paid =>
            if tx.plan !in Plans then Step(Crashed(KeyError(tx.plan)), t)
            else Step(Activated(tx.plan), WithoutPendingTx(WithSubscription(t, uid, tx.plan, now), uid))
          case Closed(w) => Step(Finished(w), WithoutPendingTx(t, uid))
          case Open => Step(StillPending(status), t)
  }

  // ---------------------------------------------------------------- sub cancel

  /** `sub cancel`: the gateway cancel is best effort, a `BTZPayError` from it is ignored. */
  function Cancel(t: Table, uid: int, resp: Response): (s: Step)
    ensures GetPendingTx(t, uid).None? ==> s == Step(NothingPending, t)
    ensures GetPendingTx(t, uid).Some? && (CancelData(resp).Ok? || CancelData(resp).exc.BTZPayError?) ==>
              s == Step(Cancelled, WithoutPendingTx(t, uid)) && GetPendingTx(s.users, uid) == None
    ensures GetPendingTx(t, uid).Some? && CancelData(resp).Raised? && !CancelData(resp).exc.BTZPayError? ==>
              s == Step(Crashed(CancelData(resp).exc), t)
    ensures GetSubEnd(s.users, uid) == GetSubEnd(t, uid) && GetSubPlan(s.users, uid) == GetSubPlan(t, uid)
    ensures GetBoundGroup(s.users, uid) == GetBoundGroup(t, uid) && s.users - {uid} == t - {uid}
  {
    match GetPendingTx(t, uid)
    case None => Step(NothingPending, t)
    case Some(_) =>
      match CancelData(resp)
      case Raised(e) => if e.BTZPayError? then Step(Cancelled, WithoutPendingTx(t, uid)) else Step(Crashed(e), t)
      case Ok(_) => Step(Cancelled, WithoutPendingTx(t, uid))
  }

  // ---------------------------------------------------------------- dispatch

  /** `subscription_callback` for callback data `data`. */
  function Callback(t: Table, uid: int, data: string, now: int, resp: Response): (s: Step)
    ensures var parts := PyStr.Split(data);
            && (|parts| < 2 || parts[1] !in {"buy", "check", "cancel"} ==> s == Step(Ignored, t))
            && (|parts| >= 2 && parts[1] == "buy" ==> s == Buy(t, uid, parts, now, resp))
            && (|parts| >= 2 && parts[1] == "check" ==> s == Check(t, uid, now, resp))
            && (|parts| >= 2 && parts[1] == "cancel" ==> s == Cancel(t, uid, resp))
  {
    var parts := PyStr.Split(data);
    if |parts| < 2 then Step(Ignored, t)
    else if parts[1] == "buy" then Buy(t, uid, parts, now, resp)
    else if parts[1] == "check" then Check(t, uid, now, resp)
    else if parts[1] == "cancel" then Cancel(t, uid, resp)
    else Step(Ignored, t)
  }

  // ---------------------------------------------------------------- bind / unbind

  /** `/bind` sent in chat `chatId`; `publicGroup` is `PUBLIC_MIRROR_GROUP_ID`, 0 when unset. */
  function Bind(t: Table, uid: int, chatId: int, publicGroup: int, now: int): (s: Step)
    ensures !IsSubActive(t, uid, now) ==> s == Step(NotSubscribed, t)
    ensures IsSubActive(t, uid, now) && publicGroup != 0 && chatId == publicGroup ==> s == Step(PublicGroupRefused, t)
    ensures IsSubActive(t, uid, now) && !(publicGroup != 0 && chatId == publicGroup)
            && GetBoundGroup(t, uid).Some? && GetBoundGroup(t, uid).value != chatId ==>
              s == Step(BoundElsewhere(GetBoundGroup(t, uid).value), t)
    ensures s.reply.BoundElsewhere? ==>
              s.users == t && GetBoundGroup(t, uid) == Some(s.reply.current) && s.reply.current != chatId
    ensures s.reply.Bound? <==>
              && IsSubActive(t, uid, now)
              && !(publicGroup != 0 && chatId == publicGroup)
              && (GetBoundGroup(t, uid).None? || GetBoundGroup(t, uid) == Some(chatId))
    ensures s.reply.Bound? ==> s.users == WithGroup(t, uid, chatId) && s.reply.chatId == chatId
    ensures !s.reply.Bound? ==> s.users == t
    ensures GetBoundGroup(t, uid) == Some(chatId) ==> s.users == t
  {
    if !IsSubActive(t, uid, now) then Step(NotSubscribed, t)
    else if publicGroup != 0 && chatId == publicGroup then Step(PublicGroupRefused, t)
    else
      var current := GetBoundGroup(t, uid);
      if current.Some? && current.value != chatId then Step(BoundElsewhere(current.value), t)
      else
        assert current == Some(chatId) ==> t[uid].(subGroup := Some(chatId)) == t[uid];
        Step(Bound(chatId), WithGroup(t, uid, chatId))
  }

  /** `/unbind` in a private chat. */
  function Unbind(t: Table, uid: int, now: int): (s: Step)
    ensures !IsSubActive(t, uid, now) ==> s == Step(NotSubscribed, t)
    ensures IsSubActive(t, uid, now) ==> s.reply == Unbound && GetBoundGroup(s.users, uid) == None
    ensures IsSubActive(t, uid, now) ==> s.users == WithoutGroup(t, uid)
  {
    if !IsSubActive(t, uid, now) then Step(NotSubscribed, t)
    else Step(Unbound, WithoutGroup(t, uid))
  }

  // ---------------------------------------------------------------- properties

  /** A second `sub check` after a successful one finds nothing pending: the payment is applied once. */
  lemma CheckAppliesOnce(t: Table, uid: int, now: int, resp: Response, later: int, resp2: Response)
    requires Check(t, uid, now, resp).reply.Activated?
    ensures var s1 := Check(t, uid, now, resp);
            Check(s1.users, uid, later, resp2) == Step(NothingPending, s1.users)
  {
  }

  /** Binding the same group twice has the effect of binding it once. */
  lemma BindTwice(t: Table, uid: int, chatId: int, publicGroup: int, now: int)
    ensures var s1 := Bind(t, uid, chatId, publicGroup, now);
            Bind(s1.users, uid, chatId, publicGroup, now).users == s1.users
  {
  }

  /** A gateway answer of `{"success": true, "data": fields}`. */
  function GatewayData(fields: map<string, Json>): Response {
    HttpReply(200, "", Some(JDict(map["success" := JBool(true), "data" := JDict(fields)])))
  }

  lemma GatewayDataIsData(fields: map<string, Json>)
    ensures DataField(GatewayData(fields)) == Ok(JDict(fields))
    ensures CreatedData(GatewayData(fields)) == Some(fields)
    ensures ReportedStatus(GatewayData(fields)) == Some(Get(fields, "status"))
  {
    var envelope := map["success" := JBool(true), "data" := JDict(fields)];
    ClassifyAcceptsEnvelope(200, "", envelope);
  }

  lemma SplitBuy7d()
    ensures PyStr.Split("sub buy 7d") == ["sub", "buy", "7d"]
  {
    assert PyStr.IsWord("sub") && PyStr.IsWord("buy") && PyStr.IsWord("7d");
    PyStr.SplitUnsplit(["sub", "buy", "7d"]);
    assert PyStr.Unsplit(["sub", "buy", "7d"]) == "sub buy 7d";
  }

  lemma SplitBuy30d()
    ensures PyStr.Split("sub buy 30d") == ["sub", "buy", "30d"]
  {
    assert PyStr.IsWord("sub") && PyStr.IsWord("buy") && PyStr.IsWord("30d");
    PyStr.SplitUnsplit(["sub", "buy", "30d"]);
    assert PyStr.Unsplit(["sub", "buy", "30d"]) == "sub buy 30d";
  }

  lemma SplitCheck()
    ensures PyStr.Split("sub check") == ["sub", "check"]
  {
    assert PyStr.IsWord("sub") && PyStr.IsWord("check");
    PyStr.SplitUnsplit(["sub", "check"]);
    assert PyStr.Unsplit(["sub", "check"]) == "sub check";
  }

  lemma LowerStatusWords()
    ensures PyStr.Lower("SUKSES") == "sukses"
    ensures PyStr.Lower("expired") == "expired"
  {
  }

  /** `sub buy` answered by the gateway with `created` stores the transaction built from it. */
  lemma BuyScenario(t: Table, uid: int, data: string, planId: string, now: int, created: map<string, Json>)
    requires PyStr.Split(data) == ["sub", "buy", planId] && planId in Plans
    ensures var s := Callback(t, uid, data, now, GatewayData(created));
            && s.reply == PaymentCreated(NewTx(planId, Plans[planId].amount, created, now))
            && s.users == WithPendingTx(t, uid, s.reply.tx)
  {
    GatewayDataIsData(created);
  }

  /** `sub check` answered with `status` when `tx` is pending. */
  lemma CheckScenario(t: Table, uid: int, now: int, tx: Tx, status: Json)
    requires GetPendingTx(t, uid) == Some(tx)
    ensures var s := Callback(t, uid, "sub check", now, GatewayData(map["status" := status]));
            s == Check(t, uid, now, GatewayData(map["status" := status]))
    ensures ReportedStatus(GatewayData(map["status" := status])) == Some(status)
  {
    SplitCheck();
    GatewayDataIsData(map["status" := status]);
  }

  /** `sub check` answered "SUKSES" while `tx` is pending activates the plan of `tx` from `now`. */
  lemma PaidCheckScenario(t: Table, uid: int, now: int, tx: Tx)
    requires GetPendingTx(t, uid) == Some(tx) && tx.plan in Plans
    ensures var s := Callback(t, uid, "sub check", now, GatewayData(map["status" := JStr("SUKSES")]));
            && s.reply == Activated(tx.plan)
            && GetSubEnd(s.users, uid) == now + Plans[tx.plan].days * SecondsPerDay
            && GetPendingTx(s.users, uid) == None
  {
    CheckScenario(t, uid, now, tx, JStr("SUKSES"));
    LowerStatusWords();
    assert StatusVerdict(JStr("SUKSES")) == Paid;
  }

  /**
   * A user without a record buys "7d"; the gateway creates T1; a later check
   * reads "SUKSES". The subscription then runs for seven days from the time
   * of the check (not of the purchase), and nothing is pending.
   */
  lemma PurchaseScenario(t: Table, uid: int, boughtAt: int, checkedAt: int)
    requires uid !in t
    ensures var created := map["transactionId" := JStr("T1"), "accessKey" := JStr("K1"),
                               "paymentUrl" := JStr("U1"), "status" := JStr("pending")];
            var s1 := Callback(t, uid, "sub buy 7d", boughtAt, GatewayData(created));
            var s2 := Callback(s1.users, uid, "sub check", checkedAt, GatewayData(map["status" := JStr("SUKSES")]));
            && GetPendingTx(s1.users, uid).Some?
            && GetPendingTx(s1.users, uid).value.transactionId == JStr("T1")
            && s2.reply == Activated("7d")
            && GetSubEnd(s2.users, uid) == checkedAt + 7 * SecondsPerDay
            && GetPendingTx(s2.users, uid) == None
  {
    var created := map["transactionId" := JStr("T1"), "accessKey" := JStr("K1"),
                       "paymentUrl" := JStr("U1"), "status" := JStr("pending")];
    SplitBuy7d();
    PlanCatalogue();
    BuyScenario(t, uid, "sub buy 7d", "7d", boughtAt, created);
    var s1 := Callback(t, uid, "sub buy 7d", boughtAt, GatewayData(created));
    var tx := NewTx("7d", 12000, created, boughtAt);
    assert tx.transactionId == JStr("T1") && tx.plan == "7d";
    assert GetPendingTx(s1.users, uid) == Some(tx);
    PaidCheckScenario(s1.users, uid, checkedAt, tx);
  }

  /** A purchase whose transaction the gateway reports expired leaves the subscription as it was before the purchase. */
  lemma ExpiredScenario(t: Table, uid: int, boughtAt: int, checkedAt: int, created: map<string, Json>)
    ensures var s1 := Callback(t, uid, "sub buy 30d", boughtAt, GatewayData(created));
            var s2 := Callback(s1.users, uid, "sub check", checkedAt, GatewayData(map["status" := JStr("expired")]));
            && s2.reply == Finished("expired")
            && GetPendingTx(s2.users, uid) == None
            && GetSubEnd(s2.users, uid) == GetSubEnd(t, uid)
            && GetSubPlan(s2.users, uid) == GetSubPlan(t, uid)
  {
    SplitBuy30d();
    BuyScenario(t, uid, "sub buy 30d", "30d", boughtAt, created);
    var s1 := Callback(t, uid, "sub buy 30d", boughtAt, GatewayData(created));
    var tx := NewTx("30d", 25000, created, boughtAt);
    assert GetPendingTx(s1.users, uid) == Some(tx);
    CheckScenario(s1.users, uid, checkedAt, tx, JStr("expired"));
    LowerStatusWords();
    assert StatusVerdict(JStr("expired")) == Closed("expired");
  }

  // ---------------------------------------------------------------- handlers

  /** `subscription_callback`, running the store setters in the source's order. */
  method SubscriptionCallback(store: Store, uid: int, data: string, now: int, resp: Response) returns (reply: Reply)
    modifies store
    ensures Step(reply, store.users) == Callback(old(store.users), uid, data, now, resp)
  {
    var parts := PyStr.Split(data);
    if |parts| < 2 {
      return Ignored;
    }
    var action := parts[1];
    if action == "buy" {
      if |parts| < 3 || parts[2] !in Plans {
        return InvalidPlan;
      }
      var planId := parts[2];
      var plan := Plans[planId];
      var created := DataField(resp);
      if created.Raised? {
        return Failure(created.exc, d => CreateFailed(d));
      }
      if !created.value.JDict? {
        return Crashed(AttributeError);
      }
      var tx := NewTx(planId, plan.amount, created.value.fields, now);
      store.SetPendingTx(uid, tx);
      return PaymentCreated(tx);
    }
    if action == "check" {
      var pending := GetPendingTx(store.users, uid);
      if pending.None? {
        return NothingPending;
      }
      var tx := pending.value;
      var info := DataField(resp);
      if info.Raised? {
        return Failure(info.exc, d => CheckFailed(d));
      }
      if !info.value.JDict? {
        return Crashed(AttributeError);
      }
      var status := Get(info.value.fields, "status");
      var verdict := StatusVerdict(status);
      if verdict == Paid {
        if tx.plan !in Plans {
          return Crashed(KeyError(tx.plan));
        }
        store.SetSubscription(uid, tx.plan, now);
        store.ClearPendingTx(uid);
        return Activated(tx.plan);
      }
      if verdict.Closed? {
        store.ClearPendingTx(uid);
        return Finished(verdict.word);
      }
      return StillPending(status);
    }
    if action == "cancel" {
      var pending := GetPendingTx(store.users, uid);
      if pending.None? {
        return NothingPending;
      }
      var cancelled := CancelData(resp);
      if cancelled.Raised? && !cancelled.exc.BTZPayError? {
        return Crashed(cancelled.exc);
      }
      store.ClearPendingTx(uid);
      return Cancelled;
    }
    return Ignored;
  }

  /** `bind_in_group`. */
  method BindInGroup(store: Store, uid: int, chatId: int, publicGroup: int, now: int) returns (reply: Reply)
    modifies store
    ensures Step(reply, store.users) == Bind(old(store.users), uid, chatId, publicGroup, now)
  {
    if !IsSubActive(store.users, uid, now) {
      return NotSubscribed;
    }
    if publicGroup != 0 && chatId == publicGroup {
      return PublicGroupRefused;
    }
    var current := GetBoundGroup(store.users, uid);
    if current.Some? && current.value != chatId {
      return BoundElsewhere(current.value);
    }
    store.BindGroup(uid, chatId);
    return Bound(chatId);
  }

  /** `unbind_pm`. */
  method UnbindPm(store: Store, uid: int, now: int) returns (reply: Reply)
    modifies store
    ensures Step(reply, store.users) == Unbind(old(store.users), uid, now)
  {
    if !IsSubActive(store.users, uid, now) {
      return NotSubscribed;
    }
    store.UnbindGroup(uid);
    return Unbound;
  }
}
