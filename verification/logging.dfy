/** The activity log service: the query that `getActivityLogs` builds from its
    filters, and `logAction` / `logError`, which write one row to
    `activity_logs` and never fail their caller. */
module Logging {
  import opened Values

  // ---------------------------------------------------------------------
  // getActivityLogs: filters to query plan
  // ---------------------------------------------------------------------

  /** The optional filters of `getActivityLogs` (an absent filters object is
      `NoFilters`). */
  datatype Filters = Filters(userId: Option<string>, actionType: Option<string>,
                             limit: Option<int>, offset: Option<int>)

  const NoFilters := Filters(None, None, None, None)

  /** The rows a range covers when no limit is given. */
  const DefaultPageSize := 50

  /** One builder call appended after `select('*').order('timestamp', desc)`. */
  datatype QueryStep = Eq(column: string, value: string) | Limit(count: int) | Range(from: int, to: int)

  /** The builder calls of `getActivityLogs`, in the order they are made. Each
      filter contributes its call only when it is truthy. */
  function Plan(f: Filters): (plan: seq<QueryStep>)
    ensures |plan| <= 4
    ensures forall i :: 0 <= i < |plan| ==>
              plan[i] in {Eq("user_id", f.userId.GetOr("")), Eq("action_type", f.actionType.GetOr("")),
                          Limit(f.limit.GetOr(0)), Range(f.offset.GetOr(0), f.offset.GetOr(0) + PageSize(f) - 1)}
    ensures forall i :: 0 <= i < |plan| - 1 ==> !plan[i].Range?
  {
    UserStep(f) + ActionStep(f) + LimitStep(f) + RangeStep(f)
  }

  // The call each filter contributes, empty when the filter is falsy.

  function UserStep(f: Filters): seq<QueryStep> {
    if Truthy(f.userId) then [Eq("user_id", f.userId.value)] else []
  }

  function ActionStep(f: Filters): seq<QueryStep> {
    if Truthy(f.actionType) then [Eq("action_type", f.actionType.value)] else []
  }

  function LimitStep(f: Filters): seq<QueryStep> {
    if TruthyNumber(f.limit) then [Limit(f.limit.value)] else []
  }

  function RangeStep(f: Filters): seq<QueryStep> {
    if TruthyNumber(f.offset) then [Range(f.offset.value, f.offset.value + PageSize(f) - 1)] else []
  }

  /** The page size `limit || 50` that a range is built from. */
  function PageSize(f: Filters): (n: int)
    ensures TruthyNumber(f.limit) ==> n == f.limit.value
    ensures !TruthyNumber(f.limit) ==> n == DefaultPageSize
  {
    if TruthyNumber(f.limit) then f.limit.value else DefaultPageSize
  }

  /** The filters with every falsy entry dropped: all that the plan can see. */
  function Normalize(f: Filters): (g: Filters)
    ensures g.userId.Some? <==> Truthy(f.userId)
    ensures g.actionType.Some? <==> Truthy(f.actionType)
    ensures g.limit.Some? <==> TruthyNumber(f.limit)
    ensures g.offset.Some? <==> TruthyNumber(f.offset)
  {
    Filters(if Truthy(f.userId) then f.userId else None,
            if Truthy(f.actionType) then f.actionType else None,
            if TruthyNumber(f.limit) then f.limit else None,
            if TruthyNumber(f.offset) then f.offset else None)
  }

  /** The value of the first `eq` on `column`. */
  function EqValue(plan: seq<QueryStep>, column: string): (v: Option<string>)
    ensures v.Some? <==> exists i :: 0 <= i < |plan| && plan[i].Eq? && plan[i].column == column
    ensures v.Some? ==> Eq(column, v.value) in plan
  {
    if plan == [] then None
    else if plan[0].Eq? && plan[0].column == column then Some(plan[0].value)
    else EqValue(plan[1..], column)
  }

  /** The count of the first `limit` call. */
  function LimitValue(plan: seq<QueryStep>): (n: Option<int>)
    ensures n.Some? <==> exists i :: 0 <= i < |plan| && plan[i].Limit?
    ensures n.Some? ==> Limit(n.value) in plan
  {
    if plan == [] then None
    else if plan[0].Limit? then Some(plan[0].count)
    else LimitValue(plan[1..])
  }

  /** The start of the first `range` call. */
  function RangeStart(plan: seq<QueryStep>): (n: Option<int>)
    ensures n.Some? <==> exists i :: 0 <= i < |plan| && plan[i].Range?
    ensures n.Some? ==> exists to :: Range(n.value, to) in plan
  {
    if plan == [] then None
    else if plan[0].Range? then Some(plan[0].from)
    else RangeStart(plan[1..])
  }

  lemma {:induction false} EqValueAppend(a: seq<QueryStep>, b: seq<QueryStep>, column: string)
    ensures EqValue(a + b, column) == if EqValue(a, column).Some? then EqValue(a, column) else EqValue(b, column)
  {
    if a != [] {
      assert (a + b)[1..] == a[1..] + b;
      EqValueAppend(a[1..], b, column);
    } else {
      assert a + b == b;
    }
  }

  lemma {:induction false} LimitValueAppend(a: seq<QueryStep>, b: seq<QueryStep>)
    ensures LimitValue(a + b) == if LimitValue(a).Some? then LimitValue(a) else LimitValue(b)
  {
    if a != [] {
      assert (a + b)[1..] == a[1..] + b;
      LimitValueAppend(a[1..], b);
    } else {
      assert a + b == b;
    }
  }

  lemma {:induction false} RangeStartAppend(a: seq<QueryStep>, b: seq<QueryStep>)
    ensures RangeStart(a + b) == if RangeStart(a).Some? then RangeStart(a) else RangeStart(b)
  {
    if a != [] {
      assert (a + b)[1..] == a[1..] + b;
      RangeStartAppend(a[1..], b);
    } else {
      assert a + b == b;
    }
  }

  /** The filters a plan was built from, as far as it records them. */
  function Recover(plan: seq<QueryStep>): Filters {
    Filters(EqValue(plan, "user_id"), EqValue(plan, "action_type"), LimitValue(plan), RangeStart(plan))
  }

  /** The plan loses nothing but falsy filters: reading it back gives the
      filters with their falsy entries dropped. */
  lemma PlanRoundTrip(f: Filters)
    ensures Recover(Plan(f)) == Normalize(f)
  {
    EqValuesRecovered(f);
    LimitRecovered(f);
    OffsetRecovered(f);
  }

  /** The two `eq` filters read back from the plan. */
  lemma EqValuesRecovered(f: Filters)
    ensures EqValue(Plan(f), "user_id") == Normalize(f).userId
    ensures EqValue(Plan(f), "action_type") == Normalize(f).actionType
  {
    EqValueRecovered(f, "user_id");
    EqValueRecovered(f, "action_type");
  }

  /** The `eq` on one column read back from the plan. */
  lemma EqValueRecovered(f: Filters, column: string)
    requires column == "user_id" || column == "action_type"
    ensures column == "user_id" ==> EqValue(Plan(f), column) == Normalize(f).userId
    ensures column == "action_type" ==> EqValue(Plan(f), column) == Normalize(f).actionType
  {
    var u, a, l, r := UserStep(f), ActionStep(f), LimitStep(f), RangeStep(f);
    assert Plan(f) == u + a + l + r;
    EqValueAppend(u + a + l, r, column);
    EqValueAppend(u + a, l, column);
    EqValueAppend(u, a, column);
  }

  /** The limit read back from the plan. */
  lemma LimitRecovered(f: Filters)
    ensures LimitValue(Plan(f)) == Normalize(f).limit
  {
    var u, a, l, r := UserStep(f), ActionStep(f), LimitStep(f), RangeStep(f);
    assert Plan(f) == u + a + l + r;
    LimitValueAppend(u + a + l, r);
    LimitValueAppend(u + a, l);
    LimitValueAppend(u, a);
  }

  /** The offset read back from the plan. */
  lemma OffsetRecovered(f: Filters)
    ensures RangeStart(Plan(f)) == Normalize(f).offset
  {
    var u, a, l, r := UserStep(f), ActionStep(f), LimitStep(f), RangeStep(f);
    assert Plan(f) == u + a + l + r;
    RangeStartAppend(u + a + l, r);
    RangeStartAppend(u + a, l);
    RangeStartAppend(u, a);
  }

  /** Two filter sets build the same plan exactly when they agree on their
      truthy entries. */
  lemma SamePlanIffSameTruthyFilters(f: Filters, g: Filters)
    ensures Plan(f) == Plan(g) <==> Normalize(f) == Normalize(g)
  {
    if Plan(f) == Plan(g) {
      PlanRoundTrip(f);
      PlanRoundTrip(g);
    }
  }

  /** Each call is made exactly when its filter is truthy: an `eq` on
      `user_id` or `action_type` for a non-empty string, `limit` for a non-zero
      limit, `range` for a non-zero offset. */
  lemma CallsIffTruthy(f: Filters)
    ensures (exists i :: 0 <= i < |Plan(f)| && Plan(f)[i].Eq? && Plan(f)[i].column == "user_id") <==> Truthy(f.userId)
    ensures (exists i :: 0 <= i < |Plan(f)| && Plan(f)[i].Eq? && Plan(f)[i].column == "action_type") <==> Truthy(f.actionType)
    ensures (exists i :: 0 <= i < |Plan(f)| && Plan(f)[i].Limit?) <==> TruthyNumber(f.limit)
    ensures (exists i :: 0 <= i < |Plan(f)| && Plan(f)[i].Range?) <==> TruthyNumber(f.offset)
  {
    PlanRoundTrip(f);
  }

  /** A truthy offset yields a range of exactly `limit || 50` rows, starting at
      the offset and placed after every other call. */
  lemma RangeSpansPageSize(f: Filters)
    requires TruthyNumber(f.offset)
    ensures Plan(f)[|Plan(f)| - 1] == Range(f.offset.value, f.offset.value + PageSize(f) - 1)
    ensures Plan(f)[|Plan(f)| - 1].to - Plan(f)[|Plan(f)| - 1].from + 1 == PageSize(f)
  {
  }

  /** A limit without a (truthy) offset only limits the result. */
  lemma LimitAloneOnlyLimits(n: int)
    requires n != 0
    ensures Plan(Filters(None, None, Some(n), None)) == [Limit(n)]
    ensures Plan(Filters(None, None, Some(n), Some(0))) == [Limit(n)]
  {
  }

  /** Offset 0 is falsy, so it applies no range, and the empty filters or empty
      strings filter nothing. */
  lemma FalsyFiltersBuildNothing()
    ensures Plan(NoFilters) == []
    ensures Plan(Filters(Some(""), Some(""), Some(0), Some(0))) == []
  {
  }

  // ---------------------------------------------------------------------
  // logAction and logError
  // ---------------------------------------------------------------------

  /** A value in a details record. `Missing` is a key whose value is
      `undefined` (an error without a stack). */
  datatype Value = Str(s: string) | Missing | Other(description: string)

  type Details = map<string, Value>

  /** The row inserted into `activity_logs`. The client never knows its IP, so
      `ipAddress` is always absent. */
  datatype LogEntry = LogEntry(userId: Option<string>, actionType: string,
                               details: Option<Details>, ipAddress: Option<string>)

  /** What `supabase.auth.getSession()` gave: the signed-in user's id if any, or
      an exception. */
  datatype SessionLookup = SessionUser(id: Option<string>) | SessionThrew(message: string)

  /** The outcome of the insert: success, an error in the response, or an
      exception. */
  datatype InsertOutcome = Inserted | InsertError(message: string) | InsertThrew(message: string)

  /** How the returned promise settles. */
  datatype Settled = Resolved | Rejected(message: string)

  /** One run of `logAction`: the row handed to the insert, if the run got that
      far, and how the promise settles. */
  datatype LogRun = LogRun(sent: Option<LogEntry>, settled: Settled)

  const ErrorOccurred := "error_occurred"

  /** The user id of the entry: the explicit one when truthy, otherwise the
      session's (the session is consulted only then). */
  function ActingUser(userId: Option<string>, session: SessionLookup): (r: Option<Option<string>>)
    ensures Truthy(userId) ==> r == Some(userId)
    ensures !Truthy(userId) && session.SessionUser? ==> r == Some(session.id)
    ensures r.None? <==> !Truthy(userId) && session.SessionThrew?
  {
    if Truthy(userId) then Some(userId)
    else match session
      case SessionUser(id) => Some(id)
      case SessionThrew(_) => None
  }

  /** `logAction(action, details, userId)`. The whole body sits in a
      `try`/`catch` that only reports to the console, and an insert error is
      reported the same way, so the promise always resolves. */
  function LogAction(action: string, details: Option<Details>, userId: Option<string>,
                     session: SessionLookup, insert: InsertOutcome): (run: LogRun)
    ensures run.settled == Resolved
    ensures run.sent.None? <==> !Truthy(userId) && session.SessionThrew?
    ensures run.sent.Some? ==>
              run.sent.value.actionType == action && run.sent.value.details == details && run.sent.value.ipAddress.None?
    ensures run.sent.Some? && Truthy(userId) ==> run.sent.value.userId == userId
    ensures run.sent.Some? && !Truthy(userId) ==> run.sent.value.userId == session.id
  {
    match ActingUser(userId, session)
    case None => LogRun(None, Resolved)
    case Some(user) =>
      var entry := LogEntry(user, action, details, None);
      match insert
      case Inserted => LogRun(Some(entry), Resolved)
      case InsertError(_) => LogRun(Some(entry), Resolved)
      case InsertThrew(_) => LogRun(Some(entry), Resolved)
  }

  /** The insert's outcome never changes what `logAction` does: failures are
      swallowed, not propagated. */
  lemma InsertOutcomeIrrelevant(action: string, details: Option<Details>, userId: Option<string>,
                                session: SessionLookup, a: InsertOutcome, b: InsertOutcome)
    ensures LogAction(action, details, userId, session, a) == LogAction(action, details, userId, session, b)
  {
  }

  /** With a truthy explicit user id the session plays no part. */
  lemma ExplicitUserIgnoresSession(action: string, details: Option<Details>, userId: Option<string>,
                                   s1: SessionLookup, s2: SessionLookup, insert: InsertOutcome)
    requires Truthy(userId)
    ensures LogAction(action, details, userId, s1, insert) == LogAction(action, details, userId, s2, insert)
  {
  }

  /** The details of `logError`: the message and stack first, then the
      context spread over them, so a context key wins. */
  function ErrorDetails(message: string, stack: Option<string>, context: Option<Details>): (d: Details)
    ensures d.Keys == {"error", "stack"} + (if context.Some? then context.value.Keys else {})
    ensures context.Some? ==> forall k :: k in context.value ==> d[k] == context.value[k]
    ensures (context.None? || "error" !in context.value) ==> d["error"] == Str(message)
    ensures (context.None? || "stack" !in context.value) ==>
              d["stack"] == (if stack.Some? then Str(stack.value) else Missing)
  {
    var base := map["error" := Str(message), "stack" := if stack.Some? then Str(stack.value) else Missing];
    if context.Some? then base + context.value else base
  }

  /** `logError(error, context, userId)`: `logAction` with the error action and
      the merged details. */
  function LogError(message: string, stack: Option<string>, context: Option<Details>, userId: Option<string>,
                    session: SessionLookup, insert: InsertOutcome): (run: LogRun)
    ensures run.settled == Resolved
    ensures run.sent.Some? ==> run.sent.value.actionType == ErrorOccurred
    ensures run.sent.Some? ==> run.sent.value.details == Some(ErrorDetails(message, stack, context))
  {
    LogAction(ErrorOccurred, Some(ErrorDetails(message, stack, context)), userId, session, insert)
  }

  /** A context without `error` or `stack` keeps the error's own message and
      stack and adds its keys; one that names them replaces them. */
  lemma ContextOverridesError(message: string, stack: Option<string>, context: Details)
    ensures "error" in context ==> ErrorDetails(message, stack, Some(context))["error"] == context["error"]
    ensures "error" !in context ==> ErrorDetails(message, stack, Some(context))["error"] == Str(message)
    ensures ErrorDetails(message, stack, None) == map["error" := Str(message),
                                                      "stack" := if stack.Some? then Str(stack.value) else Missing]
  {
  }
}
