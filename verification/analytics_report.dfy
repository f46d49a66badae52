/** `GET /api/admin/analytics`: the post-processing of usage aggregates for
    the admin console — joining per-user groups with user details, filling
    in defaults, ordering both tables by request count, and the seven-day
    request trend. The aggregates themselves come from the database. */
module AdminAnalytics {
  import opened Common

  const DefaultPeriodDays: int := 30
  const TrendDays: nat := 7
  /** One day in milliseconds. */
  const DayMs: int := 86400000

  /** One usage record, reduced to what the report reads: who, which model,
      and its creation time `at` in milliseconds. */
  datatype Metric = Metric(userId: string, model: string, at: int)

  /** A per-user aggregate; token sums are None when the database sum is null. */
  datatype UserGroup = UserGroup(userId: string, count: nat,
                                 sumTotal: Option<nat>, sumPrompt: Option<nat>, sumCompletion: Option<nat>)
  datatype ModelGroup = ModelGroup(model: string, count: nat, sumTotal: Option<nat>)

  /** A user row with its possibly-null name and email. */
  datatype UserRow = UserRow(id: string, name: Option<string>, email: Option<string>)

  datatype UserStat = UserStat(userId: string, userName: string, userEmail: string, requestCount: nat,
                               totalTokens: nat, promptTokens: nat, completionTokens: nat)
  datatype ModelStat = ModelStat(model: string, requestCount: nat, totalTokens: nat)
  datatype DayCount = DayCount(dayStart: int, requests: nat)
  datatype Summary = Summary(activeUsers: nat, totalRequests: nat, periodDays: int)

  datatype AnalyticsResponse =
    | Failure(status: nat, error: string)
    | Report(summary: Summary, userStats: seq<UserStat>, modelStats: seq<ModelStat>, dailyTrends: seq<DayCount>)

  function SumOrZero(n: Option<nat>): nat
  {
    if n.Some? then n.value else 0
  }

  /** `users.find(u => u.id === id)`: the first row with that id. */
  function FindUser(users: seq<UserRow>, id: string): (r: Option<UserRow>)
    ensures r.Some? ==> r.value in users && r.value.id == id
    ensures r.None? ==> forall u :: u in users ==> u.id != id
    decreases |users|
  {
    if users == [] then None
    else if users[0].id == id then Some(users[0])
    else FindUser(users[1..], id)
  }

  /** A per-user row of the report: the user's name or `N/A`, email or the
      empty string, and null sums read as 0. */
  function JoinUser(g: UserGroup, users: seq<UserRow>): (s: UserStat)
    ensures s.userId == g.userId && s.requestCount == g.count
    ensures s.totalTokens == SumOrZero(g.sumTotal) && s.promptTokens == SumOrZero(g.sumPrompt)
    ensures s.completionTokens == SumOrZero(g.sumCompletion)
    ensures FindUser(users, g.userId).None? ==> s.userName == "N/A" && s.userEmail == ""
    ensures FindUser(users, g.userId).Some? ==>
              s.userName == OrDefault(FindUser(users, g.userId).value.name, "N/A")
              && s.userEmail == OrDefault(FindUser(users, g.userId).value.email, "")
  {
    var u := FindUser(users, g.userId);
    UserStat(g.userId,
             if u.Some? then OrDefault(u.value.name, "N/A") else "N/A",
             if u.Some? then OrDefault(u.value.email, "") else "",
             g.count, SumOrZero(g.sumTotal), SumOrZero(g.sumPrompt), SumOrZero(g.sumCompletion))
  }

  /** The joined per-user rows, in the order of the groups. */
  function JoinAll(groups: seq<UserGroup>, users: seq<UserRow>): (r: seq<UserStat>)
    ensures |r| == |groups|
    ensures forall i :: 0 <= i < |r| ==> r[i] == JoinUser(groups[i], users)
  {
    seq(|groups|, i requires 0 <= i < |groups| => JoinUser(groups[i], users))
  }

  /** A per-model row of the report, a null token sum read as 0. */
  function FormatModel(g: ModelGroup): ModelStat
  {
    ModelStat(g.model, g.count, SumOrZero(g.sumTotal))
  }

  /** The per-model rows, in the order of the groups. */
  function FormatModels(groups: seq<ModelGroup>): (r: seq<ModelStat>)
    ensures |r| == |groups|
    ensures forall i :: 0 <= i < |r| ==>
              r[i].model == groups[i].model && r[i].requestCount == groups[i].count
              && r[i].totalTokens == SumOrZero(groups[i].sumTotal)
  {
    seq(|groups|, i requires 0 <= i < |groups| => FormatModel(groups[i]))
  }

  /** The sort keys of the two tables. */
  function UserRequests(s: UserStat): nat { s.requestCount }
  function ModelRequests(s: ModelStat): nat { s.requestCount }

  /** Number of metrics created at or after time `from`. */
  function CountSince(ms: seq<Metric>, from: int): (n: nat)
    ensures n <= |ms|
    ensures n == 0 <==> forall i :: 0 <= i < |ms| ==> ms[i].at < from
    decreases |ms|
  {
    if ms == [] then 0 else (if ms[0].at >= from then 1 else 0) + CountSince(ms[1..], from)
  }

  /** The distinct users with a metric created at or after time `from`. */
  function UsersSince(ms: seq<Metric>, from: int): (us: set<string>)
    ensures forall u :: u in us <==> exists i :: 0 <= i < |ms| && ms[i].at >= from && ms[i].userId == u
    decreases |ms|
  {
    if ms == [] then {}
    else
      var rest := UsersSince(ms[1..], from);
      assert forall i :: 1 <= i < |ms| ==> ms[1..][i - 1] == ms[i];
      if ms[0].at >= from then {ms[0].userId} + rest else rest
  }

  /** There are never more active users than requests in the period. */
  lemma {:induction false} ActiveUsersAtMostRequests(ms: seq<Metric>, from: int)
    ensures |UsersSince(ms, from)| <= CountSince(ms, from)
    decreases |ms|
  {
    if ms != [] {
      ActiveUsersAtMostRequests(ms[1..], from);
      var rest := UsersSince(ms[1..], from);
      if ms[0].at >= from {
        assert UsersSince(ms, from) == {ms[0].userId} + rest;
        if ms[0].userId in rest {
          assert {ms[0].userId} + rest == rest;
        }
      }
    }
  }

  /** Number of metrics created in the time range `[lo, hi)`. */
  function CountBetween(ms: seq<Metric>, lo: int, hi: int): (n: nat)
    ensures n <= |ms|
    ensures n == 0 <==> forall i :: 0 <= i < |ms| ==> !(lo <= ms[i].at < hi)
    decreases |ms|
  {
    if ms == [] then 0 else (if lo <= ms[0].at < hi then 1 else 0) + CountBetween(ms[1..], lo, hi)
  }

  /** The records since `lo` are those in `[lo, hi)` and those since `hi`. */
  lemma {:induction false} CountSinceSplit(ms: seq<Metric>, lo: int, hi: int)
    requires lo <= hi
    ensures CountSince(ms, lo) == CountBetween(ms, lo, hi) + CountSince(ms, hi)
    decreases |ms|
  {
    if ms != [] {
      CountSinceSplit(ms[1..], lo, hi);
    }
  }

  /** Adjacent ranges add up. */
  lemma {:induction false} CountBetweenSplit(ms: seq<Metric>, lo: int, mid: int, hi: int)
    requires lo <= mid <= hi
    ensures CountBetween(ms, lo, hi) == CountBetween(ms, lo, mid) + CountBetween(ms, mid, hi)
    decreases |ms|
  {
    if ms != [] {
      CountBetweenSplit(ms[1..], lo, mid, hi);
    }
  }

  /** The request counts of the `k` days starting at time `start`, oldest first. */
  function DaysFrom(ms: seq<Metric>, start: int, k: nat): (ts: seq<DayCount>)
    ensures |ts| == k
    ensures forall i :: 0 <= i < k ==>
              ts[i] == DayCount(start + i * DayMs, CountBetween(ms, start + i * DayMs, start + (i + 1) * DayMs))
  {
    seq(k, i requires 0 <= i < k => DayCount(start + i * DayMs, CountBetween(ms, start + i * DayMs, start + (i + 1) * DayMs)))
  }

  /** The daily trend: the seven days ending with the one that starts at
      `todayStart` (today's midnight), oldest first, each day starting one
      day after the previous. */
  function DailyTrends(ms: seq<Metric>, todayStart: int): (ts: seq<DayCount>)
    ensures |ts| == TrendDays
    ensures ts[TrendDays - 1].dayStart == todayStart
    ensures forall i :: 0 < i < |ts| ==> ts[i].dayStart == ts[i - 1].dayStart + DayMs
  {
    DaysFrom(ms, todayStart - (TrendDays - 1) * DayMs, TrendDays)
  }

  function TotalRequests(ts: seq<DayCount>): nat
  {
    if ts == [] then 0 else TotalRequests(ts[..|ts| - 1]) + ts[|ts| - 1].requests
  }

  lemma {:induction false} DaysFromTotal(ms: seq<Metric>, start: int, k: nat)
    ensures TotalRequests(DaysFrom(ms, start, k)) == CountBetween(ms, start, start + k * DayMs)
  {
    if k > 0 {
      DaysFromTotal(ms, start, k - 1);
      assert DaysFrom(ms, start, k)[..k - 1] == DaysFrom(ms, start, k - 1);
      CountBetweenSplit(ms, start, start + (k - 1) * DayMs, start + k * DayMs);
    } else {
      CountBetweenEmpty(ms, start);
    }
  }

  lemma {:induction false} CountBetweenEmpty(ms: seq<Metric>, t: int)
    ensures CountBetween(ms, t, t) == 0
    decreases |ms|
  {
    if ms != [] {
      CountBetweenEmpty(ms[1..], t);
    }
  }

  /** Every request made from the midnight six days ago up to the end of
      today is counted in exactly one entry of the trend. */
  lemma TrendsCoverLastWeek(ms: seq<Metric>, todayStart: int)
    ensures TotalRequests(DailyTrends(ms, todayStart))
            == CountBetween(ms, todayStart - 6 * DayMs, todayStart + DayMs)
  {
    DaysFromTotal(ms, todayStart - 6 * DayMs, TrendDays);
  }

  /** Ordered by request count, largest first. */
  ghost predicate ByCountDescending<T>(s: seq<T>, count: T -> nat)
  {
    forall i, j :: 0 <= i < j < |s| ==> count(s[i]) >= count(s[j])
  }

  /** `a[..hi]` is ordered by descending count, except that the element
      at `skip` (if inside) is left out of the comparison. */
  ghost predicate DescendingExcept<T>(s: seq<T>, hi: int, skip: int, count: T -> nat)
    requires 0 <= hi <= |s|
  {
    forall p, q :: 0 <= p < q < hi && p != skip && q != skip ==> count(s[p]) >= count(s[q])
  }

  /** Exchange two elements of an array. */
  method Swap<T>(a: array<T>, i: int, j: int)
    requires 0 <= i < a.Length && 0 <= j < a.Length
    modifies a
    ensures a[..] == old(a[..])[i := old(a[j])][j := old(a[i])]
    ensures multiset(a[..]) == multiset(old(a[..]))
  {
    a[i], a[j] := a[j], a[i];
  }

  /** `a.sort((x, y) => count(y) - count(x))`: reorder in place by
      descending count. */
  method SortByCountDescending<T>(a: array<T>, count: T -> nat)
    modifies a
    ensures ByCountDescending(a[..], count)
    ensures multiset(a[..]) == multiset(old(a[..]))
  {
    var i := 0;
    while i < a.Length
      invariant 0 <= i <= a.Length
      invariant DescendingExcept(a[..], i, -1, count)
      invariant multiset(a[..]) == multiset(old(a[..]))
    {
      var j := i;
      while j > 0 && count(a[j - 1]) < count(a[j])
        invariant 0 <= j <= i
        invariant DescendingExcept(a[..], i + 1, j, count)
        invariant forall q :: j < q <= i ==> count(a[j]) > count(a[q])
        invariant multiset(a[..]) == multiset(old(a[..]))
      {
        Swap(a, j - 1, j);
        j := j - 1;
      }
      i := i + 1;
    }
  }

  /** The rows of `s` ordered by descending count, sorted in a fresh array. */
  method SortedByCount<T>(s: seq<T>, count: T -> nat) returns (r: seq<T>)
    ensures ByCountDescending(r, count)
    ensures multiset(r) == multiset(s)
  {
    var a := new T[|s|](i requires 0 <= i < |s| => s[i]);
    assert a[..] == s;
    SortByCountDescending(a, count);
    r := a[..];
  }

  /** The signed-in user, as the session carries it. */
  datatype SessionUser = SessionUser(id: string, role: string)

  /** Only a signed-in user whose role is exactly `ADMIN` may read the report. */
  predicate IsAdmin(session: Option<SessionUser>)
  {
    session.Some? && session.value.id != "" && session.value.role == "ADMIN"
  }

  /** The report. `daysParam` is the `days` query parameter (None when
      absent or empty), `now` the current time and `todayStart` the time of
      today's midnight; `dbFails` says that a database query throws. The
      reporting period starts `days` whole days before `now`. */
  method GetAnalytics(session: Option<SessionUser>, daysParam: Option<int>, now: int, todayStart: int,
                      metrics: seq<Metric>, userGroups: seq<UserGroup>, users: seq<UserRow>,
                      modelGroups: seq<ModelGroup>, dbFails: bool)
    returns (r: AnalyticsResponse)
    ensures !IsAdmin(session) ==> r == Failure(401, "Unauthorized")
    ensures IsAdmin(session) && dbFails ==> r == Failure(500, "Internal server error")
    ensures IsAdmin(session) && !dbFails ==>
              var days := if daysParam.Some? then daysParam.value else DefaultPeriodDays;
              var from := now - days * DayMs;
              && r.Report?
              && r.summary == Summary(|UsersSince(metrics, from)|, CountSince(metrics, from), days)
              && ByCountDescending(r.userStats, UserRequests)
              && multiset(r.userStats) == multiset(JoinAll(userGroups, users))
              && ByCountDescending(r.modelStats, ModelRequests)
              && multiset(r.modelStats) == multiset(FormatModels(modelGroups))
              && r.dailyTrends == DailyTrends(metrics, todayStart)
  {
    if !IsAdmin(session) {
      return Failure(401, "Unauthorized");
    }
    if dbFails {
      return Failure(500, "Internal server error");
    }
    var days := if daysParam.Some? then daysParam.value else DefaultPeriodDays;
    var from := now - days * DayMs;
    var summary := Summary(|UsersSince(metrics, from)|, CountSince(metrics, from), days);
    var userStats := SortedByCount(JoinAll(userGroups, users), UserRequests);
    var modelStats := SortedByCount(FormatModels(modelGroups), ModelRequests);
    r := Report(summary, userStats, modelStats, DailyTrends(metrics, todayStart));
  }
}
