/** The dashboard aggregations of app/actions/analytics.ts, read from a `Store`.
    The calendar functions of date-fns are parameters (`Calendar`); so is the
    order in which the database returns the rows of an unordered query. */
module Analytics {
  import opened Common
  import opened Model
  import opened Tables
  import opened Ordering
  import opened Actions

  // ------------------------------------------------------- counting folds

  /** One `[key, count]` pair of the `Record<string, number>` that `reduce` builds. */
  datatype Bucket = Bucket(key: string, count: nat)

  /** One `{ name, value }` entry of a chart. */
  datatype ChartEntry = ChartEntry(name: string, value: nat)

  /** The property names a plain `{}` inherits from `Object.prototype`. Counting
      one of them into `{}` does not give a number: `"__proto__"` never becomes an
      own key, and the others start from the inherited function and turn into
      strings. `Bump` and `Tally` describe the accumulator for every other key. */
  const ObjectPrototypeKeys: set<string> := {
    "__proto__", "constructor", "hasOwnProperty", "isPrototypeOf", "propertyIsEnumerable",
    "toLocaleString", "toString", "valueOf",
    "__defineGetter__", "__defineSetter__", "__lookupGetter__", "__lookupSetter__"}

  /** The statuses and priorities the schemas admit are ordinary keys, so their
      charts count as the accumulator does; only a status stored unchecked by
      `updateTaskStatus` can be one of `ObjectPrototypeKeys`. */
  lemma EnumKeysOrdinary()
    ensures StatusValues !! ObjectPrototypeKeys
    ensures PriorityValues !! ObjectPrototypeKeys
  {
  }

  function Total(b: seq<Bucket>): nat {
    if b == [] then 0 else b[0].count + Total(b[1..])
  }

  /** The count recorded under `k`, summed over every bucket that has that key. */
  function CountFor(b: seq<Bucket>, k: string): nat {
    if b == [] then 0 else (if b[0].key == k then b[0].count else 0) + CountFor(b[1..], k)
  }

  predicate DistinctKeys(b: seq<Bucket>) {
    Distinct(KeysOf(b))
  }

  /** `acc[k] = (acc[k] || 0) + 1`: a key already present is counted once more,
      a new key is appended with count 1. This is the accumulator for keys that are
      not property names of `Object.prototype`; for those a plain `{}` behaves
      differently (see `ObjectPrototypeKeys`). */
  function Bump(acc: seq<Bucket>, k: string): (r: seq<Bucket>)
    ensures Total(r) == Total(acc) + 1
    ensures forall k' :: CountFor(r, k') == CountFor(acc, k') + (if k' == k then 1 else 0)
  {
    if acc == [] then [Bucket(k, 1)]
    else if acc[0].key == k then
      var r := [acc[0].(count := acc[0].count + 1)] + acc[1..];
      assert r[1..] == acc[1..];
      r
    else
      var r := [acc[0]] + Bump(acc[1..], k);
      assert r[1..] == Bump(acc[1..], k);
      r
  }

  /** Bumping keeps the keys in place and appends `k` when it is new. */
  lemma {:induction false} BumpKeys(acc: seq<Bucket>, k: string)
    ensures KeysOf(Bump(acc, k)) == if k in KeysOf(acc) then KeysOf(acc) else KeysOf(acc) + [k]
  {
    if acc != [] {
      assert KeysOf(acc) == [acc[0].key] + KeysOf(acc[1..]);
      if acc[0].key != k {
        BumpKeys(acc[1..], k);
        assert k in KeysOf(acc) <==> k in KeysOf(acc[1..]);
      }
    }
  }

  lemma {:induction false} BumpPositive(acc: seq<Bucket>, k: string)
    requires forall i | 0 <= i < |acc| :: acc[i].count >= 1
    ensures forall i | 0 <= i < |Bump(acc, k)| :: Bump(acc, k)[i].count >= 1
  {
    if acc != [] && acc[0].key != k {
      BumpPositive(acc[1..], k);
      assert forall i | 0 < i < |Bump(acc, k)| :: Bump(acc, k)[i] == Bump(acc[1..], k)[i - 1];
    }
  }

  function KeysOf(b: seq<Bucket>): (r: seq<string>)
    ensures |r| == |b| && forall i | 0 <= i < |b| :: r[i] == b[i].key
  {
    if b == [] then [] else [b[0].key] + KeysOf(b[1..])
  }

  /** `keys.reduce((acc, k) => { acc[k] = (acc[k] || 0) + 1; return acc }, {})`,
      for keys outside `ObjectPrototypeKeys`. */
  function Tally(keys: seq<string>): (r: seq<Bucket>)
    ensures DistinctKeys(r)
    ensures forall i | 0 <= i < |r| :: r[i].count >= 1
    ensures forall k :: CountFor(r, k) == multiset(keys)[k]
    ensures Total(r) == |keys|
  {
    if keys == [] then []
    else
      var n := |keys| - 1;
      assert keys == keys[..n] + [keys[n]];
      var acc := Tally(keys[..n]);
      BumpPositive(acc, keys[n]);
      assert DistinctKeys(Bump(acc, keys[n])) by {
        BumpKeys(acc, keys[n]);
        if keys[n] !in KeysOf(acc) {
          DistinctAppend(KeysOf(acc), keys[n]);
        }
      }
      Bump(acc, keys[n])
  }

  lemma {:induction false} CountOfBucket(b: seq<Bucket>, i: nat)
    requires DistinctKeys(b) && i < |b|
    ensures CountFor(b, b[i].key) == b[i].count
  {
    assert KeysOf(b) == [b[0].key] + KeysOf(b[1..]);
    if i == 0 {
      forall j | 0 <= j < |b[1..]| ensures b[1..][j].key != b[0].key {
        assert KeysOf(b)[j + 1] == b[1..][j].key;
      }
      ZeroCount(b[1..], b[0].key);
    } else {
      DistinctTail(KeysOf(b));
      CountOfBucket(b[1..], i - 1);
    }
  }

  lemma {:induction false} ZeroCount(b: seq<Bucket>, k: string)
    requires forall i | 0 <= i < |b| :: b[i].key != k
    ensures CountFor(b, k) == 0
  {
    if b != [] {
      ZeroCount(b[1..], k);
    }
  }

  lemma {:induction false} BucketFor(b: seq<Bucket>, k: string)
    requires CountFor(b, k) > 0
    ensures exists i | 0 <= i < |b| :: b[i].key == k
  {
    if b[0].key != k {
      BucketFor(b[1..], k);
      var i :| 0 <= i < |b[1..]| && b[1..][i].key == k;
      assert b[i + 1].key == k;
    }
  }

  /** The tally has exactly one bucket per distinct key, holding the number of
      times that key occurs. */
  lemma TallyBuckets(keys: seq<string>)
    ensures forall i | 0 <= i < |Tally(keys)| :: Tally(keys)[i].count == multiset(keys)[Tally(keys)[i].key]
    ensures forall i | 0 <= i < |Tally(keys)| :: Tally(keys)[i].key in keys
    ensures forall k | k in keys :: exists i | 0 <= i < |Tally(keys)| :: Tally(keys)[i].key == k
    ensures |Tally(keys)| == |set k | k in keys|
  {
    var b := Tally(keys);
    forall i | 0 <= i < |b| ensures b[i].count == multiset(keys)[b[i].key] && b[i].key in keys {
      CountOfBucket(b, i);
    }
    forall k | k in keys ensures exists i | 0 <= i < |b| :: b[i].key == k {
      assert k in multiset(keys);
      BucketFor(b, k);
    }
    var ks := KeysOf(b);
    forall x ensures x in ks <==> x in set k | k in keys {
      if x in keys {
        assert x in multiset(keys);
        BucketFor(b, x);
      }
    }
    EnumerationSize(ks, set k | k in keys);
  }

  /** One chart entry per bucket, named by `nameOf`. */
  function Chart(b: seq<Bucket>, nameOf: string -> string): (r: seq<ChartEntry>)
    ensures |r| == |b|
    ensures forall i | 0 <= i < |b| :: r[i] == ChartEntry(nameOf(b[i].key), b[i].count)
    ensures Sum(r) == Total(b)
  {
    if b == [] then [] else [ChartEntry(nameOf(b[0].key), b[0].count)] + Chart(b[1..], nameOf)
  }

  function Sum(r: seq<ChartEntry>): nat {
    if r == [] then 0 else r[0].value + Sum(r[1..])
  }

  /** The column `f` of the rows of a query. */
  function Column<T>(rows: seq<T>, f: T -> string): (r: seq<string>)
    ensures |r| == |rows| && forall i | 0 <= i < |rows| :: r[i] == f(rows[i])
  {
    if rows == [] then [] else [f(rows[0])] + Column(rows[1..], f)
  }

  /** The rows of `s` whose column `f` holds `k`. */
  function Matching<T>(s: set<T>, f: T -> string, k: string): set<T> {
    set x | x in s && f(x) == k
  }

  /** In a query's rows, a key occurs in the column as often as there are rows with it. */
  lemma {:induction false} ColumnCount<T(!new)>(rows: seq<T>, s: set<T>, f: T -> string, k: string)
    requires Enumerates(rows, s)
    ensures multiset(Column(rows, f))[k] == |Matching(s, f, k)|
    decreases |rows|
  {
    if rows == [] {
      assert Matching(s, f, k) == {} by {
        assert forall x :: x !in s;
      }
    } else {
      EnumeratesTail(rows, s);
      ColumnCount(rows[1..], s - {rows[0]}, f, k);
      assert Column(rows, f) == [f(rows[0])] + Column(rows[1..], f);
      MatchingSplit(s, rows[0], f, k);
    }
  }

  lemma MatchingSplit<T>(s: set<T>, x: T, f: T -> string, k: string)
    requires x in s
    ensures |Matching(s, f, k)| == |Matching(s - {x}, f, k)| + if f(x) == k then 1 else 0
  {
    if f(x) == k {
      assert Matching(s, f, k) == Matching(s - {x}, f, k) + {x};
    } else {
      assert Matching(s, f, k) == Matching(s - {x}, f, k);
    }
  }

  lemma EnumeratesTail<T(!new)>(rows: seq<T>, s: set<T>)
    requires Enumerates(rows, s) && rows != []
    ensures Enumerates(rows[1..], s - {rows[0]})
  {
    var rest := rows[1..];
    forall i, j | 0 <= i < j < |rest| ensures rest[i] != rest[j] {
      assert rest[i] == rows[i + 1] && rest[j] == rows[j + 1];
    }
    forall x ensures x in rest <==> x in s - {rows[0]} {
      if x in rest {
        var j :| 0 <= j < |rest| && rest[j] == x;
        assert rows[j + 1] == x;
      }
      if x in s && x != rows[0] {
        var j :| 0 <= j < |rows| && rows[j] == x;
        assert rest[j - 1] == x;
      }
    }
  }

  /** The distinct values of column `f` among the rows of `s`. */
  function Keys<T>(s: set<T>, f: T -> string): set<string> {
    set x | x in s :: f(x)
  }

  /** `r` charts the rows of `s` by their column `f`, with `ks` the keys in the
      order of the entries: one entry per distinct key, named `nameOf(key)` and
      valued by the number of rows with that key, the values adding up to the
      number of rows. */
  ghost predicate ChartedBy<T(!new)>(r: seq<ChartEntry>, ks: seq<string>, s: set<T>, f: T -> string,
                                      nameOf: string -> string) {
    && Enumerates(ks, Keys(s, f))
    && |r| == |ks| == |Keys(s, f)|
    && (forall i | 0 <= i < |r| :: r[i] == ChartEntry(nameOf(ks[i]), |Matching(s, f, ks[i])|))
    && Sum(r) == |s|
  }

  ghost predicate Charts<T(!new)>(r: seq<ChartEntry>, s: set<T>, f: T -> string, nameOf: string -> string) {
    exists ks :: ChartedBy(r, ks, s, f, nameOf)
  }

  /** `Object.entries(rows.reduce(...)).map(...)` over the rows of a query, listed
      in the database's order. */
  function Distribution<T(!new)>(rows: seq<T>, ghost s: set<T>, f: T -> string, nameOf: string -> string)
    : (r: seq<ChartEntry>)
    requires Enumerates(rows, s)
    ensures Charts(r, s, f, nameOf)
  {
    var b := Tally(Column(rows, f));
    var r := Chart(b, nameOf);
    DistributionCharted(rows, s, f, nameOf);
    assert ChartedBy(r, KeysOf(b), s, f, nameOf);
    r
  }

  lemma DistributionCharted<T(!new)>(rows: seq<T>, s: set<T>, f: T -> string, nameOf: string -> string)
    requires Enumerates(rows, s)
    ensures var b := Tally(Column(rows, f)); ChartedBy(Chart(b, nameOf), KeysOf(b), s, f, nameOf)
  {
    var keys := Column(rows, f);
    var b := Tally(keys);
    var ks := KeysOf(b);
    var r := Chart(b, nameOf);
    TallyBuckets(keys);
    KeySet(rows, s, f);
    EnumerationSize(rows, s);
    assert Distinct(ks);
    assert Enumerates(ks, Keys(s, f));
    EnumerationSize(ks, Keys(s, f));
    forall i | 0 <= i < |r| ensures r[i] == ChartEntry(nameOf(ks[i]), |Matching(s, f, ks[i])|) {
      ColumnCount(rows, s, f, b[i].key);
    }
  }

  lemma KeySet<T(!new)>(rows: seq<T>, s: set<T>, f: T -> string)
    requires Enumerates(rows, s)
    ensures (set k | k in Column(rows, f)) == Keys(s, f)
  {
    var keys := Column(rows, f);
    forall k | k in keys ensures k in Keys(s, f) {
      var i :| 0 <= i < |keys| && keys[i] == k;
      assert rows[i] in rows;
    }
    forall x | x in s ensures f(x) in keys {
      var i :| 0 <= i < |rows| && rows[i] == x;
      assert keys[i] == f(x);
    }
  }

  function StatusOf(t: Task): string { t.status }
  function PriorityOf(t: Task): string { t.priority }

  /** The chart name of a status: every status other than "todo" and
      "in-progress" is shown as "Completed". */
  function StatusLabel(status: string): (l: string)
    ensures l == "To Do" <==> status == "todo"
    ensures l == "In Progress" <==> status == "in-progress"
    ensures l == "Completed" <==> status != "todo" && status != "in-progress"
  {
    if status == "todo" then "To Do"
    else if status == "in-progress" then "In Progress"
    else "Completed"
  }

  /** `toUpperCase` on one character, for the ASCII letters. */
  function UpperChar(c: char): (u: char)
    ensures 'a' <= c <= 'z' ==> 'A' <= u <= 'Z' && u as int - 'A' as int == c as int - 'a' as int
    ensures !('a' <= c <= 'z') ==> u == c
  {
    if 'a' <= c <= 'z' then (c as int - 32) as char else c
  }

  /** `s.charAt(0).toUpperCase() + s.slice(1)`. */
  function Capitalize(s: string): (r: string)
    ensures |r| == |s|
    ensures s != "" ==> r[0] == UpperChar(s[0]) && r[1..] == s[1..]
  {
    if s == "" then "" else [UpperChar(s[0])] + s[1..]
  }

  /** `getTaskStatusDistribution`, given the rows of its `findMany` in the order
      the database returns them: the caller's tasks charted by status. */
  function TaskStatusDistribution(store: Store, rows: seq<Task>, storageFails: bool): (r: seq<ChartEntry>)
    reads store
    requires store.CurrentUserId().Some? ==>
               Enumerates(rows, OwnedTasks(store.projects, store.tasks, store.CurrentUserId().value))
    ensures store.CurrentUserId().None? || storageFails ==> r == []
    ensures store.CurrentUserId().Some? && !storageFails ==>
              Charts(r, OwnedTasks(store.projects, store.tasks, store.CurrentUserId().value), StatusOf, StatusLabel)
    ensures forall i | 0 <= i < |r| :: r[i].name in {"To Do", "In Progress", "Completed"}
  {
    if store.CurrentUserId().None? || storageFails then []
    else
      var owned := OwnedTasks(store.projects, store.tasks, store.CurrentUserId().value);
      var r := Distribution(rows, owned, StatusOf, StatusLabel);
      StatusNames(owned, r);
      r
  }

  lemma StatusNames(owned: set<Task>, r: seq<ChartEntry>)
    requires Charts(r, owned, StatusOf, StatusLabel)
    ensures forall i | 0 <= i < |r| :: r[i].name in {"To Do", "In Progress", "Completed"}
  {
    var ks :| ChartedBy(r, ks, owned, StatusOf, StatusLabel);
    forall i | 0 <= i < |r| ensures r[i].name in {"To Do", "In Progress", "Completed"} {
      assert r[i].name == StatusLabel(ks[i]);
    }
  }

  /** `getTaskPriorityDistribution`, given the rows of its `findMany`: the caller's
      tasks charted by priority. Every priority is one of the three levels, so the
      names are "Low", "Medium" and "High". */
  function TaskPriorityDistribution(store: Store, rows: seq<Task>, storageFails: bool): (r: seq<ChartEntry>)
    reads store
    requires store.Valid()
    requires store.CurrentUserId().Some? ==>
               Enumerates(rows, OwnedTasks(store.projects, store.tasks, store.CurrentUserId().value))
    ensures store.CurrentUserId().None? || storageFails ==> r == []
    ensures store.CurrentUserId().Some? && !storageFails ==>
              Charts(r, OwnedTasks(store.projects, store.tasks, store.CurrentUserId().value), PriorityOf, Capitalize)
    ensures forall i | 0 <= i < |r| :: r[i].name in {"Low", "Medium", "High"}
  {
    if store.CurrentUserId().None? || storageFails then []
    else
      var owned := OwnedTasks(store.projects, store.tasks, store.CurrentUserId().value);
      var r := Distribution(rows, owned, PriorityOf, Capitalize);
      PriorityNames(owned, r);
      r
  }

  lemma PriorityNames(owned: set<Task>, r: seq<ChartEntry>)
    requires forall t | t in owned :: t.priority in PriorityValues
    requires Charts(r, owned, PriorityOf, Capitalize)
    ensures forall i | 0 <= i < |r| :: r[i].name in {"Low", "Medium", "High"}
  {
    var ks :| ChartedBy(r, ks, owned, PriorityOf, Capitalize);
    forall i | 0 <= i < |r| ensures r[i].name in {"Low", "Medium", "High"} {
      assert ks[i] in Keys(owned, PriorityOf);
      var x :| x in owned && x.priority == ks[i];
      PriorityLevelName(x.priority);
    }
  }

  lemma PriorityLevelName(p: string)
    requires p in PriorityValues
    ensures Capitalize(p) in {"Low", "Medium", "High"}
  {
    if p == "low" {
      assert Capitalize(p) == "Low";
    } else if p == "medium" {
      assert Capitalize(p) == "Medium";
    } else {
      assert Capitalize(p) == "High";
    }
  }

  // ------------------------------------------------------- weekly counts

  /** The date-fns functions the week windows are computed with, on millisecond timestamps. */
  datatype Calendar = Calendar(startOfWeek: int -> int, endOfWeek: int -> int, subWeeks: (int, nat) -> int)

  datatype WeekEntry = WeekEntry(name: string, tasks: nat)

  /** The completed tasks among `owned` last updated between `start` and `end`, inclusive. */
  function CompletedIn(owned: set<Task>, start: int, end: int): set<Task> {
    set t | t in owned && t.status == "completed" && start <= t.updatedAt <= end
  }

  /** The end of the `i`-th week back: `now` for the current week. */
  function WeekEnd(cal: Calendar, now: int, i: nat): int {
    if i == 0 then now else cal.endOfWeek(cal.subWeeks(now, i))
  }

  function WeekStart(cal: Calendar, now: int, i: nat): int {
    cal.startOfWeek(WeekEnd(cal, now, i))
  }

  /** The entry for the week `k` weeks back, when `weeks` are charted. */
  function WeekRow(owned: set<Task>, cal: Calendar, now: int, weeks: nat, k: nat): WeekEntry
    requires k < weeks
  {
    WeekEntry("Week " + NatToString(weeks - k), |CompletedIn(owned, WeekStart(cal, now, k), WeekEnd(cal, now, k))|)
  }

  /** The entries of the `i` most recent weeks, oldest first. */
  function RecentWeeks(owned: set<Task>, cal: Calendar, now: int, weeks: nat, i: nat): (r: seq<WeekEntry>)
    requires i <= weeks
    ensures |r| == i
    ensures forall j | 0 <= j < i :: r[j] == WeekRow(owned, cal, now, weeks, i - 1 - j)
  {
    if i == 0 then []
    else
      var rest := RecentWeeks(owned, cal, now, weeks, i - 1);
      var r := [WeekRow(owned, cal, now, weeks, i - 1)] + rest;
      assert forall j | 1 <= j < i :: r[j] == rest[j - 1] == WeekRow(owned, cal, now, weeks, i - 1 - j);
      r
  }

  /** Week `j` of the chart, counting from the oldest, is labelled "Week j+1". */
  lemma RecentWeeksLabels(owned: set<Task>, cal: Calendar, now: int, weeks: nat)
    ensures forall j | 0 <= j < weeks ::
              && RecentWeeks(owned, cal, now, weeks, weeks)[j].name == "Week " + NatToString(j + 1)
              && RecentWeeks(owned, cal, now, weeks, weeks)[j].tasks
                 == |CompletedIn(owned, WeekStart(cal, now, weeks - 1 - j), WeekEnd(cal, now, weeks - 1 - j))|
  {
    var r := RecentWeeks(owned, cal, now, weeks, weeks);
    forall j | 0 <= j < weeks
      ensures r[j].name == "Week " + NatToString(j + 1)
      ensures r[j].tasks == |CompletedIn(owned, WeekStart(cal, now, weeks - 1 - j), WeekEnd(cal, now, weeks - 1 - j))|
    {
      assert r[j] == WeekRow(owned, cal, now, weeks, weeks - 1 - j);
      assert weeks - (weeks - 1 - j) == j + 1;
    }
  }

  /** `getWeeklyTaskCompletion(weeks)`: one entry per week, oldest first; by
      `RecentWeeksLabels` they are labelled "Week 1" to "Week n", each counting the
      tasks completed in that week. */
  method WeeklyTaskCompletion(store: Store, weeks: int, now: int, cal: Calendar, storageFails: bool)
    returns (r: seq<WeekEntry>)
    ensures store.CurrentUserId().None? || storageFails ==> r == []
    ensures store.CurrentUserId().Some? && !storageFails ==> |r| == if weeks > 0 then weeks else 0
    ensures store.CurrentUserId().Some? && !storageFails && weeks > 0 ==>
              r == RecentWeeks(OwnedTasks(store.projects, store.tasks, store.CurrentUserId().value), cal, now, weeks, weeks)
  {
    var uid := store.CurrentUserId();
    if uid.None? || storageFails || weeks <= 0 {
      return [];
    }
    var owned := OwnedTasks(store.projects, store.tasks, uid.value);
    r := [];
    var i := 0;
    while i < weeks
      invariant i <= weeks
      invariant r == RecentWeeks(owned, cal, now, weeks, i)
    {
      var endDate := if i == 0 then now else cal.endOfWeek(cal.subWeeks(now, i));
      var startDate := cal.startOfWeek(endDate);
      assert startDate == WeekStart(cal, now, i) && endDate == WeekEnd(cal, now, i);
      var completed := |CompletedIn(owned, startDate, endDate)|;
      ghost var row := WeekRow(owned, cal, now, weeks, i);
      assert WeekEntry("Week " + NatToString(weeks - i), completed) == row;
      assert RecentWeeks(owned, cal, now, weeks, i + 1) == [row] + r;
      r := [WeekEntry("Week " + NatToString(weeks - i), completed)] + r;
      i := i + 1;
    }
  }

  // ------------------------------------------------------ productivity

  /** The counts of `getProductivitySummary`; `averageCompletionTime` is not modelled. */
  datatype Summary = Summary(completedTasks: nat, totalTasks: nat, tasksThisWeek: nat, tasksLastWeek: nat)

  function ProductivitySummary(store: Store, now: int, cal: Calendar, storageFails: bool): (s: Summary)
    reads store
    ensures store.CurrentUserId().None? || storageFails ==> s == Summary(0, 0, 0, 0)
    ensures s.completedTasks <= s.totalTasks
    ensures s.tasksThisWeek <= s.completedTasks && s.tasksLastWeek <= s.completedTasks
    ensures store.CurrentUserId().Some? && !storageFails ==>
              var owned := OwnedTasks(store.projects, store.tasks, store.CurrentUserId().value);
              && s.totalTasks == |owned|
              && s.completedTasks == |set t | t in owned && t.status == "completed"|
              && s.tasksThisWeek == |CompletedIn(owned, cal.startOfWeek(now), now)|
              && s.tasksLastWeek == |CompletedIn(owned, cal.startOfWeek(cal.subWeeks(now, 1)),
                                                        cal.endOfWeek(cal.subWeeks(now, 1)))|
  {
    if store.CurrentUserId().None? || storageFails then Summary(0, 0, 0, 0)
    else
      var owned := OwnedTasks(store.projects, store.tasks, store.CurrentUserId().value);
      var completed := set t | t in owned && t.status == "completed";
      var thisWeek := CompletedIn(owned, cal.startOfWeek(now), now);
      var lastWeek := CompletedIn(owned, cal.startOfWeek(cal.subWeeks(now, 1)), cal.endOfWeek(cal.subWeeks(now, 1)));
      SubsetSize(completed, owned);
      SubsetSize(thisWeek, completed);
      SubsetSize(lastWeek, completed);
      Summary(|completed|, |owned|, |thisWeek|, |lastWeek|)
  }

  lemma SubsetSize<T>(a: set<T>, b: set<T>)
    requires a <= b
    ensures |a| <= |b|
  {
    assert b == a + (b - a);
  }

  // --------------------------------------------------- recent activities

  datatype ActivityKind = UpdateProject | UpdateTask | CompleteTask

  datatype Activity = Activity(
    id: string,
    kind: ActivityKind,
    entityName: string,
    timestamp: int,
    userId: UserId,
    userName: string)

  function Timestamp(a: Activity): int { a.timestamp }

  /** `user.name || user.email`. */
  function DisplayName(u: PublicUser): (n: string)
    ensures u.name != "" ==> n == u.name
    ensures u.name == "" ==> n == u.email
  {
    if u.name != "" then u.name else u.email
  }

  function ProjectActivity(p: Project, u: PublicUser): Activity {
    Activity("project-" + p.id, UpdateProject, p.name, p.updatedAt, u.id, DisplayName(u))
  }

  function TaskActivity(t: Task, u: PublicUser): Activity {
    Activity("task-" + t.id, if t.status == "completed" then CompleteTask else UpdateTask,
             t.title, t.updatedAt, u.id, DisplayName(u))
  }

  /** A task activity is a completion exactly when the task is completed, the two
      kinds of activity carry distinct id prefixes, and so never share an id. */
  lemma ActivityIds(p: Project, t: Task, u: PublicUser)
    ensures TaskActivity(t, u).kind == CompleteTask <==> t.status == "completed"
    ensures ProjectActivity(p, u).kind == UpdateProject
    ensures ProjectActivity(p, u).id[..8] == "project-" && ProjectActivity(p, u).id[8..] == p.id
    ensures TaskActivity(t, u).id[..5] == "task-" && TaskActivity(t, u).id[5..] == t.id
    ensures ProjectActivity(p, u).id != TaskActivity(t, u).id
  {
    assert ProjectActivity(p, u).id[0] == 'p';
    assert TaskActivity(t, u).id[0] == 't';
  }

  /** The project activities followed by the task activities. */
  function Activities(u: PublicUser, projects: seq<Project>, tasks: seq<Task>): (r: seq<Activity>)
    ensures |r| == |projects| + |tasks|
    ensures forall i | 0 <= i < |projects| :: r[i] == ProjectActivity(projects[i], u)
    ensures forall i | 0 <= i < |tasks| :: r[|projects| + i] == TaskActivity(tasks[i], u)
    ensures forall a | a in r :: a.userId == u.id && a.userName == DisplayName(u)
  {
    seq(|projects|, i requires 0 <= i < |projects| => ProjectActivity(projects[i], u))
      + seq(|tasks|, i requires 0 <= i < |tasks| => TaskActivity(tasks[i], u))
  }

  /** `activities.sort((a, b) => b.timestamp - a.timestamp).slice(0, limit)`. */
  function Feed(u: PublicUser, projects: seq<Project>, tasks: seq<Task>, limit: int): (r: seq<Activity>)
    ensures DescendingBy(r, Timestamp)
    ensures multiset(r) <= multiset(Activities(u, projects, tasks))
    ensures |r| <= |projects| + |tasks|
    ensures 0 <= limit ==> |r| <= limit
    ensures 0 <= limit ==> |r| == if limit < |projects| + |tasks| then limit else |projects| + |tasks|
    ensures limit < 0 ==> |r| == if |projects| + |tasks| + limit > 0 then |projects| + |tasks| + limit else 0
    ensures limit >= |projects| + |tasks| ==> multiset(r) == multiset(Activities(u, projects, tasks))
    ensures forall x, y | x in r && y in multiset(Activities(u, projects, tasks)) - multiset(r) ::
              x.timestamp >= y.timestamp
    ensures forall a | a in r :: a.userId == u.id && a.userName == DisplayName(u)
  {
    var all := Activities(u, projects, tasks);
    var sorted := SortDesc(all, Timestamp);
    assert |sorted| == |projects| + |tasks|;
    var r := SliceTo(sorted, limit);
    PrefixOf(sorted, r, Timestamp);
    forall a | a in r ensures a.userId == u.id && a.userName == DisplayName(u) {
      assert a in multiset(all);
    }
    r
  }

  /** `project.findMany({ where: { userId }, orderBy: { updatedAt: "desc" }, take: 5 })`. */
  ghost function RecentProjects(projects: map<ProjectId, Project>, uid: UserId): (r: seq<Project>)
    ensures var owned := OwnedProjects(projects, uid);
            && |r| == (if 5 < |owned| then 5 else |owned|)
            && Distinct(r) && DescendingBy(r, ProjectUpdatedAt) && (forall p | p in r :: p in owned)
            && forall x, y | x in r && y in owned && y !in r :: x.updatedAt >= y.updatedAt
  {
    var owned := OwnedProjects(projects, uid);
    TakeOfListing(Listing(owned, ProjectUpdatedAt), owned, ProjectUpdatedAt, 5);
    Take(Listing(owned, ProjectUpdatedAt), 5)
  }

  /** `task.findMany({ where: { project: { userId } }, orderBy: { updatedAt: "desc" }, take: 5 })`. */
  ghost function RecentTasks(projects: map<ProjectId, Project>, tasks: map<TaskId, Task>, uid: UserId): (r: seq<Task>)
    ensures var owned := OwnedTasks(projects, tasks, uid);
            && |r| == (if 5 < |owned| then 5 else |owned|)
            && Distinct(r) && DescendingBy(r, TaskUpdatedAt) && (forall t | t in r :: t in owned)
            && forall x, y | x in r && y in owned && y !in r :: x.updatedAt >= y.updatedAt
  {
    var owned := OwnedTasks(projects, tasks, uid);
    TakeOfListing(Listing(owned, TaskUpdatedAt), owned, TaskUpdatedAt, 5);
    Take(Listing(owned, TaskUpdatedAt), 5)
  }

  /** `getRecentActivities(limit)`: the five most recently updated projects and
      tasks of the caller, merged newest first, cut at `limit`. */
  ghost function GetRecentActivities(store: Store, limit: int, storageFails: bool): (r: seq<Activity>)
    reads store
    ensures store.CurrentUserId().None? || storageFails ==> r == []
    ensures |r| <= 10
    ensures 0 <= limit ==> |r| <= limit
    ensures DescendingBy(r, Timestamp)
    ensures store.CurrentUserId().Some? && !storageFails ==>
              var uid := store.CurrentUserId().value;
              var n := |RecentProjects(store.projects, uid)| + |RecentTasks(store.projects, store.tasks, uid)|;
              var all := Activities(store.GetCurrentUser(false).value,
                                    RecentProjects(store.projects, uid), RecentTasks(store.projects, store.tasks, uid));
              && multiset(r) <= multiset(all)
              && (0 <= limit ==> |r| == if limit < n then limit else n)
              && (limit < 0 ==> |r| == if n + limit > 0 then n + limit else 0)
              && (forall x, y | x in r && y in multiset(all) - multiset(r) :: x.timestamp >= y.timestamp)
              && forall a | a in r :: a.userId == uid
  {
    if store.CurrentUserId().None? || storageFails then []
    else
      var uid := store.CurrentUserId().value;
      Feed(store.GetCurrentUser(false).value, RecentProjects(store.projects, uid),
           RecentTasks(store.projects, store.tasks, uid), limit)
  }
}
