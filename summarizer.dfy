/** The sprint metrics derivation of the summarizer service: the structured
    record built from one sprint's task list (counts, blocker and highlight
    titles, velocity) and the velocity trend over the historical sprints
    followed by the current one. The task lists are the ones the service
    fetches; fetching them is not part of this model. */
module Summarizer {
  import opened JsNumber

  /** The reading of a task's status string. Only "completed" and "blocked"
      are ever compared against; every other status string is carried by
      `Other`. */
  datatype Status = Completed | Blocked | Other(name: string)

  /** A task as fetched: its title and its raw status string. */
  datatype Task = Task(title: string, status: string)

  /** One sprint as fetched: its name and its tasks, in the order returned. */
  datatype Sprint = Sprint(name: string, tasks: seq<Task>)

  datatype TrendPoint = TrendPoint(sprintName: string, velocity: real)

  /** The structured summary of the current sprint. */
  datatype StructuredData = StructuredData(
    totalTasks: nat,
    completedTasks: nat,
    pendingTasks: nat,
    blockers: seq<string>,
    highlights: seq<string>,
    velocity: real,
    historicalTrends: seq<TrendPoint>)

  const CurrentSprintLabel: string := "Current Sprint"

  /** Reads a raw status string: the two strings the service tests for with
      `===` get their own constructor, every other string is `Other`. */
  function ParseStatus(raw: string): (s: Status)
    ensures s == Completed <==> raw == "completed"
    ensures s == Blocked <==> raw == "blocked"
    ensures s.Other? ==> s.name == raw
  {
    if raw == "completed" then Completed
    else if raw == "blocked" then Blocked
    else Other(raw)
  }

  /** `task.status === "completed"` for s == Completed, `=== "blocked"` for
      s == Blocked: the task's status string reads as `s`. */
  predicate HasStatus(t: Task, s: Status)
  {
    ParseStatus(t.status) == s
  }

  /** `tasks.filter(task => task.status === s).length` */
  function CountWhere(tasks: seq<Task>, s: Status): (n: nat)
    ensures n <= |tasks|
  {
    if tasks == [] then 0
    else (if HasStatus(tasks[0], s) then 1 else 0) + CountWhere(tasks[1..], s)
  }

  /** `tasks.filter(task => task.status !== s).length` */
  function CountNot(tasks: seq<Task>, s: Status): (n: nat)
    ensures n <= |tasks|
  {
    if tasks == [] then 0
    else (if !HasStatus(tasks[0], s) then 1 else 0) + CountNot(tasks[1..], s)
  }

  /** `tasks.filter(task => task.status === s).map(task => task.title)` */
  function TitlesWhere(tasks: seq<Task>, s: Status): (r: seq<string>)
    ensures |r| == CountWhere(tasks, s)
  {
    if tasks == [] then []
    else (if HasStatus(tasks[0], s) then [tasks[0].title] else []) + TitlesWhere(tasks[1..], s)
  }

  /** `completed / tasks.length || 0`: the share of completed tasks, where
      the `|| 0` turns the 0/0 of an empty list (NaN) into 0. */
  function Velocity(tasks: seq<Task>): (v: Number)
    ensures v.Finite? && 0.0 <= v.value <= 1.0
    ensures |tasks| == 0 ==> v.value == 0.0
    ensures |tasks| > 0 ==> v.value == CountWhere(tasks, Completed) as real / |tasks| as real
  {
    OrZero(Divide(CountWhere(tasks, Completed), |tasks|))
  }

  /** The trend point of one sprint: its label and the velocity of its own tasks. */
  function PointOf(sprintName: string, tasks: seq<Task>): (p: TrendPoint)
    ensures p.sprintName == sprintName
    ensures 0.0 <= p.velocity <= 1.0
    ensures |tasks| == 0 ==> p.velocity == 0.0
    ensures |tasks| > 0 ==> p.velocity == CountWhere(tasks, Completed) as real / |tasks| as real
  {
    TrendPoint(sprintName, Velocity(tasks).value)
  }

  /** `historicalData.map(sprint => ({sprintName: sprint.name, velocity: ...}))` */
  function HistoryPoints(history: seq<Sprint>): (r: seq<TrendPoint>)
    ensures |r| == |history|
    ensures forall i :: 0 <= i < |history| ==> r[i] == PointOf(history[i].name, history[i].tasks)
  {
    if history == [] then []
    else [PointOf(history[0].name, history[0].tasks)] + HistoryPoints(history[1..])
  }

  /** The velocity trend: one point per historical sprint, in the order
      given, followed by one point for the current sprint. */
  function Trends(history: seq<Sprint>, current: Sprint): (r: seq<TrendPoint>)
    ensures |r| == |history| + 1
    ensures forall i :: 0 <= i < |history| ==>
      r[i].sprintName == history[i].name && r[i].velocity == Velocity(history[i].tasks).value
    ensures r[|history|].sprintName == CurrentSprintLabel
    ensures r[|history|].velocity == Velocity(current.tasks).value
    ensures forall p :: p in r ==> 0.0 <= p.velocity <= 1.0
  {
    HistoryPoints(history) + [PointOf(CurrentSprintLabel, current.tasks)]
  }

  /** The structured record built from the fetched current sprint and the
      fetched historical sprints. */
  function Summarize(sprint: Sprint, history: seq<Sprint>): (d: StructuredData)
    ensures d.totalTasks == |sprint.tasks|
    ensures d.completedTasks == CountWhere(sprint.tasks, Completed)
    ensures d.pendingTasks == CountNot(sprint.tasks, Completed)
    ensures d.blockers == TitlesWhere(sprint.tasks, Blocked)
    ensures d.highlights == TitlesWhere(sprint.tasks, Completed)
    ensures d.velocity == Velocity(sprint.tasks).value
    ensures d.historicalTrends == Trends(history, sprint)
    ensures d.completedTasks + d.pendingTasks == d.totalTasks
    ensures |d.highlights| == d.completedTasks
    ensures |d.blockers| <= d.pendingTasks
    ensures |d.blockers| + |d.highlights| <= d.totalTasks
    ensures 0.0 <= d.velocity <= 1.0
    ensures d.totalTasks == 0 ==> d.velocity == 0.0
    ensures d.totalTasks > 0 ==> d.velocity == d.completedTasks as real / d.totalTasks as real
    ensures |d.historicalTrends| == |history| + 1
    ensures d.historicalTrends[|history|] == TrendPoint(CurrentSprintLabel, d.velocity)
  {
    var tasks := sprint.tasks;
    var completed := CountWhere(tasks, Completed);
    var velocity := Velocity(tasks);
    var trends := Trends(history, sprint);
    CountSplit(tasks, Completed);
    BlockedArePending(tasks);
    StructuredData(
      |tasks|,
      completed,
      CountNot(tasks, Completed),
      TitlesWhere(tasks, Blocked),
      TitlesWhere(tasks, Completed),
      velocity.value,
      trends)
  }

  // Properties of the counts

  /** Every task either has status `s` or not: the two filters partition the list. */
  lemma {:induction false} CountSplit(tasks: seq<Task>, s: Status)
    ensures CountWhere(tasks, s) + CountNot(tasks, s) == |tasks|
  {
    if tasks != [] {
      CountSplit(tasks[1..], s);
    }
  }

  /** A task with status `s` does not have a different status `s'`, so it is
      counted among those whose status is not `s'`. */
  lemma {:induction false} CountWhereBelowCountNot(tasks: seq<Task>, s: Status, s': Status)
    requires s != s'
    ensures CountWhere(tasks, s) <= CountNot(tasks, s')
  {
    if tasks != [] {
      CountWhereBelowCountNot(tasks[1..], s, s');
    }
  }

  /** Blocked tasks are counted as pending. */
  lemma {:induction false} BlockedArePending(tasks: seq<Task>)
    ensures CountWhere(tasks, Blocked) <= CountNot(tasks, Completed)
    ensures CountWhere(tasks, Blocked) + CountWhere(tasks, Completed) <= |tasks|
  {
    CountWhereBelowCountNot(tasks, Blocked, Completed);
    CountSplit(tasks, Completed);
  }

  // Properties of the title lists

  /** The titles of a concatenation are the titles of each part, in order. */
  lemma {:induction false} TitlesAppend(a: seq<Task>, b: seq<Task>, s: Status)
    ensures TitlesWhere(a + b, s) == TitlesWhere(a, s) + TitlesWhere(b, s)
  {
    if a != [] {
      assert (a + b)[1..] == a[1..] + b;
      TitlesAppend(a[1..], b, s);
    } else {
      assert a + b == b;
    }
  }

  /** A title is listed exactly when some task with that title has status `s`. */
  lemma {:induction false} TitlesMember(tasks: seq<Task>, s: Status, t: string)
    ensures t in TitlesWhere(tasks, s) <==>
      exists i :: 0 <= i < |tasks| && HasStatus(tasks[i], s) && tasks[i].title == t
  {
    if tasks != [] {
      TitlesMember(tasks[1..], s, t);
      if exists i :: 0 <= i < |tasks| && HasStatus(tasks[i], s) && tasks[i].title == t {
        var i :| 0 <= i < |tasks| && HasStatus(tasks[i], s) && tasks[i].title == t;
        if i > 0 {
          assert tasks[1..][i - 1] == tasks[i];
        }
      }
      if exists j :: 0 <= j < |tasks[1..]| && HasStatus(tasks[1..][j], s) && tasks[1..][j].title == t {
        var j :| 0 <= j < |tasks[1..]| && HasStatus(tasks[1..][j], s) && tasks[1..][j].title == t;
        assert tasks[j + 1] == tasks[1..][j];
      }
    }
  }

  /** Input order is kept: the title of the task at index `i`, when it has
      status `s`, sits at the position given by the number of earlier tasks
      with status `s`. */
  lemma TitlePosition(tasks: seq<Task>, s: Status, i: nat)
    requires i < |tasks| && HasStatus(tasks[i], s)
    ensures CountWhere(tasks[..i], s) < |TitlesWhere(tasks, s)|
    ensures TitlesWhere(tasks, s)[CountWhere(tasks[..i], s)] == tasks[i].title
  {
    assert tasks == tasks[..i] + tasks[i..];
    TitlesAppend(tasks[..i], tasks[i..], s);
    assert TitlesWhere(tasks[i..], s)[0] == tasks[i].title;
  }

  // Properties of the velocity

  /** The velocity is 1 exactly when the list is non-empty and every task is completed. */
  lemma VelocityIsOne(tasks: seq<Task>)
    ensures Velocity(tasks).value == 1.0 <==> |tasks| > 0 && CountWhere(tasks, Completed) == |tasks|
  {
    if |tasks| > 0 {
      RatioIsOne(CountWhere(tasks, Completed), |tasks|);
    }
  }

  lemma RatioIsOne(c: nat, n: nat)
    requires n > 0
    ensures c as real / n as real == 1.0 <==> c == n
  {
  }

  /** The velocity is 0 exactly when no task is completed, the empty list included. */
  lemma VelocityIsZero(tasks: seq<Task>)
    ensures Velocity(tasks).value == 0.0 <==> CountWhere(tasks, Completed) == 0
  {
  }
}
