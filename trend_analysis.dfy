/** The completion-rate comparison of the report entry point: the rate of the
    current sprint against the rate of the last historical sprint, and the
    choice between the "Improvement" and the "Decline" wording. The rates are
    JavaScript numbers, so a sprint with no tasks gives NaN or Infinity
    rather than an error. The text formatting of the rates is not modelled. */
module TrendAnalysis {
  import opened JsNumber
  import Summarizer

  /** The two counts the comparison reads from a sprint record. */
  datatype SprintCounts = SprintCounts(completedTasks: nat, totalTasks: nat)

  datatype Trend = Improvement | Decline

  /** The counts of the current sprint, read from its structured summary. */
  function CurrentCounts(d: Summarizer.StructuredData): SprintCounts
  {
    SprintCounts(d.completedTasks, d.totalTasks)
  }

  /** `(completedTasks / totalTasks) * 100` */
  function CompletionRate(s: SprintCounts): (r: Number)
    ensures s.totalTasks > 0 ==>
      r.Finite? && r.value * (s.totalTasks as real) == (100 * s.completedTasks) as real
    ensures s.totalTasks > 0 && s.completedTasks <= s.totalTasks ==> 0.0 <= r.value <= 100.0
    ensures s.totalTasks == 0 ==> (r.NaN? <==> s.completedTasks == 0)
    ensures s.totalTasks == 0 ==> (r.Infinity? <==> s.completedTasks > 0)
  {
    RatioAtMostOne(s.completedTasks, s.totalTasks);
    Times(Divide(s.completedTasks, s.totalTasks), 100.0)
  }

  /** Which wording the report uses: "Improvement" exactly when the current
      rate is strictly greater than the rate of the last historical sprint.
      The history must not be empty: the source reads its last element
      without a check. */
  function TrendOf(current: SprintCounts, history: seq<SprintCounts>): (t: Trend)
    requires |history| > 0
    ensures var last := history[|history| - 1];
      current.totalTasks > 0 && last.totalTasks > 0 ==>
        (t == Improvement <==>
          current.completedTasks * last.totalTasks > last.completedTasks * current.totalTasks)
    ensures var last := history[|history| - 1];
      current.totalTasks == 0 ==>
        (t == Improvement <==> current.completedTasks > 0 && last.totalTasks > 0)
    ensures var last := history[|history| - 1];
      last.totalTasks == 0 ==> t == Decline
  {
    var last := history[|history| - 1];
    RateOrder(current, last);
    if GreaterThan(CompletionRate(current), CompletionRate(last)) then Improvement else Decline
  }

  lemma RatioAtMostOne(c: nat, n: nat)
    ensures 0 < n && c <= n ==> c as real / n as real <= 1.0
  {
    if 0 < n && c <= n {
      assert (c as real / n as real) * (n as real) == c as real;
    }
  }

  /** For two sprints with tasks, comparing the rates is comparing the
      cross products of the counts. */
  lemma RateOrder(a: SprintCounts, b: SprintCounts)
    ensures a.totalTasks > 0 && b.totalTasks > 0 ==>
      (CompletionRate(a).value > CompletionRate(b).value <==>
        a.completedTasks * b.totalTasks > b.completedTasks * a.totalTasks)
  {
    if a.totalTasks > 0 && b.totalTasks > 0 {
      var ta, tb := a.totalTasks as real, b.totalTasks as real;
      var ca, cb := a.completedTasks as real, b.completedTasks as real;
      CrossCompare(CompletionRate(a).value, CompletionRate(b).value, ta, tb, ca, cb);
      assert (a.completedTasks * b.totalTasks) as real == ca * tb;
      assert (b.completedTasks * a.totalTasks) as real == cb * ta;
    }
  }

  /** Two ratios scaled by 100, given through their defining products, compare
      as the cross products of their numerators and denominators. */
  lemma CrossCompare(ra: real, rb: real, ta: real, tb: real, ca: real, cb: real)
    requires ta > 0.0 && tb > 0.0
    requires ra * ta == 100.0 * ca && rb * tb == 100.0 * cb
    ensures ra > rb <==> ca * tb > cb * ta
  {
    var k := ta * tb;
    assert k > 0.0;
    assert ra * k == 100.0 * (ca * tb);
    assert rb * k == 100.0 * (cb * ta);
    ScaleKeepsOrder(ra, rb, k);
    ScaleKeepsOrder(ca * tb, cb * ta, 100.0);
  }

  lemma ScaleKeepsOrder(x: real, y: real, k: real)
    requires k > 0.0
    ensures x > y <==> x * k > y * k
  {
    assert x * k - y * k == (x - y) * k;
  }

  /** Equal rates, including two sprints with the same counts, are reported
      as a decline. */
  lemma EqualRatesDecline(current: SprintCounts, history: seq<SprintCounts>)
    requires |history| > 0
    requires current.totalTasks > 0 && history[|history| - 1].totalTasks > 0
    requires current.completedTasks * history[|history| - 1].totalTasks ==
             history[|history| - 1].completedTasks * current.totalTasks
    ensures TrendOf(current, history) == Decline
  {
  }

  /** Only the last historical sprint is compared: earlier ones do not matter. */
  lemma OnlyLastSprintMatters(current: SprintCounts, earlier: seq<SprintCounts>, last: SprintCounts)
    ensures TrendOf(current, earlier + [last]) == TrendOf(current, [last])
  {
  }

  /** For a sprint with tasks, the completion rate of its structured summary
      is one hundred times its velocity. */
  lemma RateIsScaledVelocity(sprint: Summarizer.Sprint, history: seq<Summarizer.Sprint>)
    requires |sprint.tasks| > 0
    ensures CompletionRate(CurrentCounts(Summarizer.Summarize(sprint, history))) ==
      Finite(Summarizer.Summarize(sprint, history).velocity * 100.0)
  {
  }
}
