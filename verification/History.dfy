/** A run with its intermediate states and verdicts written down. */
module History {
  import opened Accounts
  import opened Steps

  datatype Entry = Entry(before: State, step: Step, ok: bool, after: State)

  ghost predicate Faithful(e: Entry) {
    e.ok == Apply(e.before, e.step).Ok? && e.after == Next(e.before, e.step)
  }

  predicate Chained(start: State, log: seq<Entry>) {
    && (log != [] ==> log[0].before == start)
    && forall k :: 0 < k < |log| ==> log[k].before == log[k - 1].after
  }

  ghost predicate Recorded(log: seq<Entry>) {
    forall k {:trigger Faithful(log[k])} :: 0 <= k < |log| ==> Faithful(log[k])
  }

  /** The log of a run from start. */
  ghost predicate IsLog(start: State, log: seq<Entry>) { Chained(start, log) && Recorded(log) }

  function Last(start: State, log: seq<Entry>): State {
    if log == [] then start else log[|log| - 1].after
  }

  lemma LogPrefix(start: State, log: seq<Entry>, k: nat)
    requires IsLog(start, log) && k < |log|
    ensures IsLog(start, log[..k]) && log[k].before == Last(start, log[..k]) && Faithful(log[k])
  {
    forall j | 0 <= j < k ensures Faithful(log[..k][j]) { assert Faithful(log[j]); }
    assert Faithful(log[k]);
  }

  lemma LogOfFront(start: State, log: seq<Entry>)
    requires IsLog(start, log) && log != []
    ensures var n := |log| - 1; IsLog(start, log[..n]) && log[n].before == Last(start, log[..n]) && Faithful(log[n])
  {
    LogPrefix(start, log, |log| - 1);
  }

  lemma LogOfOne(start: State, step: Step) returns (log: seq<Entry>)
    ensures IsLog(start, log) && log == [Entry(start, step, Apply(start, step).Ok?, Next(start, step))]
  {
    log := [Entry(start, step, Apply(start, step).Ok?, Next(start, step))];
    assert Faithful(log[0]);
  }

  lemma LogsJoin(start: State, a: seq<Entry>, b: seq<Entry>)
    requires IsLog(start, a) && IsLog(Last(start, a), b)
    ensures IsLog(start, a + b) && Last(start, a + b) == Last(Last(start, a), b)
  {
    forall k | 0 <= k < |a + b| ensures Faithful((a + b)[k]) {
      if k < |a| { assert Faithful(a[k]); } else { assert Faithful(b[k - |a|]); }
    }
  }

  /** A log is a run. */
  lemma {:induction false} LogIsRun(start: State, log: seq<Entry>) returns (steps: seq<Step>)
    requires IsLog(start, log)
    ensures |steps| == |log| && Last(start, log) == Run(start, steps)
    ensures forall k :: 0 <= k < |log| ==> steps[k] == log[k].step
    decreases |log|
  {
    if log == [] { steps := []; }
    else {
      var n := |log| - 1;
      LogOfFront(start, log);
      var front := LogIsRun(start, log[..n]);
      steps := front + [log[n].step];
      RunSnoc(start, front, log[n].step);
    }
  }
}
