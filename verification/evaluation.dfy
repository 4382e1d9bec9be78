/**
 * One evaluation round of the step loop: a validation pass over every
 * configured set, in configuration order, then the four benchmark tasks.
 */
module Evaluation {
  import opened Config
  import opened Events

  /**
   * How many eval calls one validation pass makes: `zip(val_set.sample_once(),
   * range(val_batches))` stops at whichever runs out first.
   */
  function Drawn(batches: nat, valBatches: int): (n: nat)
    ensures n <= batches
    ensures valBatches <= 0 ==> n == 0
    ensures valBatches > 0 ==> n <= valBatches && (n == batches || n == valBatches)
  {
    if valBatches <= 0 then 0
    else if batches < valBatches then batches
    else valBatches
  }

  /** The eval calls on batches 0, 1, ..., n - 1 of the named set. */
  function Evals(name: string, n: nat): (r: seq<Event>)
    ensures |r| == n
    ensures forall i :: 0 <= i < n ==> r[i] == Eval(name, i)
  {
    if n == 0 then [] else Evals(name, n - 1) + [Eval(name, n - 1)]
  }

  /** The validation pass over one set. */
  function Pass(s: ValSet, valBatches: int): seq<Event> {
    Evals(s.name, Drawn(s.batches, valBatches))
  }

  /** The validation passes over `sets`, in order. */
  function ValidationEvents(sets: seq<ValSet>, valBatches: int): seq<Event>
    decreases |sets|
  {
    if sets == [] then []
    else ValidationEvents(sets[..|sets| - 1], valBatches) + Pass(sets[|sets| - 1], valBatches)
  }

  /** The four benchmark tasks, each run with the global evaluation batch. */
  function TaskEvents(globalBatch: int): seq<Event> {
    [RunTask(Lambada, globalBatch), RunTask(Winogrande, globalBatch),
     RunTask(Piqa, globalBatch), RunTask(HellaSwag, globalBatch)]
  }

  /** Everything an evaluation round calls, in order. */
  function RoundEvents(sets: seq<ValSet>, valBatches: int, globalBatch: int): seq<Event> {
    ValidationEvents(sets, valBatches) + TaskEvents(globalBatch)
  }

  /**
   * Every event of `v` is an eval call on a set of `sets`, on a batch index
   * below both that set's share and `val_batches`.
   */
  ghost predicate EvalsWithin(v: seq<Event>, sets: seq<ValSet>, valBatches: int) {
    forall i :: 0 <= i < |v| ==>
      v[i].Eval? && v[i].batch < valBatches &&
      exists j :: 0 <= j < |sets| && v[i].valSet == sets[j].name && v[i].batch < Drawn(sets[j].batches, valBatches)
  }

  /**
   * A validation pass only makes eval calls, each on a configured set and on a
   * batch index below both that set's size and `val_batches`: no set gets more
   * than `val_batches` eval calls per round.
   */
  lemma {:induction false} ValidationEvalsBounded(sets: seq<ValSet>, valBatches: int)
    ensures EvalsWithin(ValidationEvents(sets, valBatches), sets, valBatches)
    decreases |sets|
  {
    if sets != [] {
      var init, last := sets[..|sets| - 1], |sets| - 1;
      ValidationEvalsBounded(init, valBatches);
      var v, u := ValidationEvents(sets, valBatches), ValidationEvents(init, valBatches);
      assert v == u + Pass(sets[last], valBatches);
      forall i | 0 <= i < |v|
        ensures v[i].Eval? && v[i].batch < valBatches &&
          exists j :: 0 <= j < |sets| && v[i].valSet == sets[j].name && v[i].batch < Drawn(sets[j].batches, valBatches)
      {
        if i < |u| {
          assert v[i] == u[i];
          var j :| 0 <= j < |init| && u[i].valSet == init[j].name && u[i].batch < Drawn(init[j].batches, valBatches);
          assert sets[j] == init[j];
        } else {
          assert v[i] == Eval(sets[last].name, i - |u|);
        }
      }
    }
  }

  /** The number of eval calls the validation passes make, summed set by set. */
  function TotalDrawn(sets: seq<ValSet>, valBatches: int): nat
    decreases |sets|
  {
    if sets == [] then 0 else Drawn(sets[0].batches, valBatches) + TotalDrawn(sets[1..], valBatches)
  }

  lemma {:induction false} TotalDrawnSnoc(sets: seq<ValSet>, valBatches: int)
    requires sets != []
    ensures TotalDrawn(sets, valBatches)
      == TotalDrawn(sets[..|sets| - 1], valBatches) + Drawn(sets[|sets| - 1].batches, valBatches)
    decreases |sets|
  {
    if |sets| > 1 {
      TotalDrawnSnoc(sets[1..], valBatches);
      assert sets[1..][..|sets[1..]| - 1] == sets[..|sets| - 1][1..];
    }
  }

  /** A round makes exactly as many eval calls as the sets' shares add up to. */
  lemma {:induction false} ValidationEventCount(sets: seq<ValSet>, valBatches: int)
    ensures |ValidationEvents(sets, valBatches)| == TotalDrawn(sets, valBatches)
    decreases |sets|
  {
    if sets != [] {
      ValidationEventCount(sets[..|sets| - 1], valBatches);
      TotalDrawnSnoc(sets, valBatches);
    }
  }

  /**
   * The order of a round: validation eval calls first, then exactly four task
   * runs, lambada, winogrande, piqa and hellaswag, each with the global batch.
   */
  lemma RoundOrder(sets: seq<ValSet>, valBatches: int, globalBatch: int)
    ensures var r := RoundEvents(sets, valBatches, globalBatch);
      |r| == TotalDrawn(sets, valBatches) + 4 &&
      (forall i :: 0 <= i < |r| ==> (r[i].Eval? <==> i < |r| - 4) && (r[i].RunTask? <==> |r| - 4 <= i)) &&
      (forall i :: 0 <= i < |r| && r[i].RunTask? ==> r[i].batchSize == globalBatch) &&
      r[|r| - 4].task == Lambada && r[|r| - 3].task == Winogrande &&
      r[|r| - 2].task == Piqa && r[|r| - 1].task == HellaSwag
  {
    var v := ValidationEvents(sets, valBatches);
    var r := RoundEvents(sets, valBatches, globalBatch);
    ValidationEvalsBounded(sets, valBatches);
    ValidationEventCount(sets, valBatches);
    assert r == v + TaskEvents(globalBatch);
    assert forall i :: 0 <= i < |v| ==> r[i] == v[i] && r[i].Eval?;
    assert forall i :: |v| <= i < |r| ==> r[i] == TaskEvents(globalBatch)[i - |v|];
  }

  /**
   * What an evaluation round may call: eval calls and benchmark-task runs
   * only, ending with a task run.
   */
  ghost predicate RoundCalls(r: seq<Event>) {
    r != [] && r[|r| - 1].RunTask? &&
    forall i :: 0 <= i < |r| ==> r[i].Eval? || r[i].RunTask?
  }

  /** Every evaluation round has that shape. */
  lemma RoundHasRoundCalls(sets: seq<ValSet>, valBatches: int, globalBatch: int)
    ensures RoundCalls(RoundEvents(sets, valBatches, globalBatch))
  {
    RoundOrder(sets, valBatches, globalBatch);
  }

  /** A round runs every task with the global batch and never opens the training loader. */
  lemma RoundTaskBatches(sets: seq<ValSet>, valBatches: int, globalBatch: int)
    ensures TaskBatches(RoundEvents(sets, valBatches, globalBatch), globalBatch)
  {
    RoundOrder(sets, valBatches, globalBatch);
  }
}
