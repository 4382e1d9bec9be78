/**
 * The imperative side of `train.py`: the state `main` and `__main__` change as
 * they go, and the loops that change it. Every method is proved to leave the
 * state its specification function in the other modules describes.
 */
module Trainer {
  import opened Wrappers
  import opened Config
  import opened Schedule
  import opened Events
  import opened Evaluation
  import opened Initialise
  import opened StepLoop
  import opened Supervisor

  /**
   * The log of checkpoint writes to `bucket/model_dir` (a clean start's
   * initial save replaces it; `delete_old` pruning is not modelled, so a write
   * is never removed), the calls made so far, and the current attempt's step
   * counter and training-loader position.
   */
  class Run {
    var store: seq<Checkpoint>
    var trace: seq<Event>
    var step: nat
    var position: nat

    constructor (store: seq<Checkpoint>)
      ensures this.store == store && trace == [] && step == 0 && position == 0
    {
      this.store := store;
      trace := [];
      step := 0;
      position := 0;
    }

    /** The `try: t.save(...) except: t.load()` block at the start of `main`. */
    method InitialiseOrResume(cleanStart: bool) returns (restore: Option<nat>)
      modifies this
      ensures var o := InitSpec(old(store), cleanStart);
        trace == old(trace) + o.events && store == o.store && step == o.step && restore == o.restore
      ensures position == old(position)
    {
      if !InitSaveFails(store, cleanStart) {
        trace := trace + [InitSave(cleanStart, true)];
        store := [InitialCheckpoint];
        step := 0;
        restore := None;
      } else {
        trace := trace + [InitSave(cleanStart, false)];
        var latest := store[|store| - 1];
        trace := trace + [Load(latest.step)];
        step := latest.step;
        restore := if TrainLoaderKey in latest.aux then Some(latest.aux[TrainLoaderKey]) else None;
        if restore.None? {
          trace := trace + [RestoreMissing];
        }
      }
    }

    /** The compile-time calls: one train call, then one eval call per validation set. */
    method WarmUp(sets: seq<ValSet>)
      modifies this
      ensures trace == old(trace) + ([Train(old(position))] + WarmUpEvals(sets))
      ensures position == old(position) + 1 && store == old(store) && step == old(step)
    {
      trace := trace + [Train(position)];
      position := position + 1;
      var j := 0;
      while j < |sets|
        invariant 0 <= j <= |sets|
        invariant trace == old(trace) + ([Train(old(position))] + WarmUpEvals(sets[..j]))
        invariant position == old(position) + 1 && store == old(store) && step == old(step)
      {
        assert sets[..j + 1][..j] == sets[..j];
        trace := trace + [WarmUpEval(sets[j].name)];
        j := j + 1;
      }
      assert sets[..j] == sets;
    }

    /**
     * `for i, _ in zip(val_set.sample_once(), range(val_batches))`: one eval
     * call per batch until the set or the budget runs out.
     */
    method ValidationPass(s: ValSet, valBatches: int)
      modifies this
      ensures trace == old(trace) + Pass(s, valBatches)
      ensures store == old(store) && step == old(step) && position == old(position)
    {
      var i := 0;
      while i < s.batches && i < valBatches
        invariant 0 <= i <= Drawn(s.batches, valBatches)
        invariant trace == old(trace) + Evals(s.name, i)
        invariant store == old(store) && step == old(step) && position == old(position)
      {
        trace := trace + [Eval(s.name, i)];
        i := i + 1;
      }
    }

    /** The body of `if step % val_every == 0:`. */
    method EvaluationRound(sets: seq<ValSet>, valBatches: int, globalBatch: int)
      modifies this
      ensures trace == old(trace) + RoundEvents(sets, valBatches, globalBatch)
      ensures store == old(store) && step == old(step) && position == old(position)
    {
      var j := 0;
      while j < |sets|
        invariant 0 <= j <= |sets|
        invariant trace == old(trace) + ValidationEvents(sets[..j], valBatches)
        invariant store == old(store) && step == old(step) && position == old(position)
      {
        AppendAssoc(old(trace), ValidationEvents(sets[..j], valBatches), Pass(sets[j], valBatches));
        ValidationPass(sets[j], valBatches);
        assert sets[..j + 1][..j] == sets[..j];
        j := j + 1;
      }
      assert sets[..j] == sets;
      AppendAssoc(old(trace), ValidationEvents(sets, valBatches), TaskEvents(globalBatch));
      trace := trace + TaskEvents(globalBatch);
    }

    /** The checkpoint test of the step loop, and the save it calls for. */
    method CheckpointIfDue(p: Params) returns (raised: bool)
      modifies this
      ensures var c := CheckpointPart(p, old(step), old(position));
        trace == old(trace) + c.events && store == old(store) + c.saved && raised == c.raised
      ensures step == old(step) && position == old(position)
    {
      if p.ckptEvery == 0 {
        return true;
      }
      if CheckpointDue(step, p.ckptEvery) {
        if p.keepEvery == 0 {
          return true;
        }
        trace := trace + [Save(step, position, DeleteOld(step, p.keepEvery))];
        store := store + [Checkpoint(step, LoaderAux(position))];
      }
      raised := false;
    }

    /** The evaluation test of the step loop, and the round it calls for. */
    method EvaluateIfDue(p: Params, globalBatch: int) returns (raised: bool)
      modifies this
      ensures var e := EvalPart(p, Round(p, globalBatch), old(step));
        trace == old(trace) + e.events && raised == e.raised
      ensures store == old(store) && step == old(step) && position == old(position)
    {
      if p.valEvery == 0 {
        return true;
      }
      if EvalDue(step, p.valEvery) {
        EvaluationRound(p.valSets, p.valBatches, globalBatch);
      }
      raised := false;
    }

    /**
     * One iteration of `main`'s `while True` loop; `raised` when a `%` by a
     * zero interval raised ZeroDivisionError.
     */
    method Iterate(p: Params, globalBatch: int) returns (raised: bool)
      modifies this
      ensures var s := StepSpec(p, Round(p, globalBatch), old(step), old(position));
        trace == old(trace) + s.events && raised == s.raised &&
        store == old(store) + s.saved && position == old(position) + 1 &&
        step == if raised then old(step) else old(step) + 1
    {
      ghost var trace0, store0 := trace, store;
      var trained := [Train(position)];
      trace := trace + trained;
      position := position + 1;
      ghost var c := CheckpointPart(p, step, position);
      raised := CheckpointIfDue(p);
      if raised {
        return;
      }
      ghost var e := EvalPart(p, Round(p, globalBatch), step);
      raised := EvaluateIfDue(p, globalBatch);
      assert trace == trace0 + (trained + c.events + e.events);
      if !raised {
        step := step + 1;
      }
    }

    /**
     * One more iteration of a run that started at `step0` and `position0`
     * with `trace0` and `store0` and has made `calls` iterations without
     * raising.
     */
    method Advance(p: Params, globalBatch: int, ghost step0: nat, ghost position0: nat, ghost calls: nat,
                   ghost trace0: seq<Event>, ghost store0: seq<Checkpoint>) returns (raised: bool)
      requires var r := LoopSpec(p, Round(p, globalBatch), step0, position0, calls);
        trace == trace0 + r.events && store == store0 + r.saved && !r.raised
      requires step == step0 + calls && position == position0 + calls
      modifies this
      ensures var r := LoopSpec(p, Round(p, globalBatch), step0, position0, calls + 1);
        trace == trace0 + r.events && store == store0 + r.saved && raised == r.raised &&
        r.iterations == (if raised then calls else calls + 1)
      ensures step == step0 + (if raised then calls else calls + 1) && position == position0 + calls + 1
    {
      ghost var before := LoopSpec(p, Round(p, globalBatch), step0, position0, calls);
      ghost var s := StepSpec(p, Round(p, globalBatch), step0 + calls, position0 + calls);
      raised := Iterate(p, globalBatch);
      LoopSpecNext(p, Round(p, globalBatch), step0, position0, calls);
      AppendAssoc(trace0, before.events, s.events);
      AppendAssoc(store0, before.saved, s.saved);
    }

    /** Up to `n` iterations of the step loop, stopping at the first that raises. */
    method StepLoop(p: Params, globalBatch: int, n: nat) returns (iterations: nat, raised: bool)
      modifies this
      ensures var r := LoopSpec(p, Round(p, globalBatch), old(step), old(position), n);
        trace == old(trace) + r.events && store == old(store) + r.saved &&
        iterations == r.iterations && raised == r.raised &&
        step == old(step) + iterations && position == old(position) + iterations + (if raised then 1 else 0)
    {
      ghost var step0, position0 := step, position;
      iterations, raised := 0, false;
      ghost var calls: nat := 0;
      while iterations < n && !raised
        invariant calls <= n && calls == iterations + (if raised then 1 else 0)
        invariant var r := LoopSpec(p, Round(p, globalBatch), step0, position0, calls);
          trace == old(trace) + r.events && store == old(store) + r.saved &&
          iterations == r.iterations && raised == r.raised
        invariant step == step0 + iterations && position == position0 + calls
        decreases n - calls
      {
        raised := Advance(p, globalBatch, step0, position0, calls, old(trace), old(store));
        if !raised {
          iterations := iterations + 1;
        }
        calls := calls + 1;
      }
      if raised {
        LoopStopsAtRaise(p, Round(p, globalBatch), step0, position0, calls, n);
      }
    }

    /** `main` up to its step loop; `ready` when neither check before it raised. */
    method Start(p: Params, cleanStart: bool) returns (ready: bool)
      modifies this
      ensures var s := StartSpec(p, cleanStart, old(store));
        trace == old(trace) + s.events && store == s.store && ready == s.ready &&
        (ready ==> step == s.step && position == s.position)
    {
      ghost var t0 := trace;
      ready := false;
      if ParsePe(p.pe).Some? {
        var restore := InitialiseOrResume(cleanStart);
        ghost var init := InitSpec(old(store), cleanStart);
        if p.coresPerReplica != 0 {
          var shape := TrainBatchShape(p);
          var open := [OpenTrainLoader(shape.0, shape.1, restore)];
          trace := trace + open;
          AppendAssoc(t0, init.events, open);
          position := restore.GetOr(0);
          ghost var warmUp := [Train(position)] + WarmUpEvals(p.valSets);
          WarmUp(p.valSets);
          AppendAssoc(t0, init.events + open, warmUp);
          ready := true;
        }
      }
    }

    /** One call of `main(first)`, ended by the step loop raising or by `stop`. */
    method Attempt(p: Params, newRun: bool, first: bool, stop: Stop) returns (outcome: AttemptOutcome)
      modifies this
      ensures var a := AttemptSpec(p, newRun, first, old(store), stop);
        trace == old(trace) + a.events && store == a.store && outcome == a.outcome
    {
      if stop.BeforeSave? {
        // the `pe` assertion runs before `build_model`
        outcome := if ParsePe(p.pe).None? then Failed else Ended(stop.kind);
        return;
      }
      ghost var s := StartSpec(p, CleanStart(newRun, first), store);
      var ready := Start(p, CleanStart(newRun, first));
      outcome := Failed;
      if ready {
        ghost var loop := LoopSpec(p, Round(p, GlobalBatch(p)), s.step, s.position, stop.after);
        var iterations, raised := StepLoop(p, GlobalBatch(p), stop.after);
        AppendAssoc(old(trace), s.events, loop.events);
        outcome := if raised then Failed else Ended(stop.kind);
      }
    }

    /**
     * One more attempt of the `__main__` loop, for a supervisor run `whole`
     * from `store0` that has made `attempts` attempts, none interrupted.
     */
    method NextAttempt(p: Params, newRun: bool, first: bool, stops: seq<Stop>, attempts: nat,
                       ghost done: seq<Event>, ghost trace0: seq<Event>, ghost whole: SuperviseResult)
        returns (outcome: AttemptOutcome, ghost done': seq<Event>)
      requires attempts < |stops|
      requires trace == trace0 + done
      requires var rest := SuperviseSpec(p, newRun, first, store, stops[attempts..]);
        whole == SuperviseResult(done + rest.events, rest.store, rest.interrupted, attempts + rest.attempts)
      modifies this
      ensures trace == trace0 + done'
      ensures outcome == Interrupted ==> whole == SuperviseResult(done', store, true, attempts + 1)
      ensures outcome != Interrupted ==>
        var rest := SuperviseSpec(p, newRun, false, store, stops[attempts + 1..]);
        whole == SuperviseResult(done' + rest.events, rest.store, rest.interrupted, attempts + 1 + rest.attempts)
    {
      assert stops[attempts..][0] == stops[attempts] && stops[attempts..][1..] == stops[attempts + 1..];
      SuperviseSpecNext(p, newRun, first, store, stops[attempts..]);
      ghost var a := AttemptSpec(p, newRun, first, store, stops[attempts]);
      ghost var later := SuperviseSpec(p, newRun, false, a.store, stops[attempts + 1..]);
      outcome := Attempt(p, newRun, first, stops[attempts]);
      AppendAssoc(trace0, done, a.events);
      AppendAssoc(done, a.events, later.events);
      done' := done + a.events;
    }

    /** The `__main__` loop: one attempt per stop until one ends by KeyboardInterrupt. */
    method Supervise(p: Params, newRun: bool, stops: seq<Stop>) returns (interrupted: bool, attempts: nat)
      modifies this
      ensures var r := SuperviseSpec(p, newRun, true, old(store), stops);
        trace == old(trace) + r.events && store == r.store &&
        interrupted == r.interrupted && attempts == r.attempts
    {
      var first := true;
      interrupted, attempts := false, 0;
      ghost var done: seq<Event> := [];
      ghost var whole := SuperviseSpec(p, newRun, true, store, stops);
      while attempts < |stops| && !interrupted
        invariant attempts <= |stops|
        invariant !interrupted ==> (first <==> attempts == 0)
        invariant trace == old(trace) + done
        invariant interrupted ==> whole == SuperviseResult(done, store, true, attempts)
        invariant !interrupted ==>
          var rest := SuperviseSpec(p, newRun, first, store, stops[attempts..]);
          whole == SuperviseResult(done + rest.events, rest.store, rest.interrupted, attempts + rest.attempts)
      {
        var outcome;
        outcome, done := NextAttempt(p, newRun, first, stops, attempts, done, old(trace), whole);
        if outcome == Interrupted {
          interrupted := true;
        } else {
          first := false;
        }
        attempts := attempts + 1;
      }
      if !interrupted {
        assert stops[attempts..] == [];
      }
    }
  }
}
