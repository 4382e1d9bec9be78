/**
 * The body of `main`'s `while True` loop and a bounded run of it: one training
 * call, the checkpoint test, the evaluation test, then `step += 1`.
 */
module StepLoop {
  import opened Config
  import opened Schedule
  import opened Events
  import opened Evaluation

  /**
   * What one iteration (or part of one) called, the checkpoints it wrote, and
   * whether a `%` by zero raised in it.
   */
  datatype StepOutcome = StepOutcome(events: seq<Event>, saved: seq<Checkpoint>, raised: bool)

  /**
   * `if step % ckpt_every == 0 and step: t.save(step, ..., aux={"train_loader":
   * state}, delete_old=step % keep_every != 0)`, with `state` the training
   * loader's position at that moment.
   */
  function CheckpointPart(p: Params, step: nat, state: nat): StepOutcome {
    if p.ckptEvery == 0 then StepOutcome([], [], true)
    else if !CheckpointDue(step, p.ckptEvery) then StepOutcome([], [], false)
    else if p.keepEvery == 0 then StepOutcome([], [], true)
    else StepOutcome([Save(step, state, DeleteOld(step, p.keepEvery))], [Checkpoint(step, LoaderAux(state))], false)
  }

  /** The calls of one evaluation round, the same in every round of a run. */
  function Round(p: Params, globalBatch: int): seq<Event> {
    RoundEvents(p.valSets, p.valBatches, globalBatch)
  }

  /**
   * `if step % val_every == 0:` followed by the evaluation round, whose calls
   * are `round`.
   */
  function EvalPart(p: Params, round: seq<Event>, step: nat): StepOutcome {
    if p.valEvery == 0 then StepOutcome([], [], true)
    else if EvalDue(step, p.valEvery) then StepOutcome(round, [], false)
    else StepOutcome([], [], false)
  }

  /**
   * One iteration at `step`, with the training loader at `position`: the
   * train call moves the loader on by one batch, then the checkpoint part and
   * the evaluation part run. Each `%` by a zero interval raises
   * ZeroDivisionError where Python evaluates it, ending the iteration with
   * what was called so far.
   */
  function StepSpec(p: Params, round: seq<Event>, step: nat, position: nat): StepOutcome {
    var c := CheckpointPart(p, step, position + 1);
    if c.raised then StepOutcome([Train(position)], [], true)
    else
      var e := EvalPart(p, round, step);
      StepOutcome([Train(position)] + c.events + e.events, c.saved, e.raised)
  }

  /** The three intervals are non-zero, so no iteration raises. */
  predicate IntervalsNonZero(p: Params) {
    p.ckptEvery != 0 && p.valEvery != 0 && p.keepEvery != 0
  }

  /**
   * An iteration raises exactly when one of the `%` it evaluates has a zero
   * divisor: `ckpt_every` always, `keep_every` only at a checkpoint step,
   * `val_every` whenever the checkpoint test got through.
   */
  lemma StepRaises(p: Params, round: seq<Event>, step: nat, position: nat)
    ensures StepSpec(p, round, step, position).raised <==>
      (p.ckptEvery == 0 || (CheckpointDue(step, p.ckptEvery) && p.keepEvery == 0) || p.valEvery == 0)
    ensures IntervalsNonZero(p) ==> !StepSpec(p, round, step, position).raised
  {
  }

  /**
   * The calls of one iteration: the train call on the batch at the loader's
   * position, then at most the one save, then only evaluation calls.
   */
  lemma StepShape(p: Params, round: seq<Event>, step: nat, position: nat)
    requires RoundCalls(round)
    ensures var e := StepSpec(p, round, step, position).events;
      e != [] && e[0] == Train(position) &&
      forall i :: 1 <= i < |e| ==> (i == 1 && e[i].Save?) || e[i].Eval? || e[i].RunTask?
  {
    var c := CheckpointPart(p, step, position + 1);
    if !c.raised {
      var ev := EvalPart(p, round, step).events;
      var e := [Train(position)] + c.events + ev;
      assert e == StepSpec(p, round, step, position).events;
      forall i | 1 <= i < |e|
        ensures (i == 1 && e[i].Save?) || e[i].Eval? || e[i].RunTask?
      {
        if i > |c.events| {
          assert e[i] == ev[i - 1 - |c.events|];
        }
      }
    }
  }

  /**
   * Every iteration makes exactly one train call, first, on the batch at the
   * loader's position.
   */
  lemma StepTrainsOnce(p: Params, round: seq<Event>, step: nat, position: nat)
    requires RoundCalls(round)
    ensures var e := StepSpec(p, round, step, position).events;
      e != [] && e[0] == Train(position) && CountTrains(e) == 1
  {
    var e := StepSpec(p, round, step, position).events;
    StepShape(p, round, step, position);
    NoTrainCountsZero(e[1..]);
    assert e == [e[0]] + e[1..];
    CountTrainsAppend([e[0]], e[1..]);
  }

  /** Within an iteration, a save precedes every evaluation call. */
  lemma StepSavesBeforeEvaluating(p: Params, round: seq<Event>, step: nat, position: nat)
    requires RoundCalls(round)
    ensures var e := StepSpec(p, round, step, position).events;
      forall i, j :: 0 <= i < |e| && 0 <= j < |e| && e[j].Save? && (e[i].Eval? || e[i].RunTask?) ==> j < i
  {
    StepShape(p, round, step, position);
  }

  /**
   * An iteration stores a checkpoint exactly when `step % ckpt_every == 0`,
   * `step != 0` and `keep_every` is non-zero, recording this step and the
   * loader position after this iteration's train call. A zero `val_every`
   * raises only after the save.
   */
  lemma StepSaved(p: Params, round: seq<Event>, step: nat, position: nat)
    requires p.ckptEvery != 0
    ensures StepSpec(p, round, step, position).saved
      == if CheckpointDue(step, p.ckptEvery) && p.keepEvery != 0
         then [Checkpoint(step, LoaderAux(position + 1))] else []
  {
  }

  /** The checkpoints an iteration stores are the ones its calls write. */
  lemma StepWrites(p: Params, round: seq<Event>, step: nat, position: nat)
    requires RoundCalls(round)
    ensures StepSpec(p, round, step, position).saved == Written(StepSpec(p, round, step, position).events)
  {
    var c := CheckpointPart(p, step, position + 1);
    var e := EvalPart(p, round, step).events;
    NoSaveWritesNothing([Train(position)]);
    NoSaveWritesNothing(e);
    if !c.raised {
      WrittenAppend([Train(position)], c.events);
      WrittenAppend([Train(position)] + c.events, e);
      if c.events != [] {
        assert Written(c.events) == [Checkpoint(step, LoaderAux(position + 1))] + Written([]);
      }
    }
  }

  /**
   * With non-zero `ckpt_every` and `keep_every` an iteration calls save
   * exactly when `step % ckpt_every == 0` and `step != 0`. The checkpoint
   * records this step and the loader position after this iteration's train
   * call, under "train_loader", and the save passes `delete_old` exactly when
   * `step % keep_every != 0`.
   */
  lemma StepCheckpoint(p: Params, round: seq<Event>, step: nat, position: nat)
    requires p.ckptEvery != 0 && p.keepEvery != 0 && RoundCalls(round)
    ensures var s := StepSpec(p, round, step, position);
      s.saved == (if CheckpointDue(step, p.ckptEvery) then [Checkpoint(step, LoaderAux(position + 1))] else []) &&
      ((exists i :: 0 <= i < |s.events| && s.events[i].Save?) <==> CheckpointDue(step, p.ckptEvery)) &&
      forall i :: 0 <= i < |s.events| && s.events[i].Save? ==>
        s.events[i] == Save(step, position + 1, DeleteOld(step, p.keepEvery))
  {
    var s := StepSpec(p, round, step, position);
    StepShape(p, round, step, position);
    if CheckpointDue(step, p.ckptEvery) {
      assert s.events[1].Save?;
    }
  }

  /**
   * An iteration that gets past its checkpoint test runs the benchmark tasks,
   * which end every evaluation round, exactly when `step % val_every == 0`,
   * and then ends with the whole round. A zero `keep_every` only matters at a
   * checkpoint step, where it raises before the evaluation test.
   */
  lemma StepEvaluates(p: Params, round: seq<Event>, step: nat, position: nat)
    requires p.ckptEvery != 0 && p.valEvery != 0 && RoundCalls(round)
    requires p.keepEvery != 0 || !CheckpointDue(step, p.ckptEvery)
    ensures var e := StepSpec(p, round, step, position).events;
      (exists i :: 0 <= i < |e| && e[i].RunTask?) <==> EvalDue(step, p.valEvery)
    ensures var e := StepSpec(p, round, step, position).events;
      EvalDue(step, p.valEvery) ==> |e| >= |round| && e[|e| - |round|..] == round
  {
    var e := StepSpec(p, round, step, position).events;
    if EvalDue(step, p.valEvery) {
      assert e[|e| - 1] == round[|round| - 1];
    } else {
      assert |e| <= 2;
    }
  }

  /**
   * What a bounded run of the loop called, the checkpoints it wrote, how many
   * iterations it finished, and whether one raised.
   */
  datatype LoopOutcome = LoopOutcome(events: seq<Event>, saved: seq<Checkpoint>, iterations: nat, raised: bool)

  /**
   * Up to `n` iterations from `step` with the loader at `position`, stopping
   * at the first one that raises: the run of `n - 1` iterations, then, unless
   * that one raised, the iteration at `step + n - 1`.
   */
  function LoopSpec(p: Params, round: seq<Event>, step: nat, position: nat, n: nat): LoopOutcome
    decreases n
  {
    if n == 0 then LoopOutcome([], [], 0, false)
    else
      var before := LoopSpec(p, round, step, position, n - 1);
      if before.raised then before
      else
        var s := StepSpec(p, round, step + (n - 1), position + (n - 1));
        LoopOutcome(before.events + s.events, before.saved + s.saved, if s.raised then n - 1 else n, s.raised)
  }

  /** One more iteration, for a run that has not raised yet. */
  lemma LoopSpecNext(p: Params, round: seq<Event>, step: nat, position: nat, m: nat)
    requires !LoopSpec(p, round, step, position, m).raised
    ensures var before := LoopSpec(p, round, step, position, m);
      var s := StepSpec(p, round, step + m, position + m);
      LoopSpec(p, round, step, position, m + 1)
        == LoopOutcome(before.events + s.events, before.saved + s.saved, if s.raised then m else m + 1, s.raised)
  {
  }

  /** Once a run has raised, allowing it more iterations changes nothing. */
  lemma {:induction false} LoopStopsAtRaise(p: Params, round: seq<Event>, step: nat, position: nat, m: nat, n: nat)
    requires m <= n && LoopSpec(p, round, step, position, m).raised
    ensures LoopSpec(p, round, step, position, n) == LoopSpec(p, round, step, position, m)
    decreases n
  {
    if n > m {
      LoopStopsAtRaise(p, round, step, position, m, n - 1);
    }
  }

  /**
   * A run of `n` iterations finishes all `n` when it does not raise, and with
   * non-zero intervals it never raises.
   */
  lemma {:induction false} LoopIterations(p: Params, round: seq<Event>, step: nat, position: nat, n: nat)
    ensures var r := LoopSpec(p, round, step, position, n);
      (r.raised ==> r.iterations < n) && (!r.raised ==> r.iterations == n) &&
      (IntervalsNonZero(p) ==> !r.raised)
    decreases n
  {
    if n > 0 {
      LoopIterations(p, round, step, position, n - 1);
      if !LoopSpec(p, round, step, position, n - 1).raised {
        StepRaises(p, round, step + (n - 1), position + (n - 1));
      }
    }
  }

  /**
   * A run makes one train call per iteration it finished, plus the one in the
   * iteration that raised.
   */
  lemma {:induction false} LoopTrainCount(p: Params, round: seq<Event>, step: nat, position: nat, n: nat)
    requires RoundCalls(round)
    ensures var r := LoopSpec(p, round, step, position, n);
      CountTrains(r.events) == r.iterations + (if r.raised then 1 else 0)
    decreases n
  {
    if n > 0 {
      var m := n - 1;
      var before := LoopSpec(p, round, step, position, m);
      LoopTrainCount(p, round, step, position, m);
      if !before.raised {
        LoopIterations(p, round, step, position, m);
        LoopSpecNext(p, round, step, position, m);
        var s := StepSpec(p, round, step + m, position + m);
        StepTrainsOnce(p, round, step + m, position + m);
        CountOneMore(before, s, m);
      }
    }
  }

  lemma CountOneMore(before: LoopOutcome, s: StepOutcome, m: nat)
    requires CountTrains(before.events) == m && CountTrains(s.events) == 1
    ensures var r := LoopOutcome(before.events + s.events, before.saved + s.saved, if s.raised then m else m + 1, s.raised);
      CountTrains(r.events) == r.iterations + (if r.raised then 1 else 0)
  {
    CountTrainsAppend(before.events, s.events);
  }

  /** The checkpoints a run stores are exactly the ones its calls write, in order. */
  lemma {:induction false} LoopWrites(p: Params, round: seq<Event>, step: nat, position: nat, n: nat)
    requires RoundCalls(round)
    ensures LoopSpec(p, round, step, position, n).saved == Written(LoopSpec(p, round, step, position, n).events)
    decreases n
  {
    if n > 0 {
      var m := n - 1;
      var before := LoopSpec(p, round, step, position, m);
      LoopWrites(p, round, step, position, m);
      if !before.raised {
        LoopSpecNext(p, round, step, position, m);
        StepWritesAfter(p, round, step + m, position + m, before.events, before.saved);
      }
    }
  }

  /** An iteration after calls `prior` that wrote `stored` extends the log by what it saves. */
  lemma StepWritesAfter(p: Params, round: seq<Event>, step: nat, position: nat, prior: seq<Event>, stored: seq<Checkpoint>)
    requires RoundCalls(round) && stored == Written(prior)
    ensures var s := StepSpec(p, round, step, position);
      stored + s.saved == Written(prior + s.events)
  {
    var s := StepSpec(p, round, step, position);
    StepWrites(p, round, step, position);
    WrittenAppend(prior, s.events);
  }

  /** An iteration after calls `prior` keeps every task run on batch `b`. */
  lemma StepTaskBatchesAfter(p: Params, round: seq<Event>, step: nat, position: nat, prior: seq<Event>, b: int)
    requires TaskBatches(round, b) && TaskBatches(prior, b)
    ensures TaskBatches(prior + StepSpec(p, round, step, position).events, b)
  {
    var c := CheckpointPart(p, step, position + 1);
    var e := StepSpec(p, round, step, position).events;
    var ev := EvalPart(p, round, step).events;
    assert TaskBatches(c.events, b);
    assert TaskBatches([Train(position)], b);
    TaskBatchesAppend([Train(position)], c.events, b);
    TaskBatchesAppend([Train(position)] + c.events, ev, b);
    assert TaskBatches(e, b);
    TaskBatchesAppend(prior, e, b);
  }

  /** A run keeps every task run on the batch its rounds use, and never opens the training loader. */
  lemma {:induction false} LoopTaskBatches(p: Params, round: seq<Event>, step: nat, position: nat, n: nat, b: int)
    requires TaskBatches(round, b)
    ensures TaskBatches(LoopSpec(p, round, step, position, n).events, b)
    decreases n
  {
    if n > 0 {
      var m := n - 1;
      var before := LoopSpec(p, round, step, position, m);
      LoopTaskBatches(p, round, step, position, m, b);
      if !before.raised {
        LoopSpecNext(p, round, step, position, m);
        StepTaskBatchesAfter(p, round, step + m, position + m, before.events, b);
      }
    }
  }

  /**
   * A longer run starts with a shorter one: what the first `m` iterations
   * called and stored comes first in any run of `n >= m` iterations.
   */
  lemma {:induction false} LoopExtends(p: Params, round: seq<Event>, step: nat, position: nat, m: nat, n: nat)
    requires m <= n
    ensures var short, long := LoopSpec(p, round, step, position, m), LoopSpec(p, round, step, position, n);
      |short.events| <= |long.events| && long.events[..|short.events|] == short.events &&
      |short.saved| <= |long.saved| && long.saved[..|short.saved|] == short.saved
    decreases n
  {
    if n > m {
      var k := n - 1;
      LoopExtends(p, round, step, position, m, k);
      var mid := LoopSpec(p, round, step, position, k);
      if !mid.raised {
        LoopSpecNext(p, round, step, position, k);
        var s := StepSpec(p, round, step + k, position + k);
        PrefixOfAppend(mid.events, s.events, LoopSpec(p, round, step, position, m).events);
        PrefixOfAppend(mid.saved, s.saved, LoopSpec(p, round, step, position, m).saved);
      }
    }
  }

  lemma PrefixOfAppend<T>(a: seq<T>, b: seq<T>, c: seq<T>)
    requires |c| <= |a| && a[..|c|] == c
    ensures |c| <= |a + b| && (a + b)[..|c|] == c
  {
    assert (a + b)[..|c|] == a[..|c|];
  }

  /**
   * With non-zero intervals a run of `n` iterations saves at every checkpoint
   * step it passes, recording the loader position reached by that step's
   * train call.
   */
  lemma {:induction false} LoopSavesEveryCheckpointStep(p: Params, round: seq<Event>, step: nat, position: nat, n: nat)
    requires IntervalsNonZero(p)
    ensures var saved := LoopSpec(p, round, step, position, n).saved;
      forall t :: step <= t < step + n && CheckpointDue(t, p.ckptEvery) ==>
        Checkpoint(t, LoaderAux(position + (t - step) + 1)) in saved
    decreases n
  {
    if n > 0 {
      var m := n - 1;
      var before := LoopSpec(p, round, step, position, m);
      LoopSavesEveryCheckpointStep(p, round, step, position, m);
      LoopIterations(p, round, step, position, m);
      LoopSpecNext(p, round, step, position, m);
      var s := StepSpec(p, round, step + m, position + m);
      StepSaved(p, round, step + m, position + m);
      var saved := before.saved + s.saved;
      forall t | step <= t < step + n && CheckpointDue(t, p.ckptEvery)
        ensures Checkpoint(t, LoaderAux(position + (t - step) + 1)) in saved
      {
        if t < step + m {
          var c := Checkpoint(t, LoaderAux(position + (t - step) + 1));
          var i :| 0 <= i < |before.saved| && before.saved[i] == c;
          assert saved[i] == c;
        } else {
          assert saved[|before.saved|] == s.saved[0];
        }
      }
    }
  }

  /**
   * Every checkpoint in `cs` is at a checkpoint step in `[step, step + n)` and
   * records the loader position reached by that step's train call, and their
   * steps strictly increase.
   */
  ghost predicate Aligned(cs: seq<Checkpoint>, p: Params, step: nat, position: nat, n: nat)
    requires p.ckptEvery != 0
  {
    (forall i :: 0 <= i < |cs| ==>
      CheckpointDue(cs[i].step, p.ckptEvery) && step <= cs[i].step < step + n &&
      cs[i].aux == LoaderAux(position + (cs[i].step - step) + 1)) &&
    (forall i, j :: 0 <= i < j < |cs| ==> cs[i].step < cs[j].step)
  }

  /**
   * Every checkpoint a run writes is at a checkpoint step within the run, and
   * records the loader position reached by that step's train call: the
   * recorded position and step never drift apart.
   */
  lemma {:induction false} LoopCheckpointsAligned(p: Params, round: seq<Event>, step: nat, position: nat, n: nat)
    requires p.ckptEvery != 0
    ensures Aligned(LoopSpec(p, round, step, position, n).saved, p, step, position, n)
    decreases n
  {
    if n > 0 {
      var m := n - 1;
      var before := LoopSpec(p, round, step, position, m);
      LoopCheckpointsAligned(p, round, step, position, m);
      if before.raised {
        AlignedSnoc(before.saved, [], p, step, position, m);
        assert before.saved + [] == before.saved;
      } else {
        LoopSpecNext(p, round, step, position, m);
        var s := StepSpec(p, round, step + m, position + m);
        StepSaved(p, round, step + m, position + m);
        AlignedSnoc(before.saved, s.saved, p, step, position, m);
      }
    }
  }

  lemma AlignedSnoc(init: seq<Checkpoint>, last: seq<Checkpoint>, p: Params, step: nat, position: nat, m: nat)
    requires p.ckptEvery != 0
    requires Aligned(init, p, step, position, m)
    requires last == [] ||
      (CheckpointDue(step + m, p.ckptEvery) && last == [Checkpoint(step + m, LoaderAux(position + m + 1))])
    ensures Aligned(init + last, p, step, position, m + 1)
  {
    var cs := init + last;
    forall i | 0 <= i < |cs|
      ensures CheckpointDue(cs[i].step, p.ckptEvery) && step <= cs[i].step < step + (m + 1) &&
        cs[i].aux == LoaderAux(position + (cs[i].step - step) + 1)
    {
      if i < |init| {
        assert cs[i] == init[i];
      }
    }
    forall i, j | 0 <= i < j < |cs|
      ensures cs[i].step < cs[j].step
    {
      assert cs[i] == init[i];
      if j < |init| {
        assert cs[j] == init[j];
      }
    }
  }
}
