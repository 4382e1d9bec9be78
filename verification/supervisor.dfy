/**
 * One call of `main(first)` as an attempt, and the `__main__` loop that keeps
 * calling it: a KeyboardInterrupt ends the loop, any other exception starts
 * another attempt with `first = False`.
 */
module Supervisor {
  import opened Wrappers
  import opened Config
  import opened Schedule
  import opened Events
  import opened Evaluation
  import opened Initialise
  import opened StepLoop

  datatype StopKind = Interrupt | Crash

  /**
   * How the outside world ends an attempt: a KeyboardInterrupt, or any other
   * exception from the model handle, a loader or a task, arriving either
   * while `build_model` runs, before the initial save, or in the step loop
   * after `after` iterations.
   */
  datatype Stop =
    | BeforeSave(kind: StopKind)
    | InLoop(kind: StopKind, after: nat)

  /** How an attempt ended: by KeyboardInterrupt, or by any other exception. */
  datatype AttemptOutcome = Interrupted | Failed

  /** The outcome of an attempt that the outside world ended. */
  function Ended(kind: StopKind): AttemptOutcome {
    if kind == Interrupt then Interrupted else Failed
  }

  datatype AttemptResult = AttemptResult(events: seq<Event>, store: seq<Checkpoint>, outcome: AttemptOutcome)

  /** The compile-time eval call on one batch of each validation set, in order. */
  function WarmUpEvals(sets: seq<ValSet>): seq<Event>
    decreases |sets|
  {
    if sets == [] then [] else WarmUpEvals(sets[..|sets| - 1]) + [WarmUpEval(sets[|sets| - 1].name)]
  }

  /** Properties of the config under which `main` raises nothing of its own. */
  predicate WellFormed(p: Params) {
    ParsePe(p.pe).Some? && p.coresPerReplica != 0 && IntervalsNonZero(p)
  }

  /**
   * What `main` has called and stored when its step loop is about to start,
   * the step and loader position it starts from, and whether it got there.
   */
  datatype StartOutcome = StartOutcome(events: seq<Event>, store: seq<Checkpoint>, step: nat, position: nat, ready: bool)

  /**
   * `main` up to its step loop: the `pe` check, initialise-or-resume, the
   * batch arithmetic, opening the training loader at the restored position,
   * and the warm-up train and eval calls. It stops short of the loop exactly
   * when the `pe` assertion fails or the `//` by `cores_per_replica` raises.
   */
  function StartSpec(p: Params, cleanStart: bool, store: seq<Checkpoint>): (r: StartOutcome)
    ensures r.ready <==> ParsePe(p.pe).Some? && p.coresPerReplica != 0
  {
    if ParsePe(p.pe).None? then StartOutcome([], store, 0, 0, false)
    else
      var init := InitSpec(store, cleanStart);
      if p.coresPerReplica == 0 then StartOutcome(init.events, init.store, init.step, 0, false)
      else
        var shape := TrainBatchShape(p);
        var start := init.restore.GetOr(0);
        var open := [OpenTrainLoader(shape.0, shape.1, init.restore)];
        var warmUp := [Train(start)] + WarmUpEvals(p.valSets);
        StartOutcome(init.events + open + warmUp, init.store, init.step, start + 1, true)
  }

  /**
   * The warm-up before the loop makes exactly one train call, on the batch at
   * the restored loader position, and leaves the step where initialise-or-resume
   * put it: the loop's first iteration runs at that step, on the next batch.
   */
  lemma WarmUpKeepsStep(p: Params, cleanStart: bool, store: seq<Checkpoint>)
    requires ParsePe(p.pe).Some? && p.coresPerReplica != 0
    ensures var s := StartSpec(p, cleanStart, store);
      var init := InitSpec(store, cleanStart);
      s.step == init.step && s.position == init.restore.GetOr(0) + 1 &&
      CountTrains(s.events) == 1 && Train(init.restore.GetOr(0)) in s.events
  {
    var init := InitSpec(store, cleanStart);
    var shape := TrainBatchShape(p);
    var start := init.restore.GetOr(0);
    var open := [OpenTrainLoader(shape.0, shape.1, init.restore)];
    var warmUp := [Train(start)] + WarmUpEvals(p.valSets);
    WarmUpEvalsOnly(p.valSets);
    NoTrainCountsZero(init.events);
    NoTrainCountsZero(open);
    NoTrainCountsZero(WarmUpEvals(p.valSets));
    NoTrainCountsZero([]);
    CountTrainsAppend([Train(start)], WarmUpEvals(p.valSets));
    CountTrainsAppend(init.events, open);
    CountTrainsAppend(init.events + open, warmUp);
    assert StartSpec(p, cleanStart, store).events == init.events + open + warmUp;
    assert warmUp[0] == Train(start);
  }

  /**
   * `main(first)`: its start, then the step loop until it raises or `stop`
   * ends it. The `pe` assertion comes before `build_model`, so it fails the
   * attempt even when `stop` would have ended it in `build_model`.
   */
  function AttemptSpec(p: Params, newRun: bool, first: bool, store: seq<Checkpoint>, stop: Stop): AttemptResult {
    if stop.BeforeSave? then
      AttemptResult([], store, if ParsePe(p.pe).None? then Failed else Ended(stop.kind))
    else
      var s := StartSpec(p, CleanStart(newRun, first), store);
      if !s.ready then AttemptResult(s.events, s.store, Failed)
      else
        var loop := LoopSpec(p, Round(p, GlobalBatch(p)), s.step, s.position, stop.after);
        AttemptResult(s.events + loop.events, s.store + loop.saved,
                      if loop.raised then Failed else Ended(stop.kind))
  }

  datatype SuperviseResult = SuperviseResult(events: seq<Event>, store: seq<Checkpoint>, interrupted: bool, attempts: nat)

  /**
   * The `__main__` loop over the attempts that `stops` ends: stop after an
   * attempt ends by KeyboardInterrupt, otherwise start the next one with
   * `first = False`.
   */
  function SuperviseSpec(p: Params, newRun: bool, first: bool, store: seq<Checkpoint>, stops: seq<Stop>): SuperviseResult
    decreases |stops|
  {
    if stops == [] then SuperviseResult([], store, false, 0)
    else
      var a := AttemptSpec(p, newRun, first, store, stops[0]);
      if a.outcome == Interrupted then SuperviseResult(a.events, a.store, true, 1)
      else
        var rest := SuperviseSpec(p, newRun, false, a.store, stops[1..]);
        SuperviseResult(a.events + rest.events, rest.store, rest.interrupted, rest.attempts + 1)
  }

  /** The supervisor's loop, one attempt at a time. */
  lemma SuperviseSpecNext(p: Params, newRun: bool, first: bool, store: seq<Checkpoint>, stops: seq<Stop>)
    requires stops != []
    ensures var a := AttemptSpec(p, newRun, first, store, stops[0]);
      var later := SuperviseSpec(p, newRun, false, a.store, stops[1..]);
      SuperviseSpec(p, newRun, first, store, stops)
        == if a.outcome == Interrupted then SuperviseResult(a.events, a.store, true, 1)
           else SuperviseResult(a.events + later.events, later.store, later.interrupted, later.attempts + 1)
  {
  }

  /** No event of `es` is an initial save that overwrites. */
  ghost predicate NoOverwrite(es: seq<Event>) {
    forall i :: 0 <= i < |es| ==> !(es[i].InitSave? && es[i].overwrite)
  }

  /** No event of `es` is an initial save. */
  ghost predicate NoInitSave(es: seq<Event>) {
    forall i :: 0 <= i < |es| ==> !es[i].InitSave?
  }

  lemma {:induction false} WarmUpEvalsOnly(sets: seq<ValSet>)
    ensures forall i :: 0 <= i < |WarmUpEvals(sets)| ==> WarmUpEvals(sets)[i].WarmUpEval?
    decreases |sets|
  {
    if sets != [] {
      WarmUpEvalsOnly(sets[..|sets| - 1]);
    }
  }

  /** The step loop never makes an initial save. */
  lemma {:induction false} LoopNoInitSave(p: Params, round: seq<Event>, step: nat, position: nat, n: nat)
    requires RoundCalls(round)
    ensures NoInitSave(LoopSpec(p, round, step, position, n).events)
    decreases n
  {
    if n > 0 {
      var m := n - 1;
      var before := LoopSpec(p, round, step, position, m);
      LoopNoInitSave(p, round, step, position, m);
      if !before.raised {
        LoopSpecNext(p, round, step, position, m);
        var s := StepSpec(p, round, step + m, position + m);
        StepShape(p, round, step + m, position + m);
        assert NoInitSave(s.events);
        NoInitSaveAppend(before.events, s.events);
      }
    }
  }

  /**
   * Once the `pe` check passes, an attempt that gets past `build_model` starts
   * with initialise-or-resume, and nothing it calls afterwards is an initial
   * save; one that ends in `build_model` calls nothing.
   */
  lemma AttemptAfterInit(p: Params, newRun: bool, first: bool, store: seq<Checkpoint>, stop: Stop)
    requires ParsePe(p.pe).Some?
    ensures stop.BeforeSave? ==> AttemptSpec(p, newRun, first, store, stop).events == []
    ensures var a := AttemptSpec(p, newRun, first, store, stop);
      var init := InitSpec(store, CleanStart(newRun, first));
      stop.InLoop? ==>
        |init.events| <= |a.events| && a.events[..|init.events|] == init.events &&
        NoInitSave(a.events[|init.events|..])
  {
    if stop.InLoop? {
      var cleanStart := CleanStart(newRun, first);
      var init := InitSpec(store, cleanStart);
      var st := StartSpec(p, cleanStart, store);
      StartAfterInit(p, cleanStart, store);
      if st.ready {
        var round := Round(p, GlobalBatch(p));
        var loop := LoopSpec(p, round, st.step, st.position, stop.after);
        RoundHasRoundCalls(p.valSets, p.valBatches, GlobalBatch(p));
        LoopNoInitSave(p, round, st.step, st.position, stop.after);
        PrefixNoInitSave(st.events, loop.events, |init.events|);
      }
    }
  }

  /** Initialise-or-resume comes first in `main`, and no initial save follows it. */
  lemma StartAfterInit(p: Params, cleanStart: bool, store: seq<Checkpoint>)
    requires ParsePe(p.pe).Some?
    ensures var s := StartSpec(p, cleanStart, store);
      var init := InitSpec(store, cleanStart);
      |init.events| <= |s.events| && s.events[..|init.events|] == init.events &&
      NoInitSave(s.events[|init.events|..])
  {
    var init := InitSpec(store, cleanStart);
    var s := StartSpec(p, cleanStart, store);
    if p.coresPerReplica != 0 {
      var shape := TrainBatchShape(p);
      var open := [OpenTrainLoader(shape.0, shape.1, init.restore)];
      var warmUp := [Train(init.restore.GetOr(0))] + WarmUpEvals(p.valSets);
      WarmUpEvalsOnly(p.valSets);
      assert NoInitSave(warmUp);
      NoInitSaveAppend(open, warmUp);
      AppendAssoc(init.events, open, warmUp);
      assert s.events == init.events + (open + warmUp);
      assert s.events[|init.events|..] == open + warmUp;
    } else {
      assert s.events[|init.events|..] == [];
    }
  }

  lemma PrefixNoInitSave(x: seq<Event>, y: seq<Event>, k: nat)
    requires k <= |x| && NoInitSave(x[k..]) && NoInitSave(y)
    ensures (x + y)[..k] == x[..k] && NoInitSave((x + y)[k..])
  {
    assert (x + y)[k..] == x[k..] + y;
    NoInitSaveAppend(x[k..], y);
  }

  /**
   * An attempt makes at most one initial save, as its first call, passing
   * `overwrite = new and first`.
   */
  lemma AttemptInitSave(p: Params, newRun: bool, first: bool, store: seq<Checkpoint>, stop: Stop)
    ensures var a := AttemptSpec(p, newRun, first, store, stop);
      forall i :: 0 <= i < |a.events| && a.events[i].InitSave? ==>
        i == 0 && a.events[i].overwrite == (newRun && first)
  {
    var a := AttemptSpec(p, newRun, first, store, stop);
    var cleanStart := CleanStart(newRun, first);
    var init := InitSpec(store, cleanStart);
    if ParsePe(p.pe).Some? && stop.InLoop? {
      AttemptAfterInit(p, newRun, first, store, stop);
      assert init.events[0] == InitSave(cleanStart, !InitSaveFails(store, cleanStart));
      assert NoInitSave(init.events[1..]);
      forall i | 0 <= i < |a.events|
        ensures a.events[i].InitSave? ==> i == 0 && a.events[i].overwrite == (newRun && first)
      {
        if i >= |init.events| {
          assert a.events[i] == a.events[|init.events|..][i - |init.events|];
        } else {
          assert a.events[i] == init.events[i];
          if i > 0 {
            assert init.events[i] == init.events[1..][i - 1];
          }
        }
      }
    }
  }

  /**
   * Storage after an attempt is what was there (nothing, once a clean start's
   * initial save has overwritten it) followed by every checkpoint the
   * attempt's calls wrote, in order.
   */
  lemma AttemptWrites(p: Params, newRun: bool, first: bool, store: seq<Checkpoint>, stop: Stop)
    ensures var a := AttemptSpec(p, newRun, first, store, stop);
      a.store == (if CleanStart(newRun, first) && a.events != [] then [] else store) + Written(a.events)
  {
    var a := AttemptSpec(p, newRun, first, store, stop);
    var cleanStart := CleanStart(newRun, first);
    if stop.InLoop? && ParsePe(p.pe).Some? {
      var st := StartSpec(p, cleanStart, store);
      StartWrites(p, cleanStart, store);
      if st.ready {
        var round := Round(p, GlobalBatch(p));
        var loop := LoopSpec(p, round, st.step, st.position, stop.after);
        RoundHasRoundCalls(p.valSets, p.valBatches, GlobalBatch(p));
        LoopWrites(p, round, st.step, st.position, stop.after);
        WrittenAppend(st.events, loop.events);
        AppendAssoc(if cleanStart then [] else store, Written(st.events), Written(loop.events));
      }
    }
  }

  /**
   * Storage when `main` is about to loop, or has raised before: what was there
   * (nothing after a clean start) followed by what its calls wrote.
   */
  lemma StartWrites(p: Params, cleanStart: bool, store: seq<Checkpoint>)
    requires ParsePe(p.pe).Some?
    ensures var s := StartSpec(p, cleanStart, store);
      s.events != [] && s.store == (if cleanStart then [] else store) + Written(s.events)
  {
    var init := InitSpec(store, cleanStart);
    InitWrites(store, cleanStart);
    if p.coresPerReplica != 0 {
      var shape := TrainBatchShape(p);
      var open := [OpenTrainLoader(shape.0, shape.1, init.restore)];
      var warmUp := [Train(init.restore.GetOr(0))] + WarmUpEvals(p.valSets);
      WarmUpEvalsOnly(p.valSets);
      NoSaveWritesNothing(open);
      NoSaveWritesNothing(warmUp);
      WrittenAppend(init.events, open);
      WrittenAppend(init.events + open, warmUp);
    }
  }

  /**
   * The calls before the loop run no benchmark task, and the one that opens
   * the training loader uses the configured accumulation (1 when unset) and
   * the global batch.
   */
  lemma StartBatches(p: Params, cleanStart: bool, store: seq<Checkpoint>)
    ensures var e := StartSpec(p, cleanStart, store).events;
      forall i :: 0 <= i < |e| ==>
        !e[i].RunTask? &&
        (e[i].OpenTrainLoader? ==>
           p.coresPerReplica != 0 &&
           e[i].accumulation == p.gradientAccumulationSteps.GetOr(1) && e[i].globalBatch == GlobalBatch(p))
  {
    if ParsePe(p.pe).Some? && p.coresPerReplica != 0 {
      var init := InitSpec(store, cleanStart);
      var shape := TrainBatchShape(p);
      var open := [OpenTrainLoader(shape.0, shape.1, init.restore)];
      var warmUp := [Train(init.restore.GetOr(0))] + WarmUpEvals(p.valSets);
      WarmUpEvalsOnly(p.valSets);
      var e := init.events + open + warmUp;
      forall i | 0 <= i < |e|
        ensures !e[i].RunTask? && (e[i].OpenTrainLoader? ==> e[i] == open[0])
      {
        if i < |init.events| {
          assert e[i] == init.events[i];
        } else if i == |init.events| {
          assert e[i] == open[0];
        } else {
          assert e[i] == warmUp[i - |init.events| - 1];
        }
      }
    }
  }

  /**
   * Training and evaluation agree on the batch: every attempt opens the
   * training loader with the global batch and the configured accumulation
   * (1 when unset), and runs every benchmark task with that same global
   * batch.
   */
  lemma AttemptBatchesAgree(p: Params, newRun: bool, first: bool, store: seq<Checkpoint>, stop: Stop)
    ensures var e := AttemptSpec(p, newRun, first, store, stop).events;
      (forall i :: 0 <= i < |e| && e[i].OpenTrainLoader? ==>
         p.coresPerReplica != 0 &&
         e[i].accumulation == p.gradientAccumulationSteps.GetOr(1) && e[i].globalBatch == GlobalBatch(p)) &&
      (forall j :: 0 <= j < |e| && e[j].RunTask? ==> p.coresPerReplica != 0 && e[j].batchSize == GlobalBatch(p))
    ensures var e := AttemptSpec(p, newRun, first, store, stop).events;
      forall i, j :: 0 <= i < |e| && 0 <= j < |e| && e[i].OpenTrainLoader? && e[j].RunTask? ==>
        e[i].globalBatch == e[j].batchSize
  {
    var e := AttemptSpec(p, newRun, first, store, stop).events;
    var cleanStart := CleanStart(newRun, first);
    if stop.InLoop? {
      var st := StartSpec(p, cleanStart, store);
      StartBatches(p, cleanStart, store);
      if st.ready {
        var b := GlobalBatch(p);
        var loop := LoopSpec(p, Round(p, b), st.step, st.position, stop.after);
        RoundTaskBatches(p.valSets, p.valBatches, b);
        LoopTaskBatches(p, Round(p, b), st.step, st.position, stop.after, b);
        assert e == st.events + loop.events;
        forall i | 0 <= i < |e| && |st.events| <= i
          ensures !e[i].OpenTrainLoader? && (e[i].RunTask? ==> e[i].batchSize == b)
        {
          assert e[i] == loop.events[i - |st.events|];
        }
      }
    }
  }

  /**
   * An attempt that is not the first never overwrites: storage afterwards is
   * the earlier storage followed by the checkpoints the attempt wrote, so
   * every checkpoint written before stays in the write log.
   */
  lemma AttemptKeepsStore(p: Params, newRun: bool, store: seq<Checkpoint>, stop: Stop)
    ensures var a := AttemptSpec(p, newRun, false, store, stop);
      a.store == store + Written(a.events) && |store| <= |a.store| && a.store[..|store|] == store
  {
    AttemptWrites(p, newRun, false, store, stop);
  }

  lemma NoInitSaveAppend(x: seq<Event>, y: seq<Event>)
    requires NoInitSave(x) && NoInitSave(y)
    ensures NoInitSave(x + y)
  {
    forall i | 0 <= i < |x + y|
      ensures !(x + y)[i].InitSave?
    {
      if i >= |x| {
        assert (x + y)[i] == y[i - |x|];
      }
    }
  }

  /**
   * Crash recovery is never destructive: the attempts after the first pass
   * `overwrite = False`, and storage afterwards is the earlier storage
   * followed by every checkpoint they wrote.
   */
  lemma {:induction false} LaterAttemptsKeepCheckpoints(p: Params, newRun: bool, store: seq<Checkpoint>, stops: seq<Stop>)
    ensures var r := SuperviseSpec(p, newRun, false, store, stops);
      NoOverwrite(r.events) && r.store == store + Written(r.events) &&
      |store| <= |r.store| && r.store[..|store|] == store
    decreases |stops|
  {
    if stops != [] {
      var a := AttemptSpec(p, newRun, false, store, stops[0]);
      AttemptInitSave(p, newRun, false, store, stops[0]);
      AttemptKeepsStore(p, newRun, store, stops[0]);
      assert NoOverwrite(a.events);
      if a.outcome != Interrupted {
        LaterAttemptsKeepCheckpoints(p, newRun, a.store, stops[1..]);
        var rest := SuperviseSpec(p, newRun, false, a.store, stops[1..]);
        assert rest.store[..|store|] == rest.store[..|a.store|][..|store|];
        WrittenAppend(a.events, rest.events);
        AppendAssoc(store, Written(a.events), Written(rest.events));
        assert NoOverwrite(a.events + rest.events) by {
          forall i | 0 <= i < |a.events + rest.events|
            ensures !((a.events + rest.events)[i].InitSave? && (a.events + rest.events)[i].overwrite)
          {
            if i >= |a.events| {
              assert (a.events + rest.events)[i] == rest.events[i - |a.events|];
            }
          }
        }
      }
    }
  }

  /**
   * Across the whole process, an initial save passes `overwrite = True` only
   * when `--new` is set, and only as the first call of the first attempt.
   */
  lemma OnlyFirstAttemptMayOverwrite(p: Params, newRun: bool, store: seq<Checkpoint>, stops: seq<Stop>)
    ensures var e := SuperviseSpec(p, newRun, true, store, stops).events;
      forall i :: 0 <= i < |e| && e[i].InitSave? && e[i].overwrite ==> newRun && i == 0
  {
    if stops != [] {
      var a := AttemptSpec(p, newRun, true, store, stops[0]);
      AttemptInitSave(p, newRun, true, store, stops[0]);
      if a.outcome != Interrupted {
        LaterAttemptsKeepCheckpoints(p, newRun, a.store, stops[1..]);
        var rest := SuperviseSpec(p, newRun, false, a.store, stops[1..]);
        var e := a.events + rest.events;
        forall i | 0 <= i < |e|
          ensures e[i].InitSave? && e[i].overwrite ==> newRun && i == 0
        {
          if i >= |a.events| {
            assert e[i] == rest.events[i - |a.events|];
          }
        }
      }
    }
  }

  /**
   * The supervisor stops only after an attempt ended by KeyboardInterrupt
   * (the last one it ran); otherwise it runs one attempt per stop.
   */
  lemma {:induction false} StopsOnlyOnInterrupt(p: Params, newRun: bool, first: bool, store: seq<Checkpoint>, stops: seq<Stop>)
    ensures var r := SuperviseSpec(p, newRun, first, store, stops);
      (r.interrupted ==> 1 <= r.attempts <= |stops| && stops[r.attempts - 1].kind == Interrupt) &&
      (!r.interrupted ==> r.attempts == |stops|)
    decreases |stops|
  {
    if stops != [] {
      var a := AttemptSpec(p, newRun, first, store, stops[0]);
      if a.outcome != Interrupted {
        StopsOnlyOnInterrupt(p, newRun, false, a.store, stops[1..]);
      }
    }
  }

  /**
   * With a config `main` itself never raises on, an attempt ends exactly as
   * the outside world ends it.
   */
  lemma AttemptEndsByStop(p: Params, newRun: bool, first: bool, store: seq<Checkpoint>, stop: Stop)
    requires WellFormed(p)
    ensures AttemptSpec(p, newRun, first, store, stop).outcome == (if stop.kind == Interrupt then Interrupted else Failed)
  {
    if stop.InLoop? {
      var init := InitSpec(store, CleanStart(newRun, first));
      var start := init.restore.GetOr(0);
      LoopIterations(p, Round(p, GlobalBatch(p)), init.step, start + 1, stop.after);
    }
  }

  /**
   * With such a config, the first KeyboardInterrupt ends the supervisor, and
   * every attempt before it was restarted.
   */
  lemma {:induction false} FirstInterruptEnds(p: Params, newRun: bool, first: bool, store: seq<Checkpoint>, stops: seq<Stop>)
    requires WellFormed(p)
    ensures var r := SuperviseSpec(p, newRun, first, store, stops);
      forall j :: 0 <= j < |stops| && stops[j].kind == Interrupt ==> r.interrupted && r.attempts <= j + 1
    decreases |stops|
  {
    if stops != [] {
      AttemptEndsByStop(p, newRun, first, store, stops[0]);
      var a := AttemptSpec(p, newRun, first, store, stops[0]);
      if a.outcome != Interrupted {
        FirstInterruptEnds(p, newRun, false, a.store, stops[1..]);
        var r := SuperviseSpec(p, newRun, first, store, stops);
        forall j | 0 <= j < |stops| && stops[j].kind == Interrupt
          ensures r.interrupted && r.attempts <= j + 1
        {
          assert j > 0 && stops[1..][j - 1] == stops[j];
        }
      }
    }
  }

  /**
   * A restarted attempt resumes from the last checkpoint: with the last one at
   * step S recording loader position C, it loads step S, reopens the training
   * loader at C and trains next on the batch at C.
   */
  lemma RestartResumes(p: Params, newRun: bool, store: seq<Checkpoint>, s: nat, c: nat, stop: Stop)
    requires ParsePe(p.pe).Some? && p.coresPerReplica != 0
    ensures var e := AttemptSpec(p, newRun, false, store + [Checkpoint(s, LoaderAux(c))], stop).events;
      stop.InLoop? ==>
        |e| >= 4 && e[0] == InitSave(false, false) && e[1] == Load(s) &&
        e[2] == OpenTrainLoader(TrainBatchShape(p).0, GlobalBatch(p), Some(c)) && e[3] == Train(c)
    ensures stop.BeforeSave? ==> AttemptSpec(p, newRun, false, store + [Checkpoint(s, LoaderAux(c))], stop).events == []
  {
    SaveLoadRoundTrip(store, s, c);
  }

  /**
   * The restart scenario: the last checkpoint is at step 200 with loader
   * position 4096 while the crash hit at step 237. The restarted attempt
   * loads step 200, trains next on the batch at 4096, and its first loop
   * iteration runs at step 200.
   */
  lemma RestartScenario(p: Params, store: seq<Checkpoint>)
    requires WellFormed(p) && p.ckptEvery == 100
    ensures var e := AttemptSpec(p, false, false, store + [Checkpoint(200, LoaderAux(4096))], InLoop(Crash, 1)).events;
      |e| >= 4 && e[1] == Load(200) && e[3] == Train(4096) &&
      Save(200, 4098, DeleteOld(200, p.keepEvery)) in e
  {
    var st := store + [Checkpoint(200, LoaderAux(4096))];
    SaveLoadRoundTrip(store, 200, 4096);
    var init := InitSpec(st, false);
    var loop := LoopSpec(p, Round(p, GlobalBatch(p)), 200, 4097, 1);
    var step := StepSpec(p, Round(p, GlobalBatch(p)), 200, 4097);
    assert CheckpointDue(200, 100);
    StepRaises(p, Round(p, GlobalBatch(p)), 200, 4097);
    assert step.events[1] == Save(200, 4098, DeleteOld(200, p.keepEvery));
    assert loop.events == [] + step.events;
    var e := AttemptSpec(p, false, false, st, InLoop(Crash, 1)).events;
    var pre := init.events + [OpenTrainLoader(TrainBatchShape(p).0, GlobalBatch(p), Some(4096))] + ([Train(4096)] + WarmUpEvals(p.valSets));
    assert e == pre + loop.events;
    assert e[|pre| + 1] == Save(200, 4098, DeleteOld(200, p.keepEvery));
  }

  /**
   * A restarted attempt repeats the step of the checkpoint it resumed from,
   * and the checkpoint it writes there records a loader position two batches
   * further on: the warm-up train call uses the batch at C and the repeated
   * step the one at C + 1.
   */
  lemma RestartDrift(p: Params, newRun: bool, store: seq<Checkpoint>, s: nat, c: nat, kind: StopKind, after: nat)
    requires ParsePe(p.pe).Some? && p.coresPerReplica != 0 && p.ckptEvery != 0 && p.keepEvery != 0
    requires CheckpointDue(s, p.ckptEvery) && after >= 1
    ensures var st := store + [Checkpoint(s, LoaderAux(c))];
      var a := AttemptSpec(p, newRun, false, st, InLoop(kind, after));
      |a.store| > |st| && a.store[..|st|] == st && a.store[|st|] == Checkpoint(s, LoaderAux(c + 2))
  {
    var st := store + [Checkpoint(s, LoaderAux(c))];
    var start := StartSpec(p, false, st);
    SaveLoadRoundTrip(store, s, c);
    assert start.ready && start.step == s && start.position == c + 1 && start.store == st;
    var round := Round(p, GlobalBatch(p));
    var loop := LoopSpec(p, round, s, c + 1, after);
    LoopFirstSave(p, round, s, c + 1, after);
    assert (st + loop.saved)[|st|] == loop.saved[0];
  }

  /**
   * A run that starts at a checkpoint step saves there first, recording the
   * loader position after its first train call.
   */
  lemma LoopFirstSave(p: Params, round: seq<Event>, step: nat, position: nat, n: nat)
    requires p.ckptEvery != 0 && p.keepEvery != 0 && CheckpointDue(step, p.ckptEvery) && n >= 1
    ensures var saved := LoopSpec(p, round, step, position, n).saved;
      saved != [] && saved[0] == Checkpoint(step, LoaderAux(position + 1))
  {
    LoopSpecNext(p, round, step, position, 0);
    StepSaved(p, round, step, position);
    LoopExtends(p, round, step, position, 1, n);
    assert LoopSpec(p, round, step, position, 1).saved == [Checkpoint(step, LoaderAux(position + 1))];
  }

  /**
   * A first attempt with `--new` that ends in `build_model` never makes its
   * clean initial save, and every later attempt runs with `first = False`: the
   * clean start is lost, nothing is overwritten, and the old checkpoints stay.
   */
  lemma CleanStartLost(p: Params, store: seq<Checkpoint>, stops: seq<Stop>)
    requires stops != [] && stops[0].BeforeSave?
    ensures var r := SuperviseSpec(p, true, true, store, stops);
      NoOverwrite(r.events) && r.store == store + Written(r.events)
  {
    var a := AttemptSpec(p, true, true, store, stops[0]);
    assert a.events == [] && a.store == store;
    if a.outcome != Interrupted {
      LaterAttemptsKeepCheckpoints(p, true, store, stops[1..]);
      var rest := SuperviseSpec(p, true, false, store, stops[1..]);
      assert a.events + rest.events == rest.events;
    }
  }
}
