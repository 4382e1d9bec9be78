/**
 * What an attempt does that can be observed from outside `main`: calls on the
 * model handle, on the data loaders and on the benchmark tasks, in order.
 * The handle, the loaders and the benchmark tasks are external; each call becomes an
 * event, and a checkpoint becomes a value; storage is the log of the
 * checkpoints written, in order.
 */
module Events {
  import opened Wrappers

  /** The benchmark tasks, in the order an evaluation round runs them. */
  datatype Task = Lambada | Winogrande | Piqa | HellaSwag

  /** The key under which a loop save records the training loader's state. */
  const TrainLoaderKey: string := "train_loader"

  /**
   * A durable checkpoint as `load` returns it: the step it was saved at and
   * its auxiliary mapping. The training loader's state is its position in the
   * training stream (how many batches were drawn from it).
   */
  datatype Checkpoint = Checkpoint(step: nat, aux: map<string, nat>)

  /** `aux={"train_loader": train_dataset.get_state()}`. */
  function LoaderAux(position: nat): map<string, nat> {
    map[TrainLoaderKey := position]
  }

  datatype Event =
    | InitSave(overwrite: bool, succeeded: bool)      // t.save(0, ..., init=True, overwrite=...)
    | Load(step: nat)                                 // t.load(...) returning this step
    | RestoreMissing                                  // warning: aux has no "train_loader"
    | OpenTrainLoader(accumulation: int, globalBatch: int, restore: Option<nat>)
    | Train(position: nat)                            // t.train on the batch at this position
    | WarmUpEval(valSet: string)                   // the compile-time t.eval on a validation set
    | Save(step: nat, loader: nat, deleteOld: bool)   // loop save with aux {"train_loader": loader}
    | Eval(valSet: string, batch: nat)             // t.eval on one batch of a validation pass
    | RunTask(task: Task, batchSize: int)             // task.run(global_val_batch, t)

  /** How many `t.train` calls `es` holds. */
  function CountTrains(es: seq<Event>): nat {
    if es == [] then 0
    else (if es[0].Train? then 1 else 0) + CountTrains(es[1..])
  }

  lemma {:induction false} CountTrainsAppend(a: seq<Event>, b: seq<Event>)
    ensures CountTrains(a + b) == CountTrains(a) + CountTrains(b)
    decreases |a|
  {
    if a != [] {
      assert (a + b)[1..] == a[1..] + b;
      CountTrainsAppend(a[1..], b);
    } else {
      assert a + b == b;
    }
  }

  lemma {:induction false} NoTrainCountsZero(es: seq<Event>)
    requires forall i :: 0 <= i < |es| ==> !es[i].Train?
    ensures CountTrains(es) == 0
    decreases |es|
  {
    if es != [] {
      NoTrainCountsZero(es[1..]);
    }
  }

  /**
   * The checkpoints that the calls in `es` write, in order: the fresh one of a
   * successful initial save, and the one of every loop save.
   */
  function Written(es: seq<Event>): seq<Checkpoint> {
    if es == [] then []
    else
      var first := match es[0]
        case InitSave(_, succeeded) => if succeeded then [Checkpoint(0, map[])] else []
        case Save(step, loader, _) => [Checkpoint(step, LoaderAux(loader))]
        case _ => [];
      first + Written(es[1..])
  }

  lemma {:induction false} WrittenAppend(a: seq<Event>, b: seq<Event>)
    ensures Written(a + b) == Written(a) + Written(b)
    decreases |a|
  {
    if a != [] {
      assert (a + b)[1..] == a[1..] + b;
      WrittenAppend(a[1..], b);
      var w := Written([a[0]]);
      assert Written([a[0]]) == w + Written([]);
      AppendAssoc(w, Written(a[1..]), Written(b));
    } else {
      assert a + b == b;
    }
  }

  /** Calls that are neither a save nor an initial save write nothing. */
  lemma {:induction false} NoSaveWritesNothing(es: seq<Event>)
    requires forall i :: 0 <= i < |es| ==> !es[i].Save? && !es[i].InitSave?
    ensures Written(es) == []
    decreases |es|
  {
    if es != [] {
      NoSaveWritesNothing(es[1..]);
    }
  }

  /** No call in `es` opens the training loader, and every task run in it gets batch `b`. */
  ghost predicate TaskBatches(es: seq<Event>, b: int) {
    forall i :: 0 <= i < |es| ==> !es[i].OpenTrainLoader? && (es[i].RunTask? ==> es[i].batchSize == b)
  }

  lemma TaskBatchesAppend(x: seq<Event>, y: seq<Event>, b: int)
    requires TaskBatches(x, b) && TaskBatches(y, b)
    ensures TaskBatches(x + y, b)
  {
    forall i | 0 <= i < |x + y|
      ensures !(x + y)[i].OpenTrainLoader? && ((x + y)[i].RunTask? ==> (x + y)[i].batchSize == b)
    {
      if i >= |x| {
        assert (x + y)[i] == y[i - |x|];
      }
    }
  }

  /** Regrouping a concatenation, for appends made one after another. */
  lemma AppendAssoc<T>(a: seq<T>, b: seq<T>, c: seq<T>)
    ensures a + b + c == a + (b + c)
  {
  }
}
