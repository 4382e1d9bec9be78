# train.py orchestration, modelled in Dafny

`train.py` of mesh-transformer-jax drives a long training run of a sequence
model. Most of it is glue around the model handle built by `build_model`, the
`TFRecordNewInputs` data loaders, the benchmark tasks and `wandb`. Inside that
glue is a small state machine, and that is what this project models:

- **the `__main__` supervisor**: call `main(first)` over and over, stop on
  `KeyboardInterrupt`, swallow every other exception, and set `first = False`
  after the first attempt. The flag gates `clean_start = args.new and first`.
- **the start of `main`**:
  - the `pe` check;
  - initialise-or-resume: try an initial `save` at step 0, and load the last
    checkpoint when that raises;
  - the batch arithmetic `per_replica_batch * tpu_size // cores_per_replica`;
  - opening the training loader at the restored position;
  - the compile-time warm-up calls.
- **the step loop**: one `train` call per iteration, then the checkpoint test
  `step % ckpt_every == 0 and step` with `delete_old = step % keep_every != 0`,
  then the evaluation test `step % val_every == 0`, then `step += 1`. An
  evaluation round runs one validation pass per set, each capped at
  `val_batches` batches, then lambada, winogrande, piqa and hellaswag.

Calls on external collaborators become `Event`s appended to a trace.
Checkpoint storage becomes the log of checkpoint writes: a sequence of
`Checkpoint(step, aux)` values. A clean start's initial save replaces the log
with the fresh checkpoint, and every other write appends to it (`Written`
lists what a run of calls writes). `load` returns the last entry. What
`delete_old` prunes is not modelled, so where a row below says a checkpoint
"stays", it stays in the write log.

- Each part has a specification function: `InitSpec`, `StepSpec`,
  `LoopSpec`, `StartSpec`, `AttemptSpec` and `SuperviseSpec`.
- Lemmas state what the source promises about those functions.
- The class `Trainer.Run` holds the state that `main` and `__main__` change:
  the store, the trace, `step` and the loader position.
- Its loops are methods proved to produce exactly what the specification
  functions describe.

Modules, one per file:

- `Wrappers`: `Option`.
- `Config`:
  - the configuration keys;
  - Python's `//` and `%`;
  - the batch shape;
  - the `pe` check;
  - `clean_start`.
- `Schedule`: the checkpoint, `delete_old` and evaluation predicates.
- `Events`: the event alphabet, train-call counting and the write log `Written`.
- `Evaluation`: one evaluation round.
- `Initialise`: initialise-or-resume, with the assumed behaviour of the
  handle's initial save.
- `StepLoop`: one iteration and a bounded run of the loop.
- `Supervisor`: an attempt and the restart loop.
- `Trainer`: the imperative class.

Python's `//` rounds toward negative infinity, and its `%` takes the divisor's sign. They are written out as
`PyMod` and `FloorDiv`. A zero `ckpt_every`, `val_every` or `keep_every`
raises `ZeroDivisionError` exactly where Python evaluates the `%`:

- `ckpt_every`: in every iteration;
- `keep_every`: only at a checkpoint step;
- `val_every`: whenever the checkpoint test got through.

A raise ends the attempt, and the supervisor then restarts it. The outside
world ends an attempt with a `Stop`, whose `kind` is a `KeyboardInterrupt`
or any other exception:

- `BeforeSave(kind)`: the exception comes out of `build_model`, after the
  `pe` check and before the initial save;
- `InLoop(kind, after)`: the exception comes after `after` iterations of the
  step loop.

A restart repeats the step of the checkpoint it resumed from. Say that
checkpoint is at step S and records loader position C. The warm-up train call
draws the batch at C, and the repeated step S trains on the batch at C + 1.
So the checkpoint written again at S records C + 2 (`Supervisor.RestartDrift`).
Each restart moves the recorded position two batches ahead of the step that
records it. The code does exactly this, and the model follows it.

## Model

| member | source | states |
|---|---|---|
| Config.ParsePe | train.py:63-64 | the check passes exactly for "fixed", "rotary" and "t5", and the parsed mode names the same string back |
| Config.PeNameParses | train.py:64 | every positional-encoding mode's name passes the check and parses to that mode |
| Config.FloorDivMod | train.py:86 | Python's division identity `a == b * (a // b) + a % b`, with the remainder on the divisor's side of zero; Python's remainder is zero exactly when Dafny's Euclidean one is |
| Config.GlobalBatchBounds | train.py:86 | with positive `cores_per_replica`, `global_val_batch` is the largest whole batch per replica group: `cores * b <= per_replica_batch * tpu_size < cores * (b + 1)` |
| Schedule.CheckpointStepsAreMultiples | train.py:115 | step 0 is never a checkpoint step; every non-zero multiple of `ckpt_every` is; every checkpoint step is a positive multiple |
| Schedule.EvalStepsAreMultiples | train.py:121 | evaluation runs at step 0 and at every multiple of `val_every`, and only there |
| Schedule.RetentionScenario | train.py:115-119 | with `ckpt_every = 100`, `keep_every = 500`: the saves at 100..400 and 600 pass `delete_old = True`, the save at 500 passes `False`, and 0 and 250 are not saved; what the handle deletes is not modelled |
| Schedule.EvalScenario | train.py:121 | with `val_every = 1000`: rounds at 0, 1000 and 2000, none at 500 |
| Evaluation.Drawn | train.py:124 | `zip(sample_once(), range(val_batches))` yields at most the set's batch count and at most `val_batches` (none when it is not positive), and stops at whichever runs out first |
| Evaluation.Evals | train.py:124-127 | a pass of `n` eval calls makes one call per batch index `0..n-1` of that set, in order |
| Evaluation.ValidationEvalsBounded | train.py:122-127 | every call of the validation passes is an eval call on a configured set, on a batch index below both that set's size and `val_batches` |
| Evaluation.ValidationEventCount | train.py:122-127 | the validation passes make exactly as many eval calls as the sets' capped shares add up to |
| Evaluation.RoundOrder | train.py:121-147 | a round is all validation eval calls first, then exactly four task runs in the order lambada, winogrande, piqa, hellaswag, each with `global_val_batch` |
| Evaluation.RoundHasRoundCalls | train.py:121-147 | a round makes only eval calls and task runs, and ends with a task run |
| Evaluation.RoundTaskBatches | train.py:121-147 | a round never opens the training loader, and runs every benchmark task with the `global_val_batch` it is given |
| Initialise.FreshStart | train.py:68-71 | the initial save succeeds exactly when nothing is stored or the start is clean; then the run starts at step 0 with no loader state, storage holding only the fresh checkpoint, and that save as its only call (no load) |
| Initialise.ResumeFromLatest | train.py:72-78 | when the initial save raises, nothing is written; step and loader state come from the last checkpoint; a missing "train_loader" gives no state plus a warning, and nothing else |
| Initialise.SaveLoadRoundTrip | train.py:74-75 | a checkpoint that the loop saved at step S with loader state C resumes at exactly S and C, without a warning |
| Initialise.ResumeIdempotent | train.py:72-75 | resuming leaves the store as it was, so resuming again gives the same outcome |
| Initialise.KeepsStoreUnlessClean | train.py:68-75 | without a clean start, every checkpoint already stored stays in the write log |
| Initialise.ResumeAfterInitOnly | train.py:69-78 | when the last checkpoint is the one the initial save wrote, resuming starts at step 0 with no loader state and a warning |
| Initialise.InitWrites | train.py:68-78 | storage after initialise-or-resume is the earlier storage (nothing after a clean start) followed by what its calls wrote: the fresh checkpoint when the initial save succeeds, nothing when it raises |
| StepLoop.StepRaises | train.py:115-121 | an iteration raises exactly when `ckpt_every` is 0, when `keep_every` is 0 at a checkpoint step, or when `val_every` is 0; with non-zero intervals it never does |
| StepLoop.StepShape | train.py:111-149 | an iteration starts with the train call on the batch at the loader's position; then comes at most one save, right after it; everything else is an evaluation call |
| StepLoop.StepTrainsOnce | train.py:112 | an iteration makes exactly one train call, and it comes first |
| StepLoop.StepSavesBeforeEvaluating | train.py:115-121 | within an iteration, the save precedes every evaluation call |
| StepLoop.StepSaved | train.py:115-117 | with non-zero `ckpt_every`, an iteration stores a checkpoint exactly at a checkpoint step with non-zero `keep_every` (a zero one raises before the save), recording that step and the loader position after its train call; a zero `val_every` raises only after the save |
| StepLoop.StepWrites | train.py:115-119 | the checkpoints an iteration stores are exactly the ones its save call writes |
| StepLoop.StepCheckpoint | train.py:115-119 | with non-zero `ckpt_every` and `keep_every`, an iteration calls save exactly at a checkpoint step, recording that step and the loader position after its train call under "train_loader", with `delete_old` exactly when `step % keep_every != 0`; `val_every` plays no part |
| StepLoop.StepEvaluates | train.py:115-147 | with non-zero `ckpt_every` and `val_every`, an iteration whose checkpoint test does not raise (`keep_every` non-zero, or not a checkpoint step, e.g. step 0) runs the benchmark tasks exactly when `step % val_every == 0`, and then ends with the whole evaluation round |
| StepLoop.LoopStopsAtRaise | train.py:111-149 | once an iteration raises, the loop is over: allowing more iterations changes nothing |
| StepLoop.LoopIterations | train.py:111-149 | a run of `n` iterations finishes all `n` unless one raises; with non-zero intervals none raises |
| StepLoop.LoopTrainCount | train.py:111-112 | a run makes one train call per finished iteration, plus one for the iteration that raised |
| StepLoop.LoopWrites | train.py:111-149 | the checkpoints a run stores are exactly the ones its save calls write, in order |
| StepLoop.LoopExtends | train.py:111-149 | a run of `n` iterations begins with the calls and checkpoints of any shorter run from the same step |
| StepLoop.LoopTaskBatches | train.py:111-149 | a run never reopens the training loader, and runs every benchmark task with the batch its rounds use |
| StepLoop.LoopCheckpointsAligned | train.py:111-119 | with non-zero `ckpt_every`, every checkpoint a run writes is at a checkpoint step within the run; it records the loader position reached by that step's train call; the steps strictly increase |
| StepLoop.LoopSavesEveryCheckpointStep | train.py:111-119 | conversely, with non-zero intervals a run writes a checkpoint at every checkpoint step it passes, recording the loader position reached by that step's train call |
| Supervisor.StartSpec | train.py:63-107 | `main` reaches its step loop exactly when the `pe` check passes and `cores_per_replica` is non-zero |
| Supervisor.WarmUpKeepsStep | train.py:100-107 | the warm-up makes exactly one train call, on the batch at the restored position; it leaves the step where initialise-or-resume put it, and the loop continues at the next batch |
| Supervisor.LoopNoInitSave | train.py:111-149 | the step loop never makes an initial save |
| Supervisor.AttemptAfterInit | train.py:63-149 | once the `pe` check passes, an attempt that gets past `build_model` begins with initialise-or-resume and makes no initial save afterwards; one that ends in `build_model` calls nothing |
| Supervisor.StartAfterInit | train.py:63-107 | once the `pe` check passes, `main` up to its loop begins with initialise-or-resume and makes no initial save afterwards |
| Supervisor.AttemptInitSave | train.py:42-69 | an attempt makes at most one initial save, as its first call, passing `overwrite = args.new and first` |
| Supervisor.StartWrites | train.py:63-107 | once the `pe` check passes, `main` up to its loop makes at least one call, and storage is the earlier storage (nothing after a clean start) followed by what its calls wrote |
| Supervisor.AttemptWrites | train.py:30-149 | storage after an attempt is the earlier storage (nothing once a clean start's initial save has run) followed by every checkpoint the attempt's calls wrote, in order |
| Supervisor.AttemptKeepsStore | train.py:42-78 | an attempt with `first = False` leaves storage as the earlier storage followed by the checkpoints its calls wrote, so every earlier write stays in the log |
| Supervisor.StartBatches | train.py:80-107 | before the loop no benchmark task runs, and the training loader is opened with `gradient_accumulation_steps` (1 when absent) by `global_val_batch` |
| Supervisor.AttemptBatchesAgree | train.py:80-147 | training and evaluation agree on the batch: every attempt opens the training loader with `global_val_batch` and the configured accumulation (1 when absent), and runs every benchmark task with that same `global_val_batch` |
| Supervisor.LaterAttemptsKeepCheckpoints | train.py:152-161 | once `first` is false, no attempt passes `overwrite = True`, and storage is the earlier storage followed by every checkpoint the later attempts wrote, so every earlier write stays in the log |
| Supervisor.OnlyFirstAttemptMayOverwrite | train.py:152-161 | across the whole process, an initial save passes `overwrite = True` only when `--new` is set, and only as the very first call |
| Supervisor.CleanStartLost | train.py:152-161 | with `--new`, a first attempt that ends in `build_model` never makes its clean initial save; no later attempt overwrites, and every checkpoint stored before stays in the log |
| Supervisor.StopsOnlyOnInterrupt | train.py:152-161 | the supervisor stops only after an attempt ended by KeyboardInterrupt (its last attempt); otherwise it runs one attempt per stop |
| Supervisor.AttemptEndsByStop | train.py:152-161 | with a configuration `main` never raises on, an attempt ends exactly as the outside world ends it |
| Supervisor.FirstInterruptEnds | train.py:152-161 | with such a configuration, the first KeyboardInterrupt ends the supervisor, and every earlier attempt was restarted |
| Supervisor.RestartResumes | train.py:68-101 | for any configuration whose `pe` check passes and whose `cores_per_replica` is non-zero: a restart whose last checkpoint is at step S with loader position C loads S, reopens the training loader at C and trains next on the batch at C; one that ends in `build_model` calls nothing |
| Supervisor.RestartScenario | train.py:68-119 | crash at step 237 with the last checkpoint at step 200 and loader position 4096: the restarted attempt loads 200, trains next on the batch at 4096, and saves at step 200 again |
| Supervisor.RestartDrift | train.py:68-117 | a restart that resumes at a checkpoint step S with loader position C and runs at least one iteration writes S again, now recording C + 2, right after the earlier log |
| Supervisor.LoopFirstSave | train.py:111-119 | a run that starts at a checkpoint step saves there first, recording the loader position after its first train call |
| Trainer.Run.InitialiseOrResume | train.py:68-78 | the `try: save / except: load` block changes the trace, store, step and restore state exactly as `InitSpec` describes, and leaves the loader position alone |
| Trainer.Run.WarmUp | train.py:100-107 | one train call, then one eval call per validation set in order; the loader moves on by one batch, and step and store do not change |
| Trainer.Run.ValidationPass | train.py:122-131 | the loop over `zip(sample_once(), range(val_batches))` appends exactly the capped pass over the set and changes nothing else |
| Trainer.Run.EvaluationRound | train.py:121-147 | the round appends every validation pass in set order, then the four task runs, and changes nothing else |
| Trainer.Run.CheckpointIfDue | train.py:115-119 | the checkpoint test appends the save and stores the checkpoint exactly as `CheckpointPart` describes, raising on a zero interval |
| Trainer.Run.EvaluateIfDue | train.py:121-147 | the evaluation test appends the round exactly when due, raising on a zero `val_every` |
| Trainer.Run.Iterate | train.py:111-149 | one iteration produces `StepSpec`'s calls and checkpoints; the loader moves on by one batch; `step` grows by one unless the iteration raised |
| Trainer.Run.Advance | train.py:111-149 | one more iteration of a run keeps trace and store equal to `LoopSpec` one iteration further |
| Trainer.Run.StepLoop | train.py:111-149 | up to `n` iterations give exactly `LoopSpec`'s calls, checkpoints, iteration count and raise flag; `step` grows by the finished iterations |
| Trainer.Run.Start | train.py:63-107 | `main` up to its loop changes the trace and store exactly as `StartSpec` describes and reports whether it got there; step and position are specified only when it did |
| Trainer.Run.Attempt | train.py:30-149 | one call of `main(first)`, ended in `build_model` or in the loop, changes the trace and store and ends exactly as `AttemptSpec` describes |
| Trainer.Run.NextAttempt | train.py:152-161 | one more attempt of the supervisor loop keeps the trace equal to a prefix of `SuperviseSpec`'s calls, with the rest still to come |
| Trainer.Run.Supervise | train.py:152-161 | the `__main__` loop, from `first = True`, produces exactly `SuperviseSpec`'s calls, store, interruption flag and attempt count |

## Specification functions

These functions define what the code computes. Their properties are stated
by the lemmas named with them, which are rows of the table above.

- `Schedule.CheckpointDue` (train.py:115): `Schedule.CheckpointStepsAreMultiples`, `Schedule.RetentionScenario`, `StepLoop.StepCheckpoint`.
- `Schedule.DeleteOld` (train.py:119): `Schedule.RetentionScenario`, `StepLoop.StepCheckpoint`.
- `Schedule.EvalDue` (train.py:121): `Schedule.EvalStepsAreMultiples`, `Schedule.EvalScenario`, `StepLoop.StepEvaluates`.
- `Config.CleanStart` (train.py:42): `Supervisor.AttemptInitSave`, `Supervisor.OnlyFirstAttemptMayOverwrite`, `Supervisor.CleanStartLost`.
- `Config.GlobalBatch` (train.py:86): `Config.GlobalBatchBounds`.
- `Config.TrainBatchShape` (train.py:80-84): `Supervisor.StartBatches`, `Supervisor.AttemptBatchesAgree`.
- `Initialise.InitSpec` (train.py:68-78): `Initialise.FreshStart`, `Initialise.ResumeFromLatest`, `Initialise.SaveLoadRoundTrip`, `Initialise.ResumeIdempotent`, `Initialise.InitWrites`, `Initialise.KeepsStoreUnlessClean`, `Initialise.ResumeAfterInitOnly`.
- `StepLoop.CheckpointPart` (train.py:115-119) and `StepLoop.EvalPart` (train.py:121-147), the two tests of one iteration: `StepLoop.StepRaises`, `StepLoop.StepSaved`, `StepLoop.StepCheckpoint`, `StepLoop.StepEvaluates`.
- `StepLoop.StepSpec` (train.py:111-149): `StepLoop.StepRaises`, `StepLoop.StepShape`, `StepLoop.StepTrainsOnce`, `StepLoop.StepSavesBeforeEvaluating`, `StepLoop.StepSaved`, `StepLoop.StepWrites`, `StepLoop.StepCheckpoint`, `StepLoop.StepEvaluates`.
- `StepLoop.LoopSpec` (train.py:111-149): `StepLoop.LoopStopsAtRaise`, `StepLoop.LoopIterations`, `StepLoop.LoopTrainCount`, `StepLoop.LoopWrites`, `StepLoop.LoopExtends`, `StepLoop.LoopTaskBatches`, `StepLoop.LoopCheckpointsAligned`, `StepLoop.LoopSavesEveryCheckpointStep`, `Supervisor.LoopNoInitSave`, `Supervisor.LoopFirstSave`.
- `Evaluation.Pass` (train.py:122-127), one validation pass over a set: `Evaluation.Drawn`, `Evaluation.Evals`, `Evaluation.ValidationEvalsBounded`, and `Trainer.Run.ValidationPass` computes it.
- `Evaluation.ValidationEvents` (train.py:122-131), the passes over every set in order: `Evaluation.ValidationEvalsBounded`, `Evaluation.ValidationEventCount`, `Evaluation.RoundOrder`.
- `Evaluation.TaskEvents` (train.py:133-147), the four benchmark task runs: `Evaluation.RoundOrder`, `Evaluation.RoundTaskBatches`.
- `Evaluation.RoundEvents` and `StepLoop.Round` (train.py:121-147), one evaluation round: `Evaluation.RoundOrder`, `Evaluation.RoundHasRoundCalls`, `Evaluation.RoundTaskBatches`, `StepLoop.StepEvaluates`, and `Trainer.Run.EvaluationRound` computes it.
- `Events.Written` (train.py:69 and 116-117), the checkpoints a run of calls writes: `Initialise.InitWrites`, `StepLoop.StepWrites`, `StepLoop.LoopWrites`, `Supervisor.StartWrites`, `Supervisor.AttemptWrites`, `Supervisor.AttemptKeepsStore`, `Supervisor.LaterAttemptsKeepCheckpoints`, `Supervisor.CleanStartLost`.
- `Supervisor.WarmUpEvals` (train.py:104-106): `Supervisor.WarmUpKeepsStep`, and `Trainer.Run.WarmUp` computes it.
- `Supervisor.AttemptSpec` (train.py:30-149): `Supervisor.AttemptAfterInit`, `Supervisor.AttemptInitSave`, `Supervisor.AttemptWrites`, `Supervisor.AttemptKeepsStore`, `Supervisor.AttemptBatchesAgree`, `Supervisor.AttemptEndsByStop`, `Supervisor.RestartResumes`, `Supervisor.RestartScenario`, `Supervisor.RestartDrift`.
- `Supervisor.SuperviseSpec` (train.py:152-161): `Supervisor.LaterAttemptsKeepCheckpoints`, `Supervisor.OnlyFirstAttemptMayOverwrite`, `Supervisor.StopsOnlyOnInterrupt`, `Supervisor.FirstInterruptEnds`, `Supervisor.CleanStartLost`.

## Left out

- Command-line parsing, reading the JSON config, and the `input()` prompt: these are I/O. The prompt fires on every attempt with `--new`, since it is not gated by `first`. The model takes the parsed `Params` and `--new` as inputs.
- Missing configuration keys raising `KeyError`: the model's `Params` always holds every key. The one optional key, `gradient_accumulation_steps`, is an `Option` defaulting to 1.
- `wandb`, `print`, `tqdm` and the `time.time()` compile timings: telemetry with no effect on the state.
- The `np.array(val_loss).mean()` average: floating point. Only the number and order of eval calls are modelled.
- The model handle (`build_model`, `train`, `eval`, `save`, `load`) and what `delete_old` actually deletes: that code is not part of this model. Calls are events. A loop save appends its checkpoint to the store and records the `delete_old` flag, with no deletion. `load` returns the checkpoint written last.
- The initial save's behaviour is an assumption about the unseen handle, not a property of `train.py`: it raises exactly when a checkpoint is stored and `overwrite` is false, and otherwise leaves only the fresh checkpoint (`Initialise.InitSaveFails`).
- The data loaders' internals: the training loader's state is its position in the training stream, and a missing restore state starts it at 0. A validation set is a name and the number of batches one pass yields.
- The benchmark tasks' scoring: a task run is one event carrying the batch size it was given.
- Where an attempt can be stopped: an exception from the outside world arrives either in `build_model` (`BeforeSave`) or between two loop iterations (`InLoop`). An exception raised partway through an iteration is not modelled. That covers one raised in a `t.train`, `t.save` or `t.eval` call, or by a benchmark task in the middle of a round. Such an iteration would leave a prefix of its calls behind, and that prefix is not represented. The supervisor is modelled over a finite sequence of stops, not forever.
- Exceptions in `main` between the initial save and the loop (the loaders, the benchmark task constructors, the warm-up calls, `wandb.init`, lines 80-109) are not separate stop points. Such an attempt would make its initial save or load, perhaps some of the later calls, and then end. The nearest modelled stop is `InLoop(kind, 0)`, which makes all of those calls.
- An exception from a benchmark task is not caught inside the round: it escapes `main`, and the supervisor restarts the attempt. The model has no per-task isolation, because the code has none; that the exception can arrive mid-round is the gap named above.
- The configuration is read once: every attempt of `Supervise` uses the same `Params`. `main` re-reads the arguments and the JSON file on every attempt (train.py:31-32), so a file edited between attempts would change the later ones.
- Supervisor.AttemptKeepsStore: "keeps every stored checkpoint" means it stays in the write log. What `delete_old = True` deletes from the bucket is the handle's business and is not modelled, so the contract says nothing about which checkpoints are still on disk.
- Supervisor.LaterAttemptsKeepCheckpoints: for the same reason, "every earlier write stays" is about the write log. It does not claim the checkpoint survives a later save's `delete_old`.
- `Config.FloorDiv`, `Config.PyMod` and `Config.GlobalBatch` carry no `ensures` of their own. Their properties are the lemmas `Config.FloorDivMod` and `Config.GlobalBatchBounds`.
