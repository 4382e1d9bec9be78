/**
 * The start of an attempt: try to write a fresh checkpoint at step 0, and when
 * that raises, resume from the stored one instead.
 */
module Initialise {
  import opened Wrappers
  import opened Events

  /** What `t.save(0, ..., init=True)` writes: step 0 and no auxiliary state. */
  const InitialCheckpoint: Checkpoint := Checkpoint(0, map[])

  /**
   * The assumed behaviour of the model handle's initial save, whose code is
   * not part of this model: it raises exactly when a checkpoint already exists
   * and `overwrite` is false; otherwise it leaves only the fresh checkpoint.
   */
  predicate InitSaveFails(store: seq<Checkpoint>, overwrite: bool) {
    store != [] && !overwrite
  }

  /** The outcome of initialise-or-resume: calls made, storage, step and loader restore state. */
  datatype InitOutcome = InitOutcome(events: seq<Event>, store: seq<Checkpoint>, step: nat, restore: Option<nat>)

  /**
   * `try: t.save(0, init=True, overwrite=clean_start); step = 0; restore = None
   * except: step, aux = t.load(); restore = aux.get("train_loader", None)`,
   * where `load` returns the checkpoint written last.
   */
  function InitSpec(store: seq<Checkpoint>, cleanStart: bool): InitOutcome {
    if !InitSaveFails(store, cleanStart) then
      InitOutcome([InitSave(cleanStart, true)], [InitialCheckpoint], 0, None)
    else
      var latest := store[|store| - 1];
      if TrainLoaderKey in latest.aux then
        InitOutcome([InitSave(cleanStart, false), Load(latest.step)], store, latest.step, Some(latest.aux[TrainLoaderKey]))
      else
        InitOutcome([InitSave(cleanStart, false), Load(latest.step), RestoreMissing], store, latest.step, None)
  }

  /**
   * When the initial save succeeds the run starts at step 0 with no loader
   * state, storage holding only the fresh checkpoint, and no other call (in
   * particular no load); that needs either no earlier checkpoint or a clean
   * start.
   */
  lemma FreshStart(store: seq<Checkpoint>, cleanStart: bool)
    ensures var o := InitSpec(store, cleanStart);
      InitSave(cleanStart, true) in o.events <==> (store == [] || cleanStart)
    ensures var o := InitSpec(store, cleanStart);
      (store == [] || cleanStart) ==>
        o.step == 0 && o.restore.None? && o.store == [InitialCheckpoint] && o.events == [InitSave(cleanStart, true)]
  {
  }

  /**
   * When the initial save raises, nothing is written and the step and loader
   * state come from the last checkpoint; a missing "train_loader" gives None
   * and a warning, and the attempt carries on.
   */
  lemma ResumeFromLatest(store: seq<Checkpoint>, cleanStart: bool)
    requires store != [] && !cleanStart
    ensures var o := InitSpec(store, cleanStart); var latest := store[|store| - 1];
      o.store == store && o.step == latest.step &&
      o.restore == (if TrainLoaderKey in latest.aux then Some(latest.aux[TrainLoaderKey]) else None) &&
      (RestoreMissing in o.events <==> TrainLoaderKey !in latest.aux)
  {
  }

  /** A checkpoint the loop saved at step S with loader state C resumes at exactly (S, C). */
  lemma SaveLoadRoundTrip(store: seq<Checkpoint>, s: nat, c: nat)
    ensures var o := InitSpec(store + [Checkpoint(s, LoaderAux(c))], false);
      o.step == s && o.restore == Some(c) && RestoreMissing !in o.events
  {
  }

  /**
   * Resuming writes nothing, so resuming again from what it leaves gives the
   * same step and loader state.
   */
  lemma ResumeIdempotent(store: seq<Checkpoint>)
    ensures var o := InitSpec(store, false);
      var again := InitSpec(o.store, false);
      store != [] ==> again == o
  {
  }

  /**
   * Storage after initialise-or-resume is what was there (nothing, after a
   * clean start's overwrite) followed by what its calls wrote.
   */
  lemma InitWrites(store: seq<Checkpoint>, cleanStart: bool)
    ensures var o := InitSpec(store, cleanStart);
      o.store == (if cleanStart then [] else store) + Written(o.events)
  {
    var o := InitSpec(store, cleanStart);
    if InitSaveFails(store, cleanStart) {
      NoSaveWritesNothing(o.events[1..]);
      assert o.events == [o.events[0]] + o.events[1..];
    } else {
      assert Written(o.events) == [InitialCheckpoint] + Written([]);
    }
  }

  /** Without a clean start, every checkpoint already stored stays stored. */
  lemma KeepsStoreUnlessClean(store: seq<Checkpoint>, cleanStart: bool)
    ensures !cleanStart ==> InitSpec(store, cleanStart).store[..|store|] == store
  {
  }

  /**
   * A fresh checkpoint records no loader state: resuming from storage where it
   * is the last checkpoint starts at step 0 with a warning and no loader state.
   */
  lemma ResumeAfterInitOnly(store: seq<Checkpoint>)
    ensures var o := InitSpec(store + [InitialCheckpoint], false);
      o.step == 0 && o.restore.None? && RestoreMissing in o.events
  {
  }
}
