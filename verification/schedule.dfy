/**
 * The three scheduling predicates of the step loop, each a Python `%` test on
 * the current step. A zero interval makes the test itself raise
 * ZeroDivisionError; callers check for it before asking.
 */
module Schedule {
  import opened Config

  /** `step % ckpt_every == 0 and step`: the loop saves a checkpoint at this step. */
  predicate CheckpointDue(step: nat, ckptEvery: int)
    requires ckptEvery != 0
  {
    PyMod(step, ckptEvery) == 0 && step != 0
  }

  /** `delete_old = step % keep_every != 0`: the save at this step is not a milestone. */
  predicate DeleteOld(step: nat, keepEvery: int)
    requires keepEvery != 0
  {
    PyMod(step, keepEvery) != 0
  }

  /** `step % val_every == 0`: an evaluation round runs at this step. */
  predicate EvalDue(step: nat, valEvery: int)
    requires valEvery != 0
  {
    PyMod(step, valEvery) == 0
  }

  /**
   * The checkpoint steps are exactly the positive multiples of `ckpt_every`:
   * never step 0, and every `k * ckpt_every` with `k != 0` that is a step.
   */
  lemma CheckpointStepsAreMultiples(step: nat, ckptEvery: int, k: int)
    requires ckptEvery != 0
    ensures !CheckpointDue(0, ckptEvery)
    ensures step == k * ckptEvery && k != 0 ==> CheckpointDue(step, ckptEvery)
    ensures CheckpointDue(step, ckptEvery) ==> step == ckptEvery * FloorDiv(step, ckptEvery) && step > 0
  {
    FloorDivMod(step, ckptEvery);
    if step == k * ckptEvery && k != 0 {
      MultipleHasNoRemainder(step, ckptEvery, k);
      assert k * ckptEvery != 0 by { NonZeroProduct(k, ckptEvery); }
    }
  }

  /** Evaluation rounds run at every multiple of `val_every`, step 0 included. */
  lemma EvalStepsAreMultiples(step: nat, valEvery: int, k: int)
    requires valEvery != 0
    ensures EvalDue(0, valEvery)
    ensures step == k * valEvery ==> EvalDue(step, valEvery)
    ensures EvalDue(step, valEvery) ==> step == valEvery * FloorDiv(step, valEvery)
  {
    FloorDivMod(step, valEvery);
    if step == k * valEvery {
      MultipleHasNoRemainder(step, valEvery, k);
    }
  }

  lemma MultipleHasNoRemainder(a: int, b: int, q: int)
    requires b != 0 && a == b * q
    ensures PyMod(a, b) == 0
  {
    FloorDivMod(a, b);
    var r := PyMod(a, b);
    assert b * (q - FloorDiv(a, b)) == r;
    SmallMultipleIsZero(b, q - FloorDiv(a, b));
  }

  lemma NonZeroProduct(k: int, b: int)
    requires k != 0 && b != 0
    ensures k * b != 0
  {
    if k * b == 0 {
      SmallMultipleIsZero(b, k);
    }
  }

  /**
   * With `ckpt_every = 100` and `keep_every = 500`, the saves at 100..400 and 600
   * pass `delete_old = True`, the one at 500 passes `False`, and no save happens
   * at 0 or in between. What the handle then deletes is not part of this model.
   */
  lemma RetentionScenario()
    ensures CheckpointDue(100, 100) && DeleteOld(100, 500)
    ensures CheckpointDue(200, 100) && DeleteOld(200, 500)
    ensures CheckpointDue(300, 100) && DeleteOld(300, 500)
    ensures CheckpointDue(400, 100) && DeleteOld(400, 500)
    ensures CheckpointDue(500, 100) && !DeleteOld(500, 500)
    ensures CheckpointDue(600, 100) && DeleteOld(600, 500)
    ensures !CheckpointDue(0, 100) && !CheckpointDue(250, 100)
  {
  }

  /** With `val_every = 1000`: rounds at 0, 1000 and 2000, none at 500. */
  lemma EvalScenario()
    ensures EvalDue(0, 1000) && EvalDue(1000, 1000) && EvalDue(2000, 1000)
    ensures !EvalDue(500, 1000)
  {
  }
}
