/**
 * The configuration that `main` reads from its JSON file, with the few pieces
 * of arithmetic and validation it does on it: Python's floor division and
 * remainder, the batch shape handed to the data loaders, and the check on the
 * positional-encoding mode.
 */
module Config {
  import opened Wrappers

  /** The positional-encoding modes the `pe` key may name. */
  datatype PosEncoding = Fixed | Rotary | T5

  function PeName(e: PosEncoding): string {
    match e
    case Fixed => "fixed"
    case Rotary => "rotary"
    case T5 => "t5"
  }

  /**
   * `assert pe in ["fixed", "rotary", "t5"]`: the mode the string names, or
   * None when the assertion fails and `main` raises.
   */
  function ParsePe(s: string): (r: Option<PosEncoding>)
    ensures r.Some? <==> (s == "fixed" || s == "rotary" || s == "t5")
    ensures r.Some? ==> PeName(r.value) == s
  {
    if s == "fixed" then Some(Fixed)
    else if s == "rotary" then Some(Rotary)
    else if s == "t5" then Some(T5)
    else None
  }

  /** Every mode's name passes the check and names that mode again. */
  lemma PeNameParses(e: PosEncoding)
    ensures ParsePe(PeName(e)) == Some(e)
  {
  }

  /** Python's `a // b`: the quotient rounded toward negative infinity. */
  function FloorDiv(a: int, b: int): int
    requires b != 0
  {
    if b > 0 then a / b else (-a) / (-b)
  }

  /** Python's `a % b`, whose sign follows the divisor. */
  function PyMod(a: int, b: int): int
    requires b != 0
  {
    if b > 0 then a % b else -((-a) % (-b))
  }

  /**
   * Python's division identity `a == b * (a // b) + a % b`, with the
   * remainder strictly inside the divisor's side of zero, so `//` rounds
   * toward negative infinity. The remainder is zero exactly when Dafny's
   * Euclidean one is, so the two agree on every `== 0` test.
   */
  lemma FloorDivMod(a: int, b: int)
    requires b != 0
    ensures a == b * FloorDiv(a, b) + PyMod(a, b)
    ensures b > 0 ==> 0 <= PyMod(a, b) < b
    ensures b < 0 ==> b < PyMod(a, b) <= 0
    ensures PyMod(a, b) == 0 <==> a % b == 0
  {
    var q, r := FloorDiv(a, b), PyMod(a, b);
    if b < 0 {
      assert -a == (-b) * q + (-r);
      var d, e := a / b, a % b;
      assert a == b * d + e && 0 <= e < -b;
      assert b * (q - d) == e - r;
      if r == 0 || e == 0 {
        SmallMultipleIsZero(b, q - d);
      }
    }
  }

  /** A multiple of `b` strictly between `-|b|` and `|b|` is zero times `b`. */
  lemma SmallMultipleIsZero(b: int, k: int)
    requires b != 0
    requires b > 0 ==> -b < b * k < b
    requires b < 0 ==> b < b * k < -b
    ensures k == 0
  {
    if k > 0 && b > 0 {
      MulAtLeast(b, k);
    } else if k < 0 && b > 0 {
      MulAtLeast(b, -k);
    } else if k > 0 && b < 0 {
      MulAtLeast(-b, k);
    } else if k < 0 && b < 0 {
      MulAtLeast(-b, -k);
    }
  }

  lemma {:induction false} MulAtLeast(m: int, j: int)
    requires m > 0 && j > 0
    ensures m * j >= m
    decreases j
  {
    if j > 1 {
      MulAtLeast(m, j - 1);
      assert m * j == m * (j - 1) + m;
    }
  }

  /** One entry of `val_set`: the set's name and how many batches one pass over it yields. */
  datatype ValSet = ValSet(name: string, batches: nat)

  /** The configuration keys `main` reads; `gradient_accumulation_steps` is optional. */
  datatype Params = Params(
    gradientAccumulationSteps: Option<int>,
    perReplicaBatch: int,
    tpuSize: int,
    coresPerReplica: int,
    valSets: seq<ValSet>,
    valBatches: int,
    valEvery: int,
    ckptEvery: int,
    keepEvery: int,
    pe: string)

  /** `global_val_batch = per_replica_batch * tpu_size // cores_per_replica`. */
  function GlobalBatch(p: Params): int
    requires p.coresPerReplica != 0
  {
    FloorDiv(p.perReplicaBatch * p.tpuSize, p.coresPerReplica)
  }

  /**
   * With a positive `cores_per_replica` the global batch is the largest
   * whole number of examples per replica group.
   */
  lemma GlobalBatchBounds(p: Params)
    requires p.coresPerReplica > 0
    ensures var b := GlobalBatch(p);
      p.coresPerReplica * b <= p.perReplicaBatch * p.tpuSize < p.coresPerReplica * (b + 1)
  {
    FloorDivMod(p.perReplicaBatch * p.tpuSize, p.coresPerReplica);
  }

  /**
   * The training loader's batch shape: accumulation steps (1 when the key is
   * absent) by the global batch.
   */
  function TrainBatchShape(p: Params): (int, int)
    requires p.coresPerReplica != 0
  {
    (p.gradientAccumulationSteps.GetOr(1), GlobalBatch(p))
  }

  /** `clean_start = args.new and first`. */
  function CleanStart(newRun: bool, first: bool): bool {
    newRun && first
  }
}
