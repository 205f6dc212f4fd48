/**
 * The configuration steps of `main` in src/flappy_rl/train.py that come
 * before training: the four `--train.*` flags are deleted from argv (each
 * with the token after it) so that PufferLib's own parser does not reject
 * them, the train section takes the overrides, and the vectoriser keyword
 * arguments get their defaults.
 */
module TrainArgs {
  import opened Wrappers

  const EnvFlag := "--train.env"
  const TimestepsFlag := "--train.total-timesteps"
  const CheckpointFlag := "--train.load-checkpoint"
  const LearningRateFlag := "--train.learning-rate"

  // ---------------------------------------------------------------------------
  // Argv.
  // ---------------------------------------------------------------------------

  /** `list.index(x)`: the position of the first occurrence. */
  function FirstIndex(s: seq<string>, x: string): (i: nat)
    requires x in s
    ensures i < |s| && s[i] == x && x !in s[..i]
  {
    if s[0] == x then 0
    else
      var i := 1 + FirstIndex(s[1..], x);
      assert s[..i] == [s[0]] + s[1..][..i - 1];
      i
  }

  /** The first occurrence is the only position holding x with no x before it. */
  lemma {:induction false} FirstIndexUnique(s: seq<string>, x: string, i: nat)
    requires i < |s| && s[i] == x && x !in s[..i]
    ensures FirstIndex(s, x) == i
    decreases i
  {
    if i > 0 {
      assert s[0] in s[..i];
      assert s[1..][..i - 1] == s[..i][1..];
      FirstIndexUnique(s[1..], x, i - 1);
    }
  }

  /** `del s[i]`. */
  function Deleted(s: seq<string>, i: nat): seq<string>
    requires i < |s|
  {
    s[..i] + s[i + 1..]
  }

  /** The argv after the strip block of one flag: its first occurrence goes, and the next token when there is one. */
  function Stripped(argv: seq<string>, flag: string): seq<string>
  {
    if flag !in argv then argv
    else
      var i := FirstIndex(argv, flag);
      var once := Deleted(argv, i);
      if i < |once| then Deleted(once, i) else once
  }

  /** All four strip blocks, in the order of the source. */
  function StrippedAll(argv: seq<string>): seq<string>
  {
    Stripped(Stripped(Stripped(Stripped(argv, EnvFlag), TimestepsFlag), CheckpointFlag), LearningRateFlag)
  }

  /** `a` is `b` with some tokens deleted and the rest in their order. */
  predicate Subsequence(a: seq<string>, b: seq<string>)
    decreases |b|
  {
    |a| == 0 || (|b| > 0 && ((a[0] == b[0] && Subsequence(a[1..], b[1..])) || Subsequence(a, b[1..])))
  }

  /** A flag that does not occur leaves argv as it is. */
  lemma StripAbsent(argv: seq<string>, flag: string)
    requires flag !in argv
    ensures Stripped(argv, flag) == argv
  {
  }

  /**
   * A flag that occurs loses its first occurrence and the token after it: the
   * tokens before it and the tokens from two past it are kept as they were.
   */
  lemma StripDeletes(argv: seq<string>, flag: string)
    requires flag in argv
    ensures var i := FirstIndex(argv, flag);
      var end := if i + 1 < |argv| then i + 2 else i + 1;
      Stripped(argv, flag) == argv[..i] + argv[end..]
  {
    var i := FirstIndex(argv, flag);
    var once := Deleted(argv, i);
    if i < |once| {
      assert once[..i] == argv[..i];
      assert once[i + 1..] == argv[i + 2..];
    }
  }

  /** Stripping a present flag shortens argv by two, or by one when the flag is the last token. */
  lemma StripLength(argv: seq<string>, flag: string)
    ensures flag !in argv ==> |Stripped(argv, flag)| == |argv|
    ensures flag in argv ==>
      |Stripped(argv, flag)| == if FirstIndex(argv, flag) == |argv| - 1 then |argv| - 1 else |argv| - 2
  {
    if flag in argv {
      StripDeletes(argv, flag);
    }
  }

  /** Every sequence is a subsequence of itself. */
  lemma {:induction false} SubsequenceRefl(a: seq<string>)
    ensures Subsequence(a, a)
    decreases |a|
  {
    if |a| > 0 {
      SubsequenceRefl(a[1..]);
    }
  }

  /** Deleting the tokens at positions i..j-1 keeps the rest in order. */
  lemma {:induction false} DropRange(b: seq<string>, i: nat, j: nat)
    requires i <= j <= |b|
    ensures Subsequence(b[..i] + b[j..], b)
    decreases |b|
  {
    if i > 0 {
      DropRange(b[1..], i - 1, j - 1);
      assert (b[..i] + b[j..])[1..] == b[1..][..i - 1] + b[1..][j - 1..];
    } else if j > 0 {
      DropRange(b[1..], 0, j - 1);
      assert b[..i] + b[j..] == b[1..][..0] + b[1..][j - 1..];
    } else {
      assert b[..i] + b[j..] == b;
      SubsequenceRefl(b);
    }
  }

  lemma {:induction false} SubsequenceTrans(a: seq<string>, b: seq<string>, c: seq<string>)
    requires Subsequence(a, b) && Subsequence(b, c)
    ensures Subsequence(a, c)
    decreases |c|
  {
    if |a| > 0 {
      if b[0] == c[0] && Subsequence(b[1..], c[1..]) {
        if a[0] == b[0] && Subsequence(a[1..], b[1..]) {
          SubsequenceTrans(a[1..], b[1..], c[1..]);
        } else {
          SubsequenceTrans(a, b[1..], c[1..]);
        }
      } else {
        SubsequenceTrans(a, b, c[1..]);
      }
    }
  }

  /** The tokens that survive a strip keep their relative order. */
  lemma StripKeepsOrder(argv: seq<string>, flag: string)
    ensures Subsequence(Stripped(argv, flag), argv)
  {
    if flag in argv {
      StripDeletes(argv, flag);
      var i := FirstIndex(argv, flag);
      DropRange(argv, i, if i + 1 < |argv| then i + 2 else i + 1);
    } else {
      SubsequenceRefl(argv);
    }
  }

  /**
   * The whole strip block: what PufferLib's parser sees is argv with at most
   * eight tokens deleted and the rest in order, and argv without any of the
   * four flags reaches it unchanged.
   */
  lemma StripAllFacts(argv: seq<string>)
    ensures Subsequence(StrippedAll(argv), argv)
    ensures |argv| - 8 <= |StrippedAll(argv)| <= |argv|
    ensures EnvFlag !in argv && TimestepsFlag !in argv && CheckpointFlag !in argv && LearningRateFlag !in argv
      ==> StrippedAll(argv) == argv
  {
    var a1 := Stripped(argv, EnvFlag);
    var a2 := Stripped(a1, TimestepsFlag);
    var a3 := Stripped(a2, CheckpointFlag);
    StripKeepsOrder(argv, EnvFlag);
    StripKeepsOrder(a1, TimestepsFlag);
    StripKeepsOrder(a2, CheckpointFlag);
    StripKeepsOrder(a3, LearningRateFlag);
    SubsequenceTrans(a2, a1, argv);
    SubsequenceTrans(a3, a2, argv);
    SubsequenceTrans(StrippedAll(argv), a3, argv);
    StripLength(argv, EnvFlag);
    StripLength(a1, TimestepsFlag);
    StripLength(a2, CheckpointFlag);
    StripLength(a3, LearningRateFlag);
  }

  /** `sys.argv`, a list the strip block edits in place. */
  class Argv {
    var tokens: seq<string>

    constructor (tokens: seq<string>)
      ensures this.tokens == tokens
    {
      this.tokens := tokens;
    }

    /** `sys.argv.index(flag)`. */
    method IndexOf(flag: string) returns (i: nat)
      requires flag in tokens
      ensures i == FirstIndex(tokens, flag)
    {
      i := 0;
      while tokens[i] != flag
        invariant i < |tokens| && flag !in tokens[..i]
        decreases |tokens| - i
      {
        assert tokens[..i + 1] == tokens[..i] + [tokens[i]];
        assert tokens[..|tokens|] == tokens;
        i := i + 1;
      }
      FirstIndexUnique(tokens, flag, i);
    }

    /** `del sys.argv[i]`. */
    method Delete(i: nat)
      requires i < |tokens|
      modifies this
      ensures tokens == Deleted(old(tokens), i)
    {
      tokens := tokens[..i] + tokens[i + 1..];
    }

    /** One strip block. */
    method Strip(flag: string)
      modifies this
      ensures tokens == Stripped(old(tokens), flag)
    {
      if flag in tokens {
        var i := IndexOf(flag);
        Delete(i);
        if i < |tokens| {
          Delete(i);
        }
      }
    }

    /** The four strip blocks of main. */
    method StripTrainFlags()
      modifies this
      ensures tokens == StrippedAll(old(tokens))
    {
      Strip(EnvFlag);
      Strip(TimestepsFlag);
      Strip(CheckpointFlag);
      Strip(LearningRateFlag);
    }
  }

  // ---------------------------------------------------------------------------
  // The configuration dictionaries.
  // ---------------------------------------------------------------------------

  /** A value of the loaded configuration: None, a bool, an int, a float or a string. */
  datatype Value = Null | Bool(b: bool) | Int(i: int) | Real(r: real) | Str(s: string)

  type Section = map<string, Value>

  const DefaultTimesteps := 5_000_000
  const DefaultLearningRate: real := 0.0003

  /** `override if override is not None else 5_000_000`. */
  function TotalTimesteps(override: Option<int>): int
  {
    if override.Some? then override.value else DefaultTimesteps
  }

  /** `override or 3e-4`: a missing or zero rate falls back to the default. */
  function LearningRate(override: Option<real>): real
  {
    if override.Some? && override.value != 0.0 then override.value else DefaultLearningRate
  }

  /** Any given step count is used, 0 and negative ones included; only a missing one takes the default. */
  lemma TimestepsOverride(override: Option<int>)
    ensures TotalTimesteps(override) == DefaultTimesteps <==> override.None? || override.value == DefaultTimesteps
    ensures override.Some? ==> TotalTimesteps(override) == override.value
    ensures TotalTimesteps(Some(0)) == 0
  {
  }

  /** The configured rate is never 0: a given non-zero rate is used, anything else gives 3e-4. */
  lemma LearningRateOverride(override: Option<real>)
    ensures LearningRate(override) != 0.0
    ensures override.Some? && override.value != 0.0 ==> LearningRate(override) == override.value
    ensures override.None? || override.value == 0.0 ==> LearningRate(override) == DefaultLearningRate
  {
  }

  /** The train section after main's assignments. */
  function TrainSection(train: Section, env: string, timesteps: Option<int>, rate: Option<real>, cuda: bool): (r: Section)
  {
    var t := train["env" := Str(env)]["total_timesteps" := Int(TotalTimesteps(timesteps))]
      ["optimizer" := Str("adam")]["learning_rate" := Real(LearningRate(rate))]
      ["clip_coef" := Real(0.2)]["ent_coef" := Real(0.01)];
    if cuda then t else t["device" := Str("cpu")]
  }

  /**
   * The train section gets the env name, the step count, the rate and the
   * fixed optimiser settings; every other key keeps its value, and without
   * CUDA the device is forced to the CPU.
   */
  lemma TrainSectionFacts(train: Section, env: string, timesteps: Option<int>, rate: Option<real>, cuda: bool)
    ensures var r := TrainSection(train, env, timesteps, rate, cuda);
      && r["env"] == Str(env)
      && r["total_timesteps"] == Int(TotalTimesteps(timesteps))
      && r["learning_rate"] == Real(LearningRate(rate))
      && r["optimizer"] == Str("adam") && r["clip_coef"] == Real(0.2) && r["ent_coef"] == Real(0.01)
      && (!cuda ==> r["device"] == Str("cpu"))
      && (cuda && "device" in train ==> r["device"] == train["device"])
      && (forall k :: k in train ==> k in r)
      && (forall k :: k in train && k !in {"env", "total_timesteps", "optimizer", "learning_rate", "clip_coef", "ent_coef", "device"} ==>
            r[k] == train[k])
      && (forall k :: k in r && k !in train ==>
            k in {"env", "total_timesteps", "optimizer", "learning_rate", "clip_coef", "ent_coef", "device"})
  {
  }

  const NumWorkers := "num_workers"
  const NumEnvs := "num_envs"
  const MinEnvs := 128

  /** `vec_kwargs.get(key)`. */
  function Get(s: Section, key: string): Value
  {
    if key in s then s[key] else Null
  }

  /** num_workers: "auto" becomes 2. */
  function WorkersNormalized(vec: Section): Section
  {
    if Get(vec, NumWorkers) == Str("auto") then vec[NumWorkers := Int(2)] else vec
  }

  /** `value < 128` in Python: None when the comparison raises TypeError (a string). */
  function BelowMinimum(v: Value): Option<bool>
  {
    match v
    case Null => None
    case Bool(b) => Some(true)
    case Int(i) => Some(i < MinEnvs)
    case Real(r) => Some(r < MinEnvs as real)
    case Str(_) => None
  }

  /** The num_workers and num_envs defaults; Err when num_envs is a string other than "auto". */
  function VecNormalized(vec: Section): Result<Section, string>
  {
    var v := WorkersNormalized(vec);
    var n := Get(v, NumEnvs);
    if n == Null || n == Str("auto") then Ok(v[NumEnvs := Int(MinEnvs)])
    else
      match BelowMinimum(n)
      case None => Err("TypeError")
      case Some(below) => Ok(if below then v[NumEnvs := Int(MinEnvs)] else v)
  }

  /** A number at least 128. */
  predicate Enough(v: Value)
  {
    (v.Int? && v.i >= MinEnvs) || (v.Real? && v.r >= MinEnvs as real)
  }

  /**
   * The normalisation fails exactly on a num_envs that is a string other than
   * "auto"; otherwise num_envs ends at least 128, a value of at least 128 is
   * kept, num_workers "auto" becomes 2 and every other key is untouched.
   */
  lemma VecFacts(vec: Section)
    ensures VecNormalized(vec).Err? <==> NumEnvs in vec && vec[NumEnvs].Str? && vec[NumEnvs].s != "auto"
    ensures var r := VecNormalized(vec);
      r.Ok? ==>
        && NumEnvs in r.value && Enough(r.value[NumEnvs])
        && (Enough(Get(vec, NumEnvs)) ==> r.value[NumEnvs] == vec[NumEnvs])
        && (!Enough(Get(vec, NumEnvs)) ==> r.value[NumEnvs] == Int(MinEnvs))
        && (Get(vec, NumWorkers) == Str("auto") ==> r.value[NumWorkers] == Int(2))
        && (Get(vec, NumWorkers) != Str("auto") ==> Get(r.value, NumWorkers) == Get(vec, NumWorkers))
        && (forall k :: k != NumEnvs && k != NumWorkers ==> (k in r.value <==> k in vec))
        && (forall k :: k in vec && k != NumEnvs && k != NumWorkers ==> r.value[k] == vec[k])
  {
  }

  /** Normalising twice is normalising once. */
  lemma VecIdempotent(vec: Section)
    requires VecNormalized(vec).Ok?
    ensures VecNormalized(VecNormalized(vec).value) == VecNormalized(vec)
  {
    var r := VecNormalized(vec).value;
    VecFacts(vec);
    assert WorkersNormalized(r) == r;
  }

  /** `vec_kwargs = dict(args["vec"])`, edited in place. */
  class VecKwargs {
    var kwargs: Section

    constructor (vec: Section)
      ensures kwargs == vec
    {
      kwargs := vec;
    }

    /**
     * The two defaulting statements. On a TypeError the num_workers update
     * has already happened.
     */
    method Normalize() returns (r: Result<(), string>)
      modifies this
      ensures r.Ok? <==> VecNormalized(old(kwargs)).Ok?
      ensures r.Ok? ==> kwargs == VecNormalized(old(kwargs)).value
      ensures r.Err? ==> kwargs == WorkersNormalized(old(kwargs))
    {
      if NumWorkers in kwargs && kwargs[NumWorkers] == Str("auto") {
        kwargs := kwargs[NumWorkers := Int(2)];
      }
      var n := if NumEnvs in kwargs then kwargs[NumEnvs] else Null;
      if n == Null || n == Str("auto") {
        kwargs := kwargs[NumEnvs := Int(MinEnvs)];
        return Ok(());
      }
      var below := BelowMinimum(n);
      if below.None? {
        return Err("TypeError");
      }
      if below.value {
        kwargs := kwargs[NumEnvs := Int(MinEnvs)];
      }
      r := Ok(());
    }
  }
}
