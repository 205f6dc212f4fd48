/**
 * The checkpoint handling of variations/flappy/eval_last_checkpoints.py:
 * reading the training step out of a `model_<digits>.pt` file name, choosing
 * the last N checkpoints by step, evaluating each on the same episode seeds,
 * and picking the best by (mean pipes, mean length).
 *
 * Paths are strings; the directory listing, the policy and the environment
 * are not modelled: an episode's outcome is a function `run` of the
 * checkpoint path and the episode seed.
 */
module Checkpoints {
  import opened Wrappers

  // ---------------------------------------------------------------------------
  // Decimal digits.
  // ---------------------------------------------------------------------------

  /** `\d`, restricted to the ASCII digits. */
  predicate IsDigit(c: char) { '0' <= c <= '9' }

  predicate AllDigits(s: string) { forall i :: 0 <= i < |s| ==> IsDigit(s[i]) }

  function DigitValue(c: char): (d: nat)
    requires IsDigit(c)
    ensures d < 10
  {
    c as int - '0' as int
  }

  /** int(s) for a string of decimal digits. */
  function DecimalValue(s: string): nat
    requires AllDigits(s)
  {
    if |s| == 0 then 0 else DecimalValue(s[..|s| - 1]) * 10 + DigitValue(s[|s| - 1])
  }

  function DigitChar(d: nat): (c: char)
    requires d < 10
    ensures IsDigit(c) && DigitValue(c) == d
  {
    ('0' as int + d) as char
  }

  /** The decimal representation of n, without leading zeros. */
  function Digits(n: nat): (s: string)
    ensures |s| >= 1 && AllDigits(s)
  {
    if n < 10 then [DigitChar(n)] else Digits(n / 10) + [DigitChar(n % 10)]
  }

  function Zeros(k: nat): (s: string)
    ensures |s| == k && AllDigits(s)
  {
    if k == 0 then [] else Zeros(k - 1) + ['0']
  }

  lemma {:induction false} DecimalOfDigits(n: nat)
    ensures DecimalValue(Digits(n)) == n
  {
    if n >= 10 {
      DecimalOfDigits(n / 10);
      var s := Digits(n);
      assert s[..|s| - 1] == Digits(n / 10);
    }
  }

  lemma {:induction false} DecimalOfZeros(k: nat)
    ensures DecimalValue(Zeros(k)) == 0
  {
    if k > 0 {
      DecimalOfZeros(k - 1);
      var z := Zeros(k);
      assert z == Zeros(k - 1) + ['0'];
      assert z[..k - 1] == Zeros(k - 1) && z[k - 1] == '0';
      assert DecimalValue(z) == DecimalValue(Zeros(k - 1)) * 10 + DigitValue('0');
    }
  }

  /** Leading zeros do not change the value. */
  lemma {:induction false} LeadingZeros(k: nat, s: string)
    requires AllDigits(s)
    ensures DecimalValue(Zeros(k) + s) == DecimalValue(s)
  {
    if |s| == 0 {
      assert Zeros(k) + s == Zeros(k);
      DecimalOfZeros(k);
    } else {
      LeadingZeros(k, s[..|s| - 1]);
      var t := Zeros(k) + s;
      assert t[..|t| - 1] == Zeros(k) + s[..|s| - 1];
    }
  }

  // ---------------------------------------------------------------------------
  // checkpoint_step.
  // ---------------------------------------------------------------------------

  /** The index of the last '/', or -1. */
  function LastSlash(path: string): (i: int)
    ensures -1 <= i < |path|
    ensures i >= 0 ==> path[i] == '/'
    ensures forall j :: i < j < |path| ==> path[j] != '/'
  {
    if |path| == 0 then -1
    else if path[|path| - 1] == '/' then |path| - 1
    else LastSlash(path[..|path| - 1])
  }

  /** os.path.basename: everything after the last '/'. */
  function Basename(path: string): (name: string)
    ensures '/' !in name
  {
    path[LastSlash(path) + 1..]
  }

  lemma {:induction false} LastSlashOfJoin(dir: string, name: string)
    requires '/' !in name
    ensures LastSlash(dir + name) == LastSlash(dir)
    decreases |name|
  {
    if |name| > 0 {
      var p := dir + name;
      assert p[..|p| - 1] == dir + name[..|name| - 1];
      assert p[|p| - 1] == name[|name| - 1];
      LastSlashOfJoin(dir, name[..|name| - 1]);
    } else {
      assert dir + name == dir;
    }
  }

  /** The base name of a directory (empty, or ending in '/') joined with a plain name is that name. */
  lemma BasenameOfJoin(dir: string, name: string)
    requires '/' !in name
    requires dir == [] || dir[|dir| - 1] == '/'
    ensures Basename(dir + name) == name
  {
    LastSlashOfJoin(dir, name);
    if |dir| > 0 {
      assert LastSlash(dir) == |dir| - 1;
    } else {
      assert LastSlash(dir) == -1;
    }
    assert (dir + name)[|dir|..] == name;
  }

  const Prefix := "model_"
  const Suffix := ".pt"

  /**
   * re.match(r"model_(\d+)\.pt$", name): the digit group, if the name is
   * `model_<digits>.pt`, possibly followed by one final newline (which `$`
   * lets through).
   */
  function MatchStep(name: string): (m: Option<string>)
    ensures m.Some? ==> |m.value| >= 1 && AllDigits(m.value)
  {
    var body := if |name| > 0 && name[|name| - 1] == '\n' then name[..|name| - 1] else name;
    if |body| >= |Prefix| + 1 + |Suffix| && body[..|Prefix|] == Prefix && body[|body| - |Suffix|..] == Suffix
       && AllDigits(body[|Prefix|..|body| - |Suffix|])
    then Some(body[|Prefix|..|body| - |Suffix|])
    else None
  }

  /** checkpoint_step(path): the step number of a checkpoint file, or -1. */
  function CheckpointStep(path: string): (n: int)
    ensures n >= -1
  {
    match MatchStep(Basename(path))
    case Some(d) => DecimalValue(d)
    case None => -1
  }

  /** The names checkpoint_step accepts: "model_" + digits + ".pt", with an optional final newline. */
  predicate CheckpointName(name: string, d: string)
  {
    |d| >= 1 && AllDigits(d) && (name == Prefix + d + Suffix || name == Prefix + d + Suffix + "\n")
  }

  lemma MatchesName(name: string, d: string)
    requires CheckpointName(name, d)
    ensures MatchStep(name) == Some(d)
  {
    var body := Prefix + d + Suffix;
    assert body[..|Prefix|] == Prefix;
    assert body[|body| - |Suffix|..] == Suffix;
    assert body[|Prefix|..|body| - |Suffix|] == d;
    if name != body {
      assert name[..|name| - 1] == body;
    }
  }

  lemma NameOfMatch(name: string)
    requires MatchStep(name).Some?
    ensures CheckpointName(name, MatchStep(name).value)
  {
    var body := if |name| > 0 && name[|name| - 1] == '\n' then name[..|name| - 1] else name;
    var d := MatchStep(name).value;
    assert body == body[..|Prefix|] + body[|Prefix|..|body| - |Suffix|] + body[|body| - |Suffix|..];
    if body != name {
      assert name == body + "\n";
    }
  }

  /**
   * checkpoint_step is the decimal value of d exactly when the base name is
   * "model_" + d + ".pt" for a digit string d (with at most a final newline
   * after it), and -1 for every other name; the directory part is ignored.
   */
  lemma StepOfName(path: string)
    ensures CheckpointStep(path) >= 0 <==> exists d :: CheckpointName(Basename(path), d)
    ensures forall d :: CheckpointName(Basename(path), d) ==> CheckpointStep(path) == DecimalValue(d)
  {
    var name := Basename(path);
    if MatchStep(name).Some? {
      NameOfMatch(name);
    }
    forall d | CheckpointName(name, d)
      ensures CheckpointStep(path) == DecimalValue(d)
    {
      MatchesName(name, d);
    }
  }

  /** Round trip: the file a run writes for step n, under any directory and with any zero padding, parses back to n. */
  lemma StepRoundTrip(dir: string, zeros: nat, n: nat)
    requires dir == [] || dir[|dir| - 1] == '/'
    ensures CheckpointStep(dir + (Prefix + (Zeros(zeros) + Digits(n)) + Suffix)) == n
  {
    var d := Zeros(zeros) + Digits(n);
    var name := Prefix + d + Suffix;
    assert forall i :: 0 <= i < |name| ==> name[i] != '/' by {
      forall i | 0 <= i < |name|
        ensures name[i] != '/'
      {
        if |Prefix| <= i < |Prefix| + |d| {
          assert name[i] == d[i - |Prefix|];
        }
      }
    }
    BasenameOfJoin(dir, name);
    MatchesName(name, d);
    LeadingZeros(zeros, Digits(n));
    DecimalOfDigits(n);
  }

  // ---------------------------------------------------------------------------
  // Selecting the last checkpoints.
  // ---------------------------------------------------------------------------

  // The filter and the sort are written over any key from strings to integers
  // and used with `CheckpointStep`.

  /** `[p for p in checkpoints if key(p) >= 0]`. */
  function Filter(key: string -> int, paths: seq<string>): (v: seq<string>)
    ensures forall p :: p in v <==> p in paths && key(p) >= 0
    ensures multiset(v) <= multiset(paths)
  {
    if |paths| == 0 then []
    else
      var rest := Filter(key, paths[1..]);
      assert paths == [paths[0]] + paths[1..];
      if key(paths[0]) >= 0 then [paths[0]] + rest else rest
  }

  /** The filter keeps every name with a given valid key, in listing order. */
  lemma {:induction false} FilterKeepsOrder(key: string -> int, paths: seq<string>, k: int)
    requires k >= 0
    ensures WithKey(key, Filter(key, paths), k) == WithKey(key, paths, k)
  {
    if |paths| > 0 {
      var rest := Filter(key, paths[1..]);
      FilterKeepsOrder(key, paths[1..], k);
      assert WithKey(key, rest, k) == WithKey(key, paths[1..], k);
      var head := if key(paths[0]) == k then [paths[0]] else [];
      assert WithKey(key, paths, k) == head + WithKey(key, paths[1..], k);
      if key(paths[0]) >= 0 {
        assert Filter(key, paths) == [paths[0]] + rest;
        WithKeyCons(key, paths[0], rest, k);
      } else {
        assert Filter(key, paths) == rest;
        assert head == [];
      }
    }
  }

  predicate SortedBy(key: string -> int, s: seq<string>)
  {
    forall i, j :: 0 <= i < j < |s| ==> key(s[i]) <= key(s[j])
  }

  /** Insert x after every element whose key is not above x's (equal keys stay in arrival order). */
  function Insert(key: string -> int, x: string, s: seq<string>): (r: seq<string>)
  {
    if |s| == 0 then [x]
    else if key(s[0]) > key(x) then [x] + s
    else [s[0]] + Insert(key, x, s[1..])
  }

  /** `list.sort(key=key)`: Python's stable sort, as an insertion sort. */
  function SortBy(key: string -> int, s: seq<string>): seq<string>
  {
    if |s| == 0 then [] else Insert(key, s[|s| - 1], SortBy(key, s[..|s| - 1]))
  }

  /** Insertion adds x and keeps everything else. */
  lemma {:induction false} InsertKeeps(key: string -> int, x: string, s: seq<string>)
    ensures multiset(Insert(key, x, s)) == multiset(s) + multiset{x}
    ensures |Insert(key, x, s)| == |s| + 1
  {
    if |s| > 0 && key(s[0]) <= key(x) {
      InsertKeeps(key, x, s[1..]);
      assert s == [s[0]] + s[1..];
    }
  }

  lemma {:induction false} InsertFacts(key: string -> int, x: string, s: seq<string>)
    requires SortedBy(key, s)
    ensures SortedBy(key, Insert(key, x, s))
    ensures multiset(Insert(key, x, s)) == multiset(s) + multiset{x}
    ensures |Insert(key, x, s)| == |s| + 1
  {
    InsertKeeps(key, x, s);
    if |s| > 0 && key(s[0]) <= key(x) {
      var rest := Insert(key, x, s[1..]);
      InsertFacts(key, x, s[1..]);
      InsertKeeps(key, x, s[1..]);
      forall j | 0 <= j < |rest|
        ensures key(s[0]) <= key(rest[j])
      {
        assert rest[j] in multiset(s[1..]) + multiset{x};
      }
    }
  }

  /** The sort orders by key and is a permutation of its input. */
  lemma {:induction false} SortFacts(key: string -> int, s: seq<string>)
    ensures SortedBy(key, SortBy(key, s))
    ensures multiset(SortBy(key, s)) == multiset(s)
    ensures |SortBy(key, s)| == |s|
  {
    if |s| > 0 {
      SortFacts(key, s[..|s| - 1]);
      InsertFacts(key, s[|s| - 1], SortBy(key, s[..|s| - 1]));
      assert s == s[..|s| - 1] + [s[|s| - 1]];
    }
  }

  /** The elements of s with key k, in order. */
  function WithKey(key: string -> int, s: seq<string>, k: int): seq<string>
  {
    if |s| == 0 then [] else (if key(s[0]) == k then [s[0]] else []) + WithKey(key, s[1..], k)
  }

  lemma {:induction false} WithKeyAppend(key: string -> int, a: seq<string>, b: seq<string>, k: int)
    ensures WithKey(key, a + b, k) == WithKey(key, a, k) + WithKey(key, b, k)
  {
    if |a| > 0 {
      WithKeyAppend(key, a[1..], b, k);
      assert (a + b)[1..] == a[1..] + b;
    } else {
      assert a + b == b;
    }
  }

  lemma {:induction false} NoneWithKey(key: string -> int, s: seq<string>, k: int)
    requires forall i :: 0 <= i < |s| ==> key(s[i]) > k
    ensures WithKey(key, s, k) == []
  {
    if |s| > 0 {
      NoneWithKey(key, s[1..], k);
    }
  }

  /** One unfolding of WithKey at the front of a sequence. */
  lemma WithKeyCons(key: string -> int, y: string, s: seq<string>, k: int)
    ensures WithKey(key, [y] + s, k) == (if key(y) == k then [y] else []) + WithKey(key, s, k)
  {
    assert ([y] + s)[1..] == s;
  }

  lemma {:induction false} WithKeyInsert(key: string -> int, x: string, s: seq<string>, k: int)
    requires SortedBy(key, s)
    ensures WithKey(key, Insert(key, x, s), k) == WithKey(key, s, k) + (if key(x) == k then [x] else [])
  {
    var last := if key(x) == k then [x] else [];
    if |s| == 0 {
      WithKeyCons(key, x, [], k);
      assert Insert(key, x, s) == [x] + [];
    } else if key(s[0]) > key(x) {
      if key(x) == k {
        NoneWithKey(key, s, k);
      }
      WithKeyCons(key, x, s, k);
      assert Insert(key, x, s) == [x] + s;
    } else {
      var rest := Insert(key, x, s[1..]);
      var first := if key(s[0]) == k then [s[0]] else [];
      WithKeyInsert(key, x, s[1..], k);
      WithKeyCons(key, s[0], rest, k);
      WithKeyCons(key, s[0], s[1..], k);
      assert Insert(key, x, s) == [s[0]] + rest;
      assert s == [s[0]] + s[1..];
      assert first + (WithKey(key, s[1..], k) + last) == (first + WithKey(key, s[1..], k)) + last;
    }
  }

  /** The sort is stable: the elements with any one key keep their input order. */
  lemma {:induction false} SortIsStable(key: string -> int, s: seq<string>, k: int)
    ensures WithKey(key, SortBy(key, s), k) == WithKey(key, s, k)
  {
    if |s| > 0 {
      var init, x := s[..|s| - 1], s[|s| - 1];
      SortIsStable(key, init, k);
      SortFacts(key, init);
      WithKeyInsert(key, x, SortBy(key, init), k);
      assert SortBy(key, s) == Insert(key, x, SortBy(key, init));
      assert s == init + [x];
      WithKeyAppend(key, init, [x], k);
      WithKeyCons(key, x, [], k);
      assert [x] + [] == [x];
    }
  }

  function Min(a: int, b: int): int { if a <= b then a else b }
  function Max(a: int, b: int): int { if a >= b then a else b }

  /**
   * The selection block of main for a key: keep the names with a key of at
   * least 0, sort them by key, stop when none is left, and take the last
   * max(1, last) of them.
   */
  function Select(key: string -> int, paths: seq<string>, last: int): Option<seq<string>>
  {
    var ranked := SortBy(key, Filter(key, paths));
    if |ranked| == 0 then None
    else Some(ranked[|ranked| - Min(|ranked|, Max(1, last))..])
  }

  /** The tail of a sorted sequence is sorted. */
  lemma SortedSuffix(key: string -> int, ranked: seq<string>, cut: nat)
    requires SortedBy(key, ranked) && cut <= |ranked|
    ensures SortedBy(key, ranked[cut..])
  {
    var tail := ranked[cut..];
    forall i, j | 0 <= i < j < |tail|
      ensures key(tail[i]) <= key(tail[j])
    {
      assert tail[i] == ranked[cut + i] && tail[j] == ranked[cut + j];
    }
  }

  /** What a cut drops is the head of the sequence. */
  lemma DroppedHead(ranked: seq<string>, cut: nat)
    requires cut <= |ranked|
    ensures multiset(ranked[cut..]) <= multiset(ranked)
    ensures multiset(ranked) - multiset(ranked[cut..]) == multiset(ranked[..cut])
  {
    assert ranked == ranked[..cut] + ranked[cut..];
  }

  /**
   * The tail of a sorted sequence from a cut is sorted, and everything the cut
   * drops has a key at most that of everything it keeps.
   */
  lemma SuffixFacts(key: string -> int, ranked: seq<string>, cut: nat)
    requires SortedBy(key, ranked) && cut <= |ranked|
    ensures SortedBy(key, ranked[cut..])
    ensures multiset(ranked[cut..]) <= multiset(ranked)
    ensures forall p, q :: p in multiset(ranked) - multiset(ranked[cut..]) && q in ranked[cut..] ==> key(p) <= key(q)
  {
    SortedSuffix(key, ranked, cut);
    DroppedHead(ranked, cut);
    forall p, q | p in multiset(ranked[..cut]) && q in ranked[cut..]
      ensures key(p) <= key(q)
    {
      assert p in ranked[..cut];
      var i :| 0 <= i < cut && ranked[i] == p;
      var j :| cut <= j < |ranked| && ranked[j] == q;
    }
  }

  /** There is no selection exactly when no name has a key of at least 0. */
  lemma SelectNone(key: string -> int, paths: seq<string>, last: int)
    ensures Select(key, paths, last).None? <==> forall p :: p in paths ==> key(p) < 0
  {
    var valid := Filter(key, paths);
    SortFacts(key, valid);
    if |SortBy(key, valid)| == 0 {
      assert multiset(valid) == multiset{};
    } else {
      assert valid[0] in valid;
    }
  }

  lemma SelectFacts(key: string -> int, paths: seq<string>, last: int)
    ensures Select(key, paths, last).None? <==> forall p :: p in paths ==> key(p) < 0
    ensures var sel := Select(key, paths, last);
      var valid := Filter(key, paths);
      sel.Some? ==>
        && |sel.value| == Min(|valid|, Max(1, last))
        && SortedBy(key, sel.value)
        && multiset(sel.value) <= multiset(valid)
        && (forall p :: p in sel.value ==> p in paths && key(p) >= 0)
        && (forall p, q :: p in multiset(valid) - multiset(sel.value) && q in sel.value ==> key(p) <= key(q))
  {
    SelectNone(key, paths, last);
    var valid := Filter(key, paths);
    var ranked := SortBy(key, valid);
    SortFacts(key, valid);
    if |ranked| > 0 {
      var cut := |ranked| - Min(|ranked|, Max(1, last));
      SuffixFacts(key, ranked, cut);
      forall p | p in ranked[cut..]
        ensures p in paths && key(p) >= 0
      {
        assert p in multiset(valid);
      }
    }
  }

  /** `[p for p in checkpoints if checkpoint_step(p) >= 0]`. */
  function ValidCheckpoints(paths: seq<string>): seq<string>
  {
    Filter(CheckpointStep, paths)
  }

  /** The selection block of main, keyed by checkpoint_step. */
  function SelectCheckpoints(paths: seq<string>, last: int): Option<seq<string>>
  {
    Select(CheckpointStep, paths, last)
  }

  /**
   * What the selection guarantees: there is a selection exactly when some
   * name parses; it holds only parsable names from the listing, sorted by
   * step, min(count, max(1, last)) of them, and no valid checkpoint left out
   * has a higher step than one selected.
   */
  lemma SelectionFacts(paths: seq<string>, last: int)
    ensures SelectCheckpoints(paths, last).None? <==> forall p :: p in paths ==> CheckpointStep(p) < 0
    ensures var sel := SelectCheckpoints(paths, last);
      var valid := ValidCheckpoints(paths);
      sel.Some? ==>
        && |sel.value| == Min(|valid|, Max(1, last))
        && SortedBy(CheckpointStep, sel.value)
        && multiset(sel.value) <= multiset(valid)
        && (forall p :: p in sel.value ==> p in paths && CheckpointStep(p) >= 0)
        && (forall p, q :: p in multiset(valid) - multiset(sel.value) && q in sel.value ==>
              CheckpointStep(p) <= CheckpointStep(q))
  {
    SelectFacts(CheckpointStep, paths, last);
  }

  /**
   * Checkpoints with the same step keep their order through the filter and the
   * sort: for every valid step, the ranking lists them as the listing does.
   */
  lemma RankingIsStable(paths: seq<string>, k: int)
    ensures WithKey(CheckpointStep, SortBy(CheckpointStep, ValidCheckpoints(paths)), k)
         == WithKey(CheckpointStep, ValidCheckpoints(paths), k)
    ensures k >= 0 ==>
      WithKey(CheckpointStep, SortBy(CheckpointStep, ValidCheckpoints(paths)), k) == WithKey(CheckpointStep, paths, k)
  {
    var valid := ValidCheckpoints(paths);
    SortIsStable(CheckpointStep, valid, k);
    if k >= 0 {
      FilterKeepsOrder(CheckpointStep, paths, k);
      assert valid == Filter(CheckpointStep, paths);
    }
  }

  // ---------------------------------------------------------------------------
  // Evaluation and the best checkpoint.
  // ---------------------------------------------------------------------------

  /** run_episode's result: pipes passed and steps taken. */
  datatype Episode = Episode(pipesPassed: nat, steps: nat)

  /** The statistics eval_checkpoint reports (std_pipes is not modelled). */
  datatype Evaluation = Evaluation(modelPath: string, meanPipes: real, minPipes: int, maxPipes: int, meanLength: real)

  /** Episode ep of every checkpoint is run with seed base + ep. */
  function EpisodeSeeds(base: int, episodes: nat): (seeds: seq<int>)
    ensures |seeds| == episodes && forall ep :: 0 <= ep < episodes ==> seeds[ep] == base + ep
  {
    seq(episodes, ep => base + ep)
  }

  function Sum(xs: seq<nat>): nat
  {
    if |xs| == 0 then 0 else Sum(xs[..|xs| - 1]) + xs[|xs| - 1]
  }

  function Mean(xs: seq<nat>): real
    requires |xs| > 0
  {
    Sum(xs) as real / |xs| as real
  }

  function MinOf(xs: seq<nat>): (m: nat)
    requires |xs| > 0
    ensures m in xs && forall i :: 0 <= i < |xs| ==> m <= xs[i]
  {
    if |xs| == 1 then xs[0] else var m := MinOf(xs[..|xs| - 1]); if xs[|xs| - 1] < m then xs[|xs| - 1] else m
  }

  function MaxOf(xs: seq<nat>): (m: nat)
    requires |xs| > 0
    ensures m in xs && forall i :: 0 <= i < |xs| ==> xs[i] <= m
  {
    if |xs| == 1 then xs[0] else var m := MaxOf(xs[..|xs| - 1]); if xs[|xs| - 1] > m then xs[|xs| - 1] else m
  }

  lemma {:induction false} SumBounds(xs: seq<nat>, lo: nat, hi: nat)
    requires forall i :: 0 <= i < |xs| ==> lo <= xs[i] <= hi
    ensures |xs| * lo <= Sum(xs) <= |xs| * hi
  {
    if |xs| > 0 {
      var init := xs[..|xs| - 1];
      SumBounds(init, lo, hi);
      assert |xs| * lo == |init| * lo + lo;
      assert |xs| * hi == |init| * hi + hi;
    }
  }

  /** The mean lies between the minimum and the maximum. */
  lemma MeanBounds(xs: seq<nat>)
    requires |xs| > 0
    ensures MinOf(xs) as real <= Mean(xs) <= MaxOf(xs) as real
  {
    SumBounds(xs, MinOf(xs), MaxOf(xs));
    QuotientBetween(Sum(xs), |xs|, MinOf(xs), MaxOf(xs));
  }

  lemma {:induction false} CastProduct(a: nat, b: nat)
    ensures (a * b) as real == a as real * b as real
  {
    if a > 0 {
      CastProduct(a - 1, b);
      assert a * b == (a - 1) * b + b;
    }
  }

  /** k * lo <= total <= k * hi puts total / k between lo and hi. */
  lemma QuotientBetween(total: nat, k: nat, lo: nat, hi: nat)
    requires k > 0 && k * lo <= total <= k * hi
    ensures lo as real <= total as real / k as real <= hi as real
  {
    var n, t, l, h := k as real, total as real, lo as real, hi as real;
    CastProduct(k, lo);
    CastProduct(k, hi);
    assert n * l <= t <= n * h;
    var q := t / n;
    assert q * n == t;
    assert (q - l) * n == t - n * l;
    assert (h - q) * n == n * h - t;
    SignOfProduct(q - l, n);
    SignOfProduct(h - q, n);
  }

  lemma SignOfProduct(a: real, n: real)
    requires n > 0.0
    ensures a * n >= 0.0 ==> a >= 0.0
  {
  }

  function PipesOf(eps: seq<Episode>): (xs: seq<nat>)
    ensures |xs| == |eps|
  {
    seq(|eps|, i requires 0 <= i < |eps| => eps[i].pipesPassed)
  }

  function StepsOf(eps: seq<Episode>): (xs: seq<nat>)
    ensures |xs| == |eps|
  {
    seq(|eps|, i requires 0 <= i < |eps| => eps[i].steps)
  }

  /** The report of eval_checkpoint for the episodes it ran. */
  function Summarise(modelPath: string, eps: seq<Episode>): (e: Evaluation)
    requires |eps| > 0
    ensures e.modelPath == modelPath && e.minPipes as real <= e.meanPipes <= e.maxPipes as real
    ensures e.meanPipes == Mean(PipesOf(eps)) && e.meanLength == Mean(StepsOf(eps))
    ensures e.minPipes == MinOf(PipesOf(eps)) && e.maxPipes == MaxOf(PipesOf(eps))
  {
    MeanBounds(PipesOf(eps));
    Evaluation(modelPath, Mean(PipesOf(eps)), MinOf(PipesOf(eps)), MaxOf(PipesOf(eps)), Mean(StepsOf(eps)))
  }

  /** The outcomes of running one checkpoint on a list of seeds. */
  function Outcomes(run: (string, int) -> Episode, modelPath: string, seeds: seq<int>): (eps: seq<Episode>)
    ensures |eps| == |seeds|
  {
    seq(|seeds|, i requires 0 <= i < |seeds| => run(modelPath, seeds[i]))
  }

  /**
   * eval_checkpoint: `episodes` episodes with seeds seed, seed + 1, ... (the
   * same for every checkpoint), summarised; with no episodes numpy's min
   * raises, and the result is None.
   */
  method EvalCheckpoint(run: (string, int) -> Episode, modelPath: string, episodes: int, seed: int)
    returns (r: Option<Evaluation>)
    ensures episodes <= 0 ==> r.None?
    ensures episodes > 0 ==> r == Some(Summarise(modelPath, Outcomes(run, modelPath, EpisodeSeeds(seed, episodes))))
  {
    var pipes: seq<nat> := [];
    var lengths: seq<nat> := [];
    ghost var eps: seq<Episode> := [];
    var ep := 0;
    while ep < episodes
      invariant 0 <= ep && (episodes >= 0 ==> ep <= episodes) && (episodes <= 0 ==> ep == 0)
      invariant |eps| == ep && eps == Outcomes(run, modelPath, EpisodeSeeds(seed, ep))
      invariant pipes == PipesOf(eps) && lengths == StepsOf(eps)
    {
      var e := run(modelPath, seed + ep);
      pipes := pipes + [e.pipesPassed];
      lengths := lengths + [e.steps];
      eps := eps + [e];
      ep := ep + 1;
    }
    if |pipes| == 0 {
      return None;
    }
    MeanBounds(pipes);
    r := Some(Evaluation(modelPath, Mean(pipes), MinOf(pipes), MaxOf(pipes), Mean(lengths)));
  }

  /** `(r["mean_pipes"], r["mean_length"])` compared as Python compares tuples. */
  predicate Better(a: Evaluation, b: Evaluation)
  {
    a.meanPipes > b.meanPipes || (a.meanPipes == b.meanPipes && a.meanLength > b.meanLength)
  }

  /** max(results, key=...): a later result replaces the best so far only when strictly better. */
  function BestIndex(rs: seq<Evaluation>): (k: nat)
    requires |rs| > 0
    ensures k < |rs|
  {
    if |rs| == 1 then 0
    else
      var b := BestIndex(rs[..|rs| - 1]);
      if Better(rs[|rs| - 1], rs[b]) then |rs| - 1 else b
  }

  /** The best result: no result is better, and every earlier result is strictly worse (the first of equals wins). */
  lemma {:induction false} BestIsFirstMaximum(rs: seq<Evaluation>)
    requires |rs| > 0
    ensures var k := BestIndex(rs);
      && (forall j :: 0 <= j < |rs| ==> !Better(rs[j], rs[k]))
      && (forall j :: 0 <= j < k ==> Better(rs[k], rs[j]))
  {
    if |rs| > 1 {
      BestIsFirstMaximum(rs[..|rs| - 1]);
    }
  }

  /** The results loop of main: every selected checkpoint evaluated on the same seeds, in order. */
  method EvaluateAll(run: (string, int) -> Episode, selected: seq<string>, episodes: int, seed: int)
    returns (results: Option<seq<Evaluation>>)
    ensures episodes <= 0 && |selected| > 0 ==> results.None?
    ensures episodes > 0 ==> results.Some? && |results.value| == |selected|
    ensures episodes > 0 ==> forall i :: 0 <= i < |selected| ==>
      results.value[i] == Summarise(selected[i], Outcomes(run, selected[i], EpisodeSeeds(seed, episodes)))
  {
    var acc: seq<Evaluation> := [];
    var i := 0;
    while i < |selected|
      invariant 0 <= i <= |selected| && |acc| == i && (episodes <= 0 ==> i == 0)
      invariant episodes > 0 ==> forall j :: 0 <= j < i ==>
        acc[j] == Summarise(selected[j], Outcomes(run, selected[j], EpisodeSeeds(seed, episodes)))
    {
      var res := EvalCheckpoint(run, selected[i], episodes, seed);
      if res.None? {
        return None;
      }
      acc := acc + [res.value];
      i := i + 1;
    }
    results := Some(acc);
  }
}
