/** The rule-based scoring engine: a weighted sum of subject scores per field,
    a compounding bonus for every matching interest, then a comfort-with-
    mathematics adjustment of the math-sensitive fields.

    The engine is written as the program runs it, step by step over an
    insertion-ordered score dictionary. `Expected` is the closed form of the
    whole engine, a reference definition the engine is proved to compute
    (`RunAt`, `ScoreAt`); the properties are stated against the engine
    itself, through `FieldScore` and `Scale`. Scores are exact reals; the
    program's 1.08, 0.87 and 1.06 are 27/25, 87/100 and 53/50. */
module Scoring {
  import opened Dict
  import opened Catalog

  /** A subject-score dictionary as the student fills it in. */
  type SubjectScores = Dict<string, int>

  /** A field-score dictionary. */
  type FieldScores = Dict<string, real>

  /** The interest bonus, 8%. */
  const InterestBonus: real := 27.0 / 25.0
  /** The low-comfort reduction, 13%. */
  const LowComfortFactor: real := 87.0 / 100.0
  /** The high-comfort increase, 6%. */
  const HighComfortFactor: real := 53.0 / 50.0

  /** `x` to the power `n`. */
  function Pow(x: real, n: nat): real
  {
    if n == 0 then 1.0 else x * Pow(x, n - 1)
  }

  lemma {:induction false} PowPositive(x: real, n: nat)
    requires x > 0.0
    ensures Pow(x, n) > 0.0
  {
    if n > 0 {
      PowPositive(x, n - 1);
    }
  }

  lemma {:induction false} PowAdd(x: real, m: nat, n: nat)
    ensures Pow(x, m + n) == Pow(x, m) * Pow(x, n)
  {
    if m > 0 {
      PowAdd(x, m - 1, n);
      assert Pow(x, m + n) == x * Pow(x, m - 1 + n);
    }
  }

  /** Multiplication by `c`, the update `skor[k] *= c` applies. */
  function Times(c: real): real -> real
  {
    x => x * c
  }

  /** Multiplying `n` times by `c` multiplies by the `n`-th power of `c`. */
  lemma {:induction false} IterateTimes(c: real, x: real, n: nat)
    ensures Iterate(Times(c), x, n) == x * Pow(c, n)
    decreases n
  {
    if n > 0 {
      assert Times(c)(x) == x * c;
      IterateTimes(c, x * c, n - 1);
      assert Pow(c, n) == c * Pow(c, n - 1);
    }
  }

  /** Repeated multiplication distributes over a sum. */
  lemma {:induction false} IterateTimesAdd(c: real, x: real, y: real, z: real, n: nat)
    requires z == x + y
    ensures Iterate(Times(c), z, n) == Iterate(Times(c), x, n) + Iterate(Times(c), y, n)
    decreases n
  {
    if n > 0 {
      assert Times(c)(z) == Times(c)(x) + Times(c)(y) by {
        assert (x + y) * c == x * c + y * c;
      }
      IterateTimesAdd(c, Times(c)(x), Times(c)(y), Times(c)(z), n - 1);
    }
  }

  lemma MulMonotone(x: real, y: real, c: real)
    requires c > 0.0 && x <= y
    ensures x * c <= y * c
    ensures x < y ==> x * c < y * c
  {
  }

  /** Repeated multiplication by a positive factor keeps the order of its
      arguments, strictly when they differ. */
  lemma {:induction false} IterateTimesMonotone(c: real, x: real, y: real, n: nat)
    requires c > 0.0 && x <= y
    ensures Iterate(Times(c), x, n) <= Iterate(Times(c), y, n)
    ensures x < y ==> Iterate(Times(c), x, n) < Iterate(Times(c), y, n)
    decreases n
  {
    if n > 0 {
      MulMonotone(x, y, c);
      IterateTimesMonotone(c, Times(c)(x), Times(c)(y), n - 1);
    }
  }

  lemma Swap(x: real, k: real, c: real, z: real)
    requires z == x * k
    ensures z * c == x * c * k
  {
  }

  /** Scaling the start of a repeated multiplication scales its result. */
  lemma {:induction false} IterateTimesScale(c: real, x: real, k: real, z: real, n: nat)
    requires z == x * k
    ensures Iterate(Times(c), z, n) == Iterate(Times(c), x, n) * k
    decreases n
  {
    if n > 0 {
      Swap(x, k, c, z);
      IterateTimesScale(c, Times(c)(x), k, Times(c)(z), n - 1);
    }
  }

  /** Repeated multiplications by two factors commute. */
  lemma {:induction false} IterateTimesCommute(a: real, b: real, x: real, m: nat, n: nat)
    ensures Iterate(Times(a), Iterate(Times(b), x, n), m) == Iterate(Times(b), Iterate(Times(a), x, m), n)
    decreases m
  {
    if m > 0 {
      var y := Iterate(Times(b), x, n);
      IterateTimesScale(b, x, a, Times(a)(x), n);
      assert Times(a)(y) == Iterate(Times(b), Times(a)(x), n);
      IterateTimesCommute(a, b, Times(a)(x), m - 1, n);
    }
  }

  // ---------------------------------------------------------------------------
  // The reference definition
  // ---------------------------------------------------------------------------

  /** The weighted sum of the student's subject scores over a weight table; a
      subject the student has no score for counts as 0. */
  function WeightedSum(t: Tables, weights: Dict<string, nat>, scores: SubjectScores): real
  {
    if |weights| == 0 then 0.0
    else (weights[0].1 * Get(scores, t.Alias(weights[0].0), 0)) as real + WeightedSum(t, weights[1..], scores)
  }

  /** The bonus groups of the interests, in the order the interests are given. */
  function InterestGroups(t: Tables, prefs: seq<string>): (gs: seq<seq<string>>)
    ensures |gs| == |prefs|
    ensures forall j :: 0 <= j < |prefs| ==> gs[j] == t.BonusGroup(prefs[j])
  {
    seq(|prefs|, j requires 0 <= j < |prefs| => t.BonusGroup(prefs[j]))
  }

  /** How many times the interests `prefs` favour field `name`: one count per
      (interest, bonus-group entry) pair that names it. */
  function BonusCount(t: Tables, prefs: seq<string>, name: string): nat
  {
    GroupCount(name, InterestGroups(t, prefs))
  }

  /** The comfort adjustment of field `name` under comfort label `comfort`:
      only "Rendah" and "Tinggi" change anything, and only for the
      math-sensitive fields. */
  function ComfortFactor(t: Tables, comfort: string, name: string): real
  {
    if name !in t.mathSensitive then 1.0
    else if comfort == "Rendah" then LowComfortFactor
    else if comfort == "Tinggi" then HighComfortFactor
    else 1.0
  }

  /** The score the engine gives field `f`. */
  function Expected(t: Tables, scores: SubjectScores, prefs: seq<string>, comfort: string, f: Field): real
  {
    WeightedSum(t, f.weights, scores) * Pow(InterestBonus, BonusCount(t, prefs, f.name)) * ComfortFactor(t, comfort, f.name)
  }

  // ---------------------------------------------------------------------------
  // The engine as the program runs it
  // ---------------------------------------------------------------------------

  /** `{k: 0.0 for k in peta.keys()}`. */
  function InitialScores(t: Tables): (r: FieldScores)
    ensures Keys(r) == t.Names()
  {
    seq(|t.fields|, i requires 0 <= i < |t.fields| => (t.fields[i].name, 0.0))
  }

  /** `skor[bidang] = total` for the catalog fields from index `m` on; the
      key is always present, so the assignment rebinds it in place. */
  function FillFrom(t: Tables, d: FieldScores, scores: SubjectScores, m: nat): (r: FieldScores)
    requires m <= |t.fields|
    ensures |r| == |d|
    decreases |t.fields| - m
  {
    if m == |t.fields| then d
    else
      var total := WeightedSum(t, t.fields[m].weights, scores);
      FillFrom(t, Update(d, t.fields[m].name, _ => total), scores, m + 1)
  }

  /** Step 1: the weighted sum of every catalog field, written over the
      all-zero dictionary. */
  function BaseScores(t: Tables, scores: SubjectScores): FieldScores
  {
    FillFrom(t, InitialScores(t), scores, 0)
  }

  /** Step 2: `for p in preferensi: for bidang in preferensi_bonus.get(p, []):
      if bidang in skor: skor[bidang] *= 1.08`. */
  function ApplyInterests(t: Tables, s: FieldScores, prefs: seq<string>): (r: FieldScores)
    ensures |r| == |s|
  {
    UpdateGroups(s, InterestGroups(t, prefs), Times(InterestBonus))
  }

  /** Step 3: on "Rendah" or "Tinggi", every math-sensitive field is scaled,
      unguarded: a math-sensitive field missing from `s` would raise a
      KeyError, which is `None` here. */
  function ApplyComfort(t: Tables, s: FieldScores, comfort: string): (r: Option<FieldScores>)
    ensures r.Some? ==> |r.value| == |s|
  {
    if comfort == "Rendah" then UpdateEach(s, t.mathSensitive, Times(LowComfortFactor))
    else if comfort == "Tinggi" then UpdateEach(s, t.mathSensitive, Times(HighComfortFactor))
    else Some(s)
  }

  /** What step 3 does to the value `x` of field `name`: the factor is
      applied once per listing of the field among the math-sensitive ones. */
  function ComfortStep(t: Tables, comfort: string, name: string, x: real): real
  {
    if comfort == "Rendah" then Iterate(Times(LowComfortFactor), x, Count(name, t.mathSensitive))
    else if comfort == "Tinggi" then Iterate(Times(HighComfortFactor), x, Count(name, t.mathSensitive))
    else x
  }

  /** The whole engine, `skor_bidang_dari_map`, over tables `t`. */
  function Run(t: Tables, scores: SubjectScores, prefs: seq<string>, comfort: string): Option<FieldScores>
  {
    ApplyComfort(t, ApplyInterests(t, BaseScores(t, scores), prefs), comfort)
  }

  // ---------------------------------------------------------------------------
  // Each step computes its part of the closed form
  // ---------------------------------------------------------------------------

  /** Filling never changes the keys. */
  lemma {:induction false} FillFromKeys(t: Tables, d: FieldScores, scores: SubjectScores, m: nat)
    requires m <= |t.fields|
    ensures Keys(FillFrom(t, d, scores, m)) == Keys(d)
    decreases |t.fields| - m
  {
    if m < |t.fields| {
      var total := WeightedSum(t, t.fields[m].weights, scores);
      var f: real -> real := _ => total;
      var u := Update(d, t.fields[m].name, f);
      assert FillFrom(t, d, scores, m) == FillFrom(t, u, scores, m + 1);
      UpdateKeys(d, t.fields[m].name, f);
      FillFromKeys(t, u, scores, m + 1);
    }
  }

  /** Filling from index `m` on writes each of those fields' weighted sums
      and leaves the entries before `m` alone. */
  lemma {:induction false} FillFromAt(t: Tables, d: FieldScores, scores: SubjectScores, m: nat, i: nat)
    requires t.Valid()
    requires Keys(d) == t.Names()
    requires m <= |t.fields| && i < |t.fields|
    ensures FillFrom(t, d, scores, m)[i].1 == if i < m then d[i].1 else WeightedSum(t, t.fields[i].weights, scores)
    decreases |t.fields| - m
  {
    FillFromKeys(t, d, scores, m);
    if m < |t.fields| {
      var name := t.fields[m].name;
      var total := WeightedSum(t, t.fields[m].weights, scores);
      var f: real -> real := _ => total;
      var u := Update(d, name, f);
      assert FillFrom(t, d, scores, m) == FillFrom(t, u, scores, m + 1);
      UpdateKeys(d, name, f);
      UpdateAt(d, name, f, i);
      if i == m {
        assert d[i].0 == name by { assert Keys(d)[i] == t.Names()[i]; }
      } else {
        assert d[i].0 != name by {
          assert Keys(d)[i] == t.Names()[i];
          assert t.Names()[i] != t.Names()[m];
        }
      }
      FillFromAt(t, u, scores, m + 1, i);
    }
  }

  /** Step 1 yields every catalog field, in declaration order, with its
      weighted sum. */
  lemma BaseScoresAt(t: Tables, scores: SubjectScores, i: nat)
    requires t.Valid()
    requires i < |t.fields|
    ensures Keys(BaseScores(t, scores)) == t.Names()
    ensures BaseScores(t, scores)[i].1 == WeightedSum(t, t.fields[i].weights, scores)
  {
    FillFromKeys(t, InitialScores(t), scores, 0);
    FillFromAt(t, InitialScores(t), scores, 0, i);
  }

  /** Step 2 multiplies an entry by the bonus once per time the interests
      favour its field, skipping bonus entries that are no keys. */
  lemma ApplyInterestsAt(t: Tables, s: FieldScores, prefs: seq<string>, i: nat)
    requires i < |s|
    ensures ApplyInterests(t, s, prefs)[i].0 == s[i].0
    ensures ApplyInterests(t, s, prefs)[i].1 == Iterate(Times(InterestBonus), s[i].1, BonusCount(t, prefs, s[i].0))
  {
    UpdateGroupsAt(s, InterestGroups(t, prefs), Times(InterestBonus), i);
  }

  /** Step 3 fails exactly on "Rendah" or "Tinggi" with a math-sensitive
      field missing from the dictionary. */
  lemma ApplyComfortFails(t: Tables, s: FieldScores, comfort: string)
    ensures ApplyComfort(t, s, comfort).None? <==>
              (comfort == "Rendah" || comfort == "Tinggi") &&
              exists j :: 0 <= j < |t.mathSensitive| && !HasKey(s, t.mathSensitive[j])
  {
    UpdateEachSome(s, t.mathSensitive, Times(LowComfortFactor));
    UpdateEachSome(s, t.mathSensitive, Times(HighComfortFactor));
  }

  /** When step 3 succeeds it scales an entry once per listing of its field
      among the math-sensitive ones. */
  lemma ApplyComfortAt(t: Tables, s: FieldScores, comfort: string, i: nat)
    requires i < |s|
    ensures ApplyComfort(t, s, comfort).Some? ==> ApplyComfort(t, s, comfort).value[i].0 == s[i].0
    ensures ApplyComfort(t, s, comfort).Some? ==>
              ApplyComfort(t, s, comfort).value[i].1 == ComfortStep(t, comfort, s[i].0, s[i].1)
  {
    UpdateEachAt(s, t.mathSensitive, Times(LowComfortFactor), i);
    UpdateEachAt(s, t.mathSensitive, Times(HighComfortFactor), i);
  }

  /** With each math-sensitive field listed once, step 3 multiplies a value
      by its comfort factor. */
  lemma ComfortStepFactor(t: Tables, comfort: string, name: string, x: real)
    requires NoDup(t.mathSensitive)
    ensures ComfortStep(t, comfort, name, x) == x * ComfortFactor(t, comfort, name)
  {
    CountNoDup(name, t.mathSensitive);
    IterateTimes(LowComfortFactor, x, Count(name, t.mathSensitive));
    IterateTimes(HighComfortFactor, x, Count(name, t.mathSensitive));
  }

  /** After steps 1 and 2 the keys are still the catalog fields. */
  lemma BoostedKeys(t: Tables, scores: SubjectScores, prefs: seq<string>)
    ensures Keys(ApplyInterests(t, BaseScores(t, scores), prefs)) == t.Names()
  {
    var base := BaseScores(t, scores);
    FillFromKeys(t, InitialScores(t), scores, 0);
    forall i | 0 <= i < |t.fields| ensures Keys(ApplyInterests(t, base, prefs))[i] == t.Names()[i] {
      ApplyInterestsAt(t, base, prefs, i);
    }
  }

  /** Step 3 on a dictionary keyed by a valid catalog succeeds and keeps the
      keys. */
  lemma ComfortKeys(t: Tables, s: FieldScores, comfort: string)
    requires t.Valid()
    requires Keys(s) == t.Names()
    ensures ApplyComfort(t, s, comfort).Some?
    ensures Keys(ApplyComfort(t, s, comfort).value) == t.Names()
  {
    ApplyComfortFails(t, s, comfort);
    forall i | 0 <= i < |t.fields| ensures Keys(ApplyComfort(t, s, comfort).value)[i] == t.Names()[i] {
      ApplyComfortAt(t, s, comfort, i);
    }
  }

  /** On valid tables the engine never raises, and its keys are exactly the
      catalog fields in declaration order, whatever the scores, interests and
      comfort label. */
  lemma RunKeys(t: Tables, scores: SubjectScores, prefs: seq<string>, comfort: string)
    requires t.Valid()
    ensures Run(t, scores, prefs, comfort).Some?
    ensures Keys(Run(t, scores, prefs, comfort).value) == t.Names()
  {
    BoostedKeys(t, scores, prefs);
    ComfortKeys(t, ApplyInterests(t, BaseScores(t, scores), prefs), comfort);
  }

  /** After steps 1 and 2 a field holds its weighted sum with the bonus
      applied once per time the interests favour it. */
  lemma BoostedAt(t: Tables, scores: SubjectScores, prefs: seq<string>, i: nat)
    requires t.Valid()
    requires i < |t.fields|
    ensures ApplyInterests(t, BaseScores(t, scores), prefs)[i].0 == t.fields[i].name
    ensures ApplyInterests(t, BaseScores(t, scores), prefs)[i].1 ==
              Iterate(Times(InterestBonus), WeightedSum(t, t.fields[i].weights, scores), BonusCount(t, prefs, t.fields[i].name))
  {
    var base := BaseScores(t, scores);
    BaseScoresAt(t, scores, i);
    assert base[i].0 == t.fields[i].name by { assert Keys(base)[i] == t.Names()[i]; }
    ApplyInterestsAt(t, base, prefs, i);
  }

  /** On valid tables each field holds its reference score. */
  lemma RunAt(t: Tables, scores: SubjectScores, prefs: seq<string>, comfort: string, i: nat)
    requires t.Valid()
    requires i < |t.fields|
    ensures Run(t, scores, prefs, comfort).Some?
    ensures |Run(t, scores, prefs, comfort).value| == |t.fields|
    ensures Run(t, scores, prefs, comfort).value[i].1 == Expected(t, scores, prefs, comfort, t.fields[i])
  {
    var boosted := ApplyInterests(t, BaseScores(t, scores), prefs);
    var f := t.fields[i];
    RunKeys(t, scores, prefs, comfort);
    BoostedAt(t, scores, prefs, i);
    ApplyComfortAt(t, boosted, comfort, i);
    ScaleClosedForm(t, prefs, comfort, f.name, WeightedSum(t, f.weights, scores));
  }

  /** The score the engine gives the field at catalog index `i`. */
  function FieldScore(t: Tables, scores: SubjectScores, prefs: seq<string>, comfort: string, i: nat): real
    requires t.Valid()
    requires i < |t.fields|
  {
    RunKeys(t, scores, prefs, comfort);
    Run(t, scores, prefs, comfort).value[i].1
  }

  /** What the engine does to the weighted sum `x` of field `name`: the
      interest bonus once per listing of the field in the interests' groups,
      then the comfort step. */
  function Scale(t: Tables, prefs: seq<string>, comfort: string, name: string, x: real): real
  {
    ComfortStep(t, comfort, name, Iterate(Times(InterestBonus), x, BonusCount(t, prefs, name)))
  }

  /** Step by step, the engine multiplies a field's weighted sum by 1.08 to
      the number of its bonus listings and by its comfort factor. */
  lemma ScaleClosedForm(t: Tables, prefs: seq<string>, comfort: string, name: string, x: real)
    requires NoDup(t.mathSensitive)
    ensures Scale(t, prefs, comfort, name, x) == x * Pow(InterestBonus, BonusCount(t, prefs, name)) * ComfortFactor(t, comfort, name)
  {
    var n := BonusCount(t, prefs, name);
    IterateTimes(InterestBonus, x, n);
    ComfortStepFactor(t, comfort, name, Iterate(Times(InterestBonus), x, n));
  }

  /** The engine scores each field by scaling its weighted sum. */
  lemma FieldScoreSteps(t: Tables, scores: SubjectScores, prefs: seq<string>, comfort: string, i: nat)
    requires t.Valid()
    requires i < |t.fields|
    ensures FieldScore(t, scores, prefs, comfort, i) ==
              Scale(t, prefs, comfort, t.fields[i].name, WeightedSum(t, t.fields[i].weights, scores))
  {
    RunKeys(t, scores, prefs, comfort);
    BoostedAt(t, scores, prefs, i);
    ApplyComfortAt(t, ApplyInterests(t, BaseScores(t, scores), prefs), comfort, i);
  }

  // ---------------------------------------------------------------------------
  // The program's engine
  // ---------------------------------------------------------------------------

  /** `skor_bidang_dari_map(nilai, preferensi, toleransi_mtk)` with the
      program's tables: it never raises, and its keys are exactly the 18
      catalog fields in declaration order, none dropped even at score 0. */
  function Score(scores: SubjectScores, prefs: seq<string>, comfort: string): (r: FieldScores)
    ensures Keys(r) == Program.Names()
  {
    ProgramValid();
    RunKeys(Program, scores, prefs, comfort);
    Run(Program, scores, prefs, comfort).value
  }

  /** Each field of the program's catalog holds its reference score. */
  lemma ScoreAt(scores: SubjectScores, prefs: seq<string>, comfort: string, i: nat)
    requires i < |Fields|
    ensures Score(scores, prefs, comfort)[i].1 == Expected(Program, scores, prefs, comfort, Fields[i])
  {
    ProgramValid();
    RunAt(Program, scores, prefs, comfort, i);
  }
}
