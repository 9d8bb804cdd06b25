/** What the scoring engine promises about its scores: how a field's score
    responds to the subject scores, to each interest and to the comfort
    label. Each property is proved for the engine's per-field scaling, then
    for the engine over any valid tables, then for the program's tables. */
module Properties {
  import opened Dict
  import opened Catalog
  import opened Scoring

  // ---------------------------------------------------------------------------
  // Weighted sums
  // ---------------------------------------------------------------------------

  /** The total weight a weight table gives subject `k`, through the aliases. */
  function SubjectWeight(t: Tables, weights: Dict<string, nat>, k: string): nat
  {
    if |weights| == 0 then 0
    else (if t.Alias(weights[0].0) == k then weights[0].1 else 0) + SubjectWeight(t, weights[1..], k)
  }

  lemma HeadPut(b: int, gNew: int, gOld: int, c: int, d: int)
    requires (c == b && gNew == gOld + d) || (c == 0 && gNew == gOld)
    ensures b * gNew == b * gOld + c * d
  {
  }

  lemma SplitWeight(w: int, c: int, r: int, d: int)
    requires w == c + r
    ensures w * d == c * d + r * d
  {
  }

  /** Setting subject `k` to `v` moves a weighted sum by the subject's weight
      times the change of its score; a subject the student had no score for
      starts from 0. */
  lemma {:induction false} WeightedSumPut(t: Tables, weights: Dict<string, nat>, scores: SubjectScores, k: string, v: int)
    ensures WeightedSum(t, weights, Put(scores, k, v)) ==
              WeightedSum(t, weights, scores) + (SubjectWeight(t, weights, k) * (v - Get(scores, k, 0))) as real
  {
    if |weights| > 0 {
      var a := t.Alias(weights[0].0);
      WeightedSumPut(t, weights[1..], scores, k, v);
      GetPut(scores, k, v, a, 0);
      HeadPut(weights[0].1, Get(Put(scores, k, v), a, 0), Get(scores, a, 0),
              if a == k then weights[0].1 else 0, v - Get(scores, k, 0));
      SplitWeight(SubjectWeight(t, weights, k), if a == k then weights[0].1 else 0,
                  SubjectWeight(t, weights[1..], k), v - Get(scores, k, 0));
    }
  }

  lemma ProductPositive(x: int, y: int)
    requires x > 0 && y > 0
    ensures x * y > 0
  {
  }

  lemma ProductNonNegative(x: int, y: int)
    requires x >= 0 && y >= 0
    ensures x * y >= 0
  {
  }

  /** Raising subject `k` never lowers a weighted sum, and strictly raises
      one that weighs `k`. */
  lemma WeightedSumRaise(t: Tables, weights: Dict<string, nat>, scores: SubjectScores, k: string, v: int)
    requires v >= Get(scores, k, 0)
    ensures WeightedSum(t, weights, Put(scores, k, v)) >= WeightedSum(t, weights, scores)
    ensures v > Get(scores, k, 0) && SubjectWeight(t, weights, k) > 0 ==>
              WeightedSum(t, weights, Put(scores, k, v)) > WeightedSum(t, weights, scores)
  {
    WeightedSumPut(t, weights, scores, k, v);
    if v > Get(scores, k, 0) && SubjectWeight(t, weights, k) > 0 {
      ProductPositive(SubjectWeight(t, weights, k), v - Get(scores, k, 0));
    } else {
      ProductNonNegative(SubjectWeight(t, weights, k), v - Get(scores, k, 0));
    }
  }

  /** Non-negative subject scores give a non-negative weighted sum. */
  lemma {:induction false} WeightedSumNonNegative(t: Tables, weights: Dict<string, nat>, scores: SubjectScores)
    requires forall j :: 0 <= j < |scores| ==> scores[j].1 >= 0
    ensures WeightedSum(t, weights, scores) >= 0.0
  {
    if |weights| > 0 {
      var g := Get(scores, t.Alias(weights[0].0), 0);
      assert g >= 0;
      ProductNonNegative(weights[0].1, g);
      WeightedSumNonNegative(t, weights[1..], scores);
    }
  }

  /** All-zero subject scores give a zero weighted sum. */
  lemma {:induction false} WeightedSumZero(t: Tables, weights: Dict<string, nat>, scores: SubjectScores)
    requires forall j :: 0 <= j < |scores| ==> scores[j].1 == 0
    ensures WeightedSum(t, weights, scores) == 0.0
  {
    if |weights| > 0 {
      assert Get(scores, t.Alias(weights[0].0), 0) == 0;
      WeightedSumZero(t, weights[1..], scores);
    }
  }

  // ---------------------------------------------------------------------------
  // The per-field scaling
  // ---------------------------------------------------------------------------

  /** The scaling is linear: a sum scales to the sum of the scaled parts. */
  lemma ScaleAdd(t: Tables, prefs: seq<string>, comfort: string, name: string, x: real, y: real, z: real)
    requires z == x + y
    ensures Scale(t, prefs, comfort, name, z) == Scale(t, prefs, comfort, name, x) + Scale(t, prefs, comfort, name, y)
  {
    var n := BonusCount(t, prefs, name);
    var m := Count(name, t.mathSensitive);
    var b1 := Iterate(Times(InterestBonus), x, n);
    var b2 := Iterate(Times(InterestBonus), y, n);
    var bz := Iterate(Times(InterestBonus), z, n);
    IterateTimesAdd(InterestBonus, x, y, z, n);
    IterateTimesAdd(LowComfortFactor, b1, b2, bz, m);
    IterateTimesAdd(HighComfortFactor, b1, b2, bz, m);
  }

  /** The scaling keeps order, strictly when its arguments differ. */
  lemma ScaleMonotone(t: Tables, prefs: seq<string>, comfort: string, name: string, x: real, y: real)
    requires x <= y
    ensures Scale(t, prefs, comfort, name, x) <= Scale(t, prefs, comfort, name, y)
    ensures x < y ==> Scale(t, prefs, comfort, name, x) < Scale(t, prefs, comfort, name, y)
  {
    var n := BonusCount(t, prefs, name);
    var m := Count(name, t.mathSensitive);
    var b1 := Iterate(Times(InterestBonus), x, n);
    var b2 := Iterate(Times(InterestBonus), y, n);
    IterateTimesMonotone(InterestBonus, x, y, n);
    IterateTimesMonotone(LowComfortFactor, b1, b2, m);
    IterateTimesMonotone(HighComfortFactor, b1, b2, m);
  }

  /** Zero scales to zero, and a non-negative value to a non-negative one. */
  lemma ScaleSign(t: Tables, prefs: seq<string>, comfort: string, name: string, x: real)
    ensures Scale(t, prefs, comfort, name, 0.0) == 0.0
    ensures x >= 0.0 ==> Scale(t, prefs, comfort, name, x) >= 0.0
  {
    ScaleAdd(t, prefs, comfort, name, 0.0, 0.0, 0.0);
    if x >= 0.0 {
      ScaleMonotone(t, prefs, comfort, name, 0.0, x);
    }
  }

  /** One more interest applies the bonus once more per listing of the field
      in that interest's group, on top of the scaled value. */
  lemma ScaleAddInterest(t: Tables, prefs: seq<string>, p: string, comfort: string, name: string, x: real)
    ensures Scale(t, prefs + [p], comfort, name, x) ==
              Iterate(Times(InterestBonus), Scale(t, prefs, comfort, name, x), Count(name, t.BonusGroup(p)))
  {
    var n := BonusCount(t, prefs, name);
    var k := Count(name, t.BonusGroup(p));
    var m := Count(name, t.mathSensitive);
    var y := Iterate(Times(InterestBonus), x, n);
    BonusCountAppend(t, prefs, p, name);
    IterateAdd(Times(InterestBonus), x, n, k);
    IterateTimesCommute(LowComfortFactor, InterestBonus, y, m, k);
    IterateTimesCommute(HighComfortFactor, InterestBonus, y, m, k);
  }

  /** One more interest adds that interest's group to the count. */
  lemma BonusCountAppend(t: Tables, prefs: seq<string>, p: string, name: string)
    ensures BonusCount(t, prefs + [p], name) == BonusCount(t, prefs, name) + Count(name, t.BonusGroup(p))
  {
    assert InterestGroups(t, prefs + [p]) == InterestGroups(t, prefs) + [t.BonusGroup(p)];
    GroupCountAppend(name, InterestGroups(t, prefs), t.BonusGroup(p));
  }

  /** The comfort label multiplies the scaled value by the field's comfort
      factor, relative to the neutral label "Sedang". */
  lemma ScaleComfort(t: Tables, prefs: seq<string>, comfort: string, name: string, x: real)
    requires NoDup(t.mathSensitive)
    ensures Scale(t, prefs, comfort, name, x) == Scale(t, prefs, "Sedang", name, x) * ComfortFactor(t, comfort, name)
  {
    ComfortStepFactor(t, comfort, name, Iterate(Times(InterestBonus), x, BonusCount(t, prefs, name)));
  }

  /** A field listed in no interest's group is scaled as if there were no
      interests at all. */
  lemma ScaleNoBonus(t: Tables, prefs: seq<string>, comfort: string, name: string, x: real)
    requires forall p :: name !in t.BonusGroup(p)
    ensures Scale(t, prefs, comfort, name, x) == Scale(t, [], comfort, name, x)
  {
    GroupCountAbsent(name, InterestGroups(t, prefs));
  }

  // ---------------------------------------------------------------------------
  // The engine's field scores, over any valid tables
  // ---------------------------------------------------------------------------

  lemma FieldScoreSign(t: Tables, scores: SubjectScores, prefs: seq<string>, comfort: string, i: nat)
    requires t.Valid() && i < |t.fields|
    ensures (forall j :: 0 <= j < |scores| ==> scores[j].1 >= 0) ==> FieldScore(t, scores, prefs, comfort, i) >= 0.0
    ensures (forall j :: 0 <= j < |scores| ==> scores[j].1 == 0) ==> FieldScore(t, scores, prefs, comfort, i) == 0.0
  {
    var f := t.fields[i];
    FieldScoreSteps(t, scores, prefs, comfort, i);
    ScaleSign(t, prefs, comfort, f.name, WeightedSum(t, f.weights, scores));
    if forall j :: 0 <= j < |scores| ==> scores[j].1 >= 0 {
      WeightedSumNonNegative(t, f.weights, scores);
    }
    if forall j :: 0 <= j < |scores| ==> scores[j].1 == 0 {
      WeightedSumZero(t, f.weights, scores);
    }
  }

  /** Shifting a field's weighted sum by `d` shifts its score by `d`, scaled. */
  lemma FieldScoreShift(t: Tables, scores: SubjectScores, scores': SubjectScores, prefs: seq<string>, comfort: string, i: nat, d: real)
    requires t.Valid() && i < |t.fields|
    requires WeightedSum(t, t.fields[i].weights, scores') == WeightedSum(t, t.fields[i].weights, scores) + d
    ensures FieldScore(t, scores', prefs, comfort, i) ==
              FieldScore(t, scores, prefs, comfort, i) + Scale(t, prefs, comfort, t.fields[i].name, d)
  {
    var f := t.fields[i];
    FieldScoreSteps(t, scores, prefs, comfort, i);
    FieldScoreSteps(t, scores', prefs, comfort, i);
    ScaleAdd(t, prefs, comfort, f.name, WeightedSum(t, f.weights, scores), d, WeightedSum(t, f.weights, scores'));
  }

  lemma FieldScorePut(t: Tables, scores: SubjectScores, prefs: seq<string>, comfort: string, k: string, v: int, i: nat)
    requires t.Valid() && i < |t.fields|
    ensures FieldScore(t, Put(scores, k, v), prefs, comfort, i) ==
              FieldScore(t, scores, prefs, comfort, i) +
              Scale(t, prefs, comfort, t.fields[i].name,
                    (SubjectWeight(t, t.fields[i].weights, k) * (v - Get(scores, k, 0))) as real)
  {
    WeightedSumPut(t, t.fields[i].weights, scores, k, v);
    FieldScoreShift(t, scores, Put(scores, k, v), prefs, comfort, i,
                    (SubjectWeight(t, t.fields[i].weights, k) * (v - Get(scores, k, 0))) as real);
  }

  lemma FieldScoreRaise(t: Tables, scores: SubjectScores, prefs: seq<string>, comfort: string, k: string, v: int, i: nat)
    requires t.Valid() && i < |t.fields|
    requires v >= Get(scores, k, 0)
    ensures FieldScore(t, Put(scores, k, v), prefs, comfort, i) >= FieldScore(t, scores, prefs, comfort, i)
    ensures v > Get(scores, k, 0) && SubjectWeight(t, t.fields[i].weights, k) > 0 ==>
              FieldScore(t, Put(scores, k, v), prefs, comfort, i) > FieldScore(t, scores, prefs, comfort, i)
  {
    var f := t.fields[i];
    FieldScoreSteps(t, scores, prefs, comfort, i);
    FieldScoreSteps(t, Put(scores, k, v), prefs, comfort, i);
    WeightedSumRaise(t, f.weights, scores, k, v);
    ScaleMonotone(t, prefs, comfort, f.name, WeightedSum(t, f.weights, scores), WeightedSum(t, f.weights, Put(scores, k, v)));
  }

  lemma FieldScoreAddInterest(t: Tables, scores: SubjectScores, prefs: seq<string>, p: string, comfort: string, i: nat)
    requires t.Valid() && i < |t.fields|
    ensures FieldScore(t, scores, prefs + [p], comfort, i) ==
              Iterate(Times(InterestBonus), FieldScore(t, scores, prefs, comfort, i), Count(t.fields[i].name, t.BonusGroup(p)))
  {
    var f := t.fields[i];
    FieldScoreSteps(t, scores, prefs, comfort, i);
    FieldScoreSteps(t, scores, prefs + [p], comfort, i);
    ScaleAddInterest(t, prefs, p, comfort, f.name, WeightedSum(t, f.weights, scores));
  }

  lemma FieldScoreComfort(t: Tables, scores: SubjectScores, prefs: seq<string>, comfort: string, i: nat)
    requires t.Valid() && i < |t.fields|
    ensures FieldScore(t, scores, prefs, comfort, i) ==
              FieldScore(t, scores, prefs, "Sedang", i) * ComfortFactor(t, comfort, t.fields[i].name)
  {
    var f := t.fields[i];
    FieldScoreSteps(t, scores, prefs, comfort, i);
    FieldScoreSteps(t, scores, prefs, "Sedang", i);
    ScaleComfort(t, prefs, comfort, f.name, WeightedSum(t, f.weights, scores));
  }

  /** A math-sensitive field's low-comfort score is its neutral score times
      the low-comfort factor. */
  lemma FieldScoreLow(t: Tables, scores: SubjectScores, prefs: seq<string>, i: nat)
    requires t.Valid() && i < |t.fields|
    requires t.fields[i].name in t.mathSensitive
    ensures FieldScore(t, scores, prefs, "Rendah", i) == FieldScore(t, scores, prefs, "Sedang", i) * LowComfortFactor
  {
    FieldScoreComfort(t, scores, prefs, "Rendah", i);
  }

  lemma FieldScoreNoBonus(t: Tables, scores: SubjectScores, prefs: seq<string>, comfort: string, i: nat)
    requires t.Valid() && i < |t.fields|
    requires forall p :: t.fields[i].name !in t.BonusGroup(p)
    ensures FieldScore(t, scores, prefs, comfort, i) == FieldScore(t, scores, [], comfort, i)
  {
    var f := t.fields[i];
    FieldScoreSteps(t, scores, prefs, comfort, i);
    FieldScoreSteps(t, scores, [], comfort, i);
    ScaleNoBonus(t, prefs, comfort, f.name, WeightedSum(t, f.weights, scores));
  }

  // ---------------------------------------------------------------------------
  // The program's scores
  // ---------------------------------------------------------------------------

  /** On the program's tables, `Score` holds the engine's field scores in
      catalog order. */
  lemma ScoreIsFieldScore(scores: SubjectScores, prefs: seq<string>, comfort: string, i: nat)
    requires i < |Fields|
    ensures Program.Valid() && Program.fields == Fields
    ensures Score(scores, prefs, comfort)[i].1 == FieldScore(Program, scores, prefs, comfort, i)
  {
    ProgramValid();
  }

  /** Non-negative subject scores give non-negative field scores, whatever
      the interests and comfort label. */
  lemma ScoreNonNegative(scores: SubjectScores, prefs: seq<string>, comfort: string)
    requires forall j :: 0 <= j < |scores| ==> scores[j].1 >= 0
    ensures forall i :: 0 <= i < |Fields| ==> Score(scores, prefs, comfort)[i].1 >= 0.0
  {
    forall i | 0 <= i < |Fields| ensures Score(scores, prefs, comfort)[i].1 >= 0.0 {
      ScoreIsFieldScore(scores, prefs, comfort, i);
      FieldScoreSign(Program, scores, prefs, comfort, i);
    }
  }

  /** All-zero subject scores give every field 0, whatever the interests and
      comfort label. */
  lemma ScoreZero(scores: SubjectScores, prefs: seq<string>, comfort: string)
    requires forall j :: 0 <= j < |scores| ==> scores[j].1 == 0
    ensures forall i :: 0 <= i < |Fields| ==> Score(scores, prefs, comfort)[i].1 == 0.0
  {
    forall i | 0 <= i < |Fields| ensures Score(scores, prefs, comfort)[i].1 == 0.0 {
      ScoreIsFieldScore(scores, prefs, comfort, i);
      FieldScoreSign(Program, scores, prefs, comfort, i);
    }
  }

  /** Setting subject `k` to `v` moves field `i` by the field's weight for the
      subject times the change, scaled like any weighted sum of the field. */
  lemma ScorePut(scores: SubjectScores, prefs: seq<string>, comfort: string, k: string, v: int, i: nat)
    requires i < |Fields|
    ensures Score(Put(scores, k, v), prefs, comfort)[i].1 ==
              Score(scores, prefs, comfort)[i].1 +
              Scale(Program, prefs, comfort, Fields[i].name,
                    (SubjectWeight(Program, Fields[i].weights, k) * (v - Get(scores, k, 0))) as real)
  {
    ScoreIsFieldScore(scores, prefs, comfort, i);
    ScoreIsFieldScore(Put(scores, k, v), prefs, comfort, i);
    FieldScorePut(Program, scores, prefs, comfort, k, v, i);
  }

  /** A subject left out scores as if it were entered as 0. */
  lemma FieldScoreAbsent(t: Tables, scores: SubjectScores, prefs: seq<string>, comfort: string, k: string, i: nat)
    requires t.Valid() && i < |t.fields|
    requires !HasKey(scores, k)
    ensures FieldScore(t, Put(scores, k, 0), prefs, comfort, i) == FieldScore(t, scores, prefs, comfort, i)
  {
    FieldScorePut(t, scores, prefs, comfort, k, 0, i);
    ScaleSign(t, prefs, comfort, t.fields[i].name, 0.0);
  }

  /** Entering a missing subject as 0 changes no field's score. */
  lemma ScoreAbsent(scores: SubjectScores, prefs: seq<string>, comfort: string, k: string)
    requires !HasKey(scores, k)
    ensures forall i :: 0 <= i < |Fields| ==>
              Score(Put(scores, k, 0), prefs, comfort)[i].1 == Score(scores, prefs, comfort)[i].1
  {
    forall i | 0 <= i < |Fields|
      ensures Score(Put(scores, k, 0), prefs, comfort)[i].1 == Score(scores, prefs, comfort)[i].1
    {
      ScoreIsFieldScore(scores, prefs, comfort, i);
      ScoreIsFieldScore(Put(scores, k, 0), prefs, comfort, i);
      FieldScoreAbsent(Program, scores, prefs, comfort, k, i);
    }
  }

  /** Raising one subject score never lowers a field's score, and strictly
      raises every field that weighs the subject. */
  lemma ScoreMonotone(scores: SubjectScores, prefs: seq<string>, comfort: string, k: string, v: int)
    requires v >= Get(scores, k, 0)
    ensures forall i :: 0 <= i < |Fields| ==>
              Score(Put(scores, k, v), prefs, comfort)[i].1 >= Score(scores, prefs, comfort)[i].1
    ensures forall i :: 0 <= i < |Fields| && v > Get(scores, k, 0) && SubjectWeight(Program, Fields[i].weights, k) > 0 ==>
              Score(Put(scores, k, v), prefs, comfort)[i].1 > Score(scores, prefs, comfort)[i].1
  {
    forall i | 0 <= i < |Fields|
      ensures Score(Put(scores, k, v), prefs, comfort)[i].1 >= Score(scores, prefs, comfort)[i].1
      ensures v > Get(scores, k, 0) && SubjectWeight(Program, Fields[i].weights, k) > 0 ==>
                Score(Put(scores, k, v), prefs, comfort)[i].1 > Score(scores, prefs, comfort)[i].1
    {
      ScoreIsFieldScore(scores, prefs, comfort, i);
      ScoreIsFieldScore(Put(scores, k, v), prefs, comfort, i);
      FieldScoreRaise(Program, scores, prefs, comfort, k, v, i);
    }
  }

  /** One more interest multiplies every field by 1.08 once per listing of
      the field in the interest's group; every other field is unchanged. */
  lemma ScoreAddInterest(scores: SubjectScores, prefs: seq<string>, p: string, comfort: string)
    ensures forall i :: 0 <= i < |Fields| ==>
              Score(scores, prefs + [p], comfort)[i].1 ==
              Iterate(Times(InterestBonus), Score(scores, prefs, comfort)[i].1, Count(Fields[i].name, Program.BonusGroup(p)))
  {
    forall i | 0 <= i < |Fields|
      ensures Score(scores, prefs + [p], comfort)[i].1 ==
              Iterate(Times(InterestBonus), Score(scores, prefs, comfort)[i].1, Count(Fields[i].name, Program.BonusGroup(p)))
    {
      ScoreIsFieldScore(scores, prefs, comfort, i);
      ScoreIsFieldScore(scores, prefs + [p], comfort, i);
      FieldScoreAddInterest(Program, scores, prefs, p, comfort, i);
    }
  }

  /** An interest tag with no bonus group changes nothing at all. */
  lemma ScoreUnknownInterest(scores: SubjectScores, prefs: seq<string>, p: string, comfort: string)
    requires p !in Program.bonus
    ensures Score(scores, prefs + [p], comfort) == Score(scores, prefs, comfort)
  {
    var r := Score(scores, prefs + [p], comfort);
    var s := Score(scores, prefs, comfort);
    ScoreAddInterest(scores, prefs, p, comfort);
    forall i | 0 <= i < |Fields| ensures r[i] == s[i] {
      assert Keys(r)[i] == Keys(s)[i];
      assert Count(Fields[i].name, Program.BonusGroup(p)) == 0;
    }
  }

  /** "Hukum" appears once in each of the social-sciences and law-and-
      government groups. */
  lemma LawListedOnce()
    ensures Fields[12].name == "Hukum"
    ensures Count("Hukum", Program.BonusGroup("Sosial/Humaniora")) == 1
    ensures Count("Hukum", Program.BonusGroup("Hukum/Pemerintahan")) == 1
  {
    var g1 := Program.BonusGroup("Sosial/Humaniora");
    var g2 := Program.BonusGroup("Hukum/Pemerintahan");
    assert g1 == ["Hukum", "HI (Hubungan Internasional)", "Ilmu Komunikasi", "Sastra/Filologi", "Psikologi"];
    assert g2 == ["Hukum", "HI (Hubungan Internasional)"];
    CountAbsent("Hukum", g1[1..]);
    CountAbsent("Hukum", g2[1..]);
  }

  /** An interest whose group lists Hukum once boosts Hukum by 1.08. */
  lemma ScoreLawOnce(scores: SubjectScores, prefs: seq<string>, p: string, comfort: string)
    requires Count("Hukum", Program.BonusGroup(p)) == 1
    ensures Score(scores, prefs + [p], comfort)[12].1 == Score(scores, prefs, comfort)[12].1 * InterestBonus
  {
    LawListedOnce();
    ScoreIsFieldScore(scores, prefs, comfort, 12);
    ScoreIsFieldScore(scores, prefs + [p], comfort, 12);
    FieldScoreAddInterest(Program, scores, prefs, p, comfort, 12);
  }

  /** Hukum is favoured by both the social-sciences and the law-and-
      government interests, so taking both compounds the bonus: 1.08 squared. */
  lemma ScoreLawCompounds(scores: SubjectScores, comfort: string)
    ensures Fields[12].name == "Hukum"
    ensures Score(scores, ["Sosial/Humaniora", "Hukum/Pemerintahan"], comfort)[12].1 ==
              Score(scores, [], comfort)[12].1 * (729.0 / 625.0)
  {
    var social := "Sosial/Humaniora";
    var law := "Hukum/Pemerintahan";
    LawListedOnce();
    assert [] + [social] == [social];
    assert [social] + [law] == [social, law];
    ScoreLawOnce(scores, [], social, comfort);
    ScoreLawOnce(scores, [social], law, comfort);
  }

  /** "Perencanaan Wilayah & Kota" never receives a bonus: the environment
      group names it "PWK (Perencanaan Wilayah & Kota)", which the
      `if bidang in skor` guard skips. */
  lemma ScoreUrbanPlanningNoBonus(scores: SubjectScores, prefs: seq<string>, comfort: string)
    ensures Fields[9].name == "Perencanaan Wilayah & Kota"
    ensures Score(scores, prefs, comfort)[9].1 == Score(scores, [], comfort)[9].1
  {
    UrbanPlanningHasNoBonus();
    ScoreIsFieldScore(scores, prefs, comfort, 9);
    ScoreIsFieldScore(scores, [], comfort, 9);
    FieldScoreNoBonus(Program, scores, prefs, comfort, 9);
  }

  /** "Rendah" multiplies exactly the math-sensitive fields by 0.87, relative
      to "Sedang". */
  lemma ScoreComfortLow(scores: SubjectScores, prefs: seq<string>)
    ensures forall i :: 0 <= i < |Fields| ==>
              Score(scores, prefs, "Rendah")[i].1 ==
              Score(scores, prefs, "Sedang")[i].1 * (if Fields[i].name in Program.mathSensitive then LowComfortFactor else 1.0)
  {
    forall i | 0 <= i < |Fields|
      ensures Score(scores, prefs, "Rendah")[i].1 ==
              Score(scores, prefs, "Sedang")[i].1 * (if Fields[i].name in Program.mathSensitive then LowComfortFactor else 1.0)
    {
      ScoreIsFieldScore(scores, prefs, "Rendah", i);
      ScoreIsFieldScore(scores, prefs, "Sedang", i);
      FieldScoreComfort(Program, scores, prefs, "Rendah", i);
    }
  }

  /** "Tinggi" multiplies exactly the math-sensitive fields by 1.06, relative
      to "Sedang". */
  lemma ScoreComfortHigh(scores: SubjectScores, prefs: seq<string>)
    ensures forall i :: 0 <= i < |Fields| ==>
              Score(scores, prefs, "Tinggi")[i].1 ==
              Score(scores, prefs, "Sedang")[i].1 * (if Fields[i].name in Program.mathSensitive then HighComfortFactor else 1.0)
  {
    forall i | 0 <= i < |Fields|
      ensures Score(scores, prefs, "Tinggi")[i].1 ==
              Score(scores, prefs, "Sedang")[i].1 * (if Fields[i].name in Program.mathSensitive then HighComfortFactor else 1.0)
    {
      ScoreIsFieldScore(scores, prefs, "Tinggi", i);
      ScoreIsFieldScore(scores, prefs, "Sedang", i);
      FieldScoreComfort(Program, scores, prefs, "Tinggi", i);
    }
  }

  /** Any label other than "Rendah" and "Tinggi" scores like "Sedang". */
  lemma ScoreComfortOther(scores: SubjectScores, prefs: seq<string>, comfort: string)
    requires comfort != "Rendah" && comfort != "Tinggi"
    ensures Score(scores, prefs, comfort) == Score(scores, prefs, "Sedang")
  {
    var r := Score(scores, prefs, comfort);
    var s := Score(scores, prefs, "Sedang");
    forall i | 0 <= i < |Fields| ensures r[i] == s[i] {
      assert Keys(r)[i] == Keys(s)[i];
      ScoreIsFieldScore(scores, prefs, comfort, i);
      ScoreIsFieldScore(scores, prefs, "Sedang", i);
      FieldScoreComfort(Program, scores, prefs, comfort, i);
    }
  }
}
