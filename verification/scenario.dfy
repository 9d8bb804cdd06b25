/** A worked example: a student with 10 in mathematics and in ICT, no score
    in any other subject (which counts as 0), no interests and the neutral
    comfort label "Sedang". Informatics and data science tie at 60, and
    informatics ranks first because the catalog lists it first. */
module Scenario {
  import opened Dict
  import opened Catalog
  import opened Scoring
  import opened Properties
  import opened Ranking

  /** The example's subject scores. */
  const Sample: SubjectScores := [("Matematika", 10), ("TIK", 10)]

  /** The total weight a table gives subject `k`. */
  function Weight(w: Dict<string, nat>, k: string): nat
  {
    if |w| == 0 then 0 else (if w[0].0 == k then w[0].1 else 0) + Weight(w[1..], k)
  }

  lemma SampleGet(k: string)
    ensures Get(Sample, k, 0) == if k == "Matematika" || k == "TIK" then 10 else 0
  {
  }

  /** Against the example's scores, a weight table sums to ten times its
      mathematics and ICT weights. */
  lemma {:induction false} SampleSum(w: Dict<string, nat>)
    ensures WeightedSum(Program, w, Sample) == (10 * (Weight(w, "Matematika") + Weight(w, "TIK"))) as real
  {
    if |w| > 0 {
      SampleSum(w[1..]);
      AliasIsIdentity(w[0].0);
      SampleGet(w[0].0);
    }
  }

  /** Each catalog field's mathematics plus ICT weight. */
  const MathAndIct: seq<nat> := [0, 1, 0, 6, 6, 2, 0, 2, 2, 1, 0, 2, 0, 1, 0, 0, 0, 0]

  predicate MathAndIctAt(i: nat)
    requires i < |Fields|
  {
    Weight(Fields[i].weights, "Matematika") + Weight(Fields[i].weights, "TIK") == MathAndIct[i]
  }

  lemma MathAndIct0() ensures forall i :: 0 <= i < 3 ==> MathAndIctAt(i) {}
  lemma MathAndIct3() ensures forall i :: 3 <= i < 6 ==> MathAndIctAt(i) {}
  lemma MathAndIct6() ensures forall i :: 6 <= i < 9 ==> MathAndIctAt(i) {}
  lemma MathAndIct9() ensures forall i :: 9 <= i < 12 ==> MathAndIctAt(i) {}
  lemma MathAndIct12() ensures forall i :: 12 <= i < 15 ==> MathAndIctAt(i) {}
  lemma MathAndIct15() ensures forall i :: 15 <= i < 18 ==> MathAndIctAt(i) {}

  lemma MathAndIctAll(i: nat)
    requires i < |Fields|
    ensures MathAndIctAt(i)
  {
    MathAndIct0(); MathAndIct3(); MathAndIct6();
    MathAndIct9(); MathAndIct12(); MathAndIct15();
  }

  /** No interests and the neutral label leave a weighted sum as it is. */
  lemma ScaleNeutral(t: Tables, name: string, x: real)
    ensures Scale(t, [], "Sedang", name, x) == x
  {
    assert InterestGroups(t, []) == [];
  }

  lemma SampleValueAt(i: nat)
    requires i < |Fields|
    ensures Score(Sample, [], "Sedang")[i].1 == (10 * MathAndIct[i]) as real
  {
    ScoreIsFieldScore(Sample, [], "Sedang", i);
    FieldScoreSteps(Program, Sample, [], "Sedang", i);
    ScaleNeutral(Program, Fields[i].name, WeightedSum(Program, Fields[i].weights, Sample));
    SampleSum(Fields[i].weights);
    MathAndIctAll(i);
  }

  /** With no interests and a neutral comfort label, each field scores ten
      times its mathematics and ICT weight. */
  lemma SampleScoreAt(i: nat)
    requires i < |Fields|
    ensures Score(Sample, [], "Sedang")[i] == (FieldNames[i], (10 * MathAndIct[i]) as real)
  {
    SampleValueAt(i);
    ProgramNames();
    assert Keys(Score(Sample, [], "Sedang"))[i] == FieldNames[i];
  }

  // ---------------------------------------------------------------------------
  // The example's scores and ranking
  // ---------------------------------------------------------------------------

  const SampleHead: FieldScores := [
    ("Kedokteran", 0.0), ("Farmasi", 10.0), ("Keperawatan", 0.0),
    ("Teknik Informatika / Ilmu Komputer", 60.0), ("Data Science / AI", 60.0), ("Teknik Sipil", 20.0)]
  const SampleMiddle: FieldScores := [
    ("Teknik Lingkungan / HSE", 0.0), ("Teknik Industri", 20.0), ("Arsitektur", 20.0),
    ("Perencanaan Wilayah & Kota", 10.0), ("Manajemen/Marketing", 0.0), ("Akuntansi/Keuangan", 20.0)]
  const SampleTail: FieldScores := [
    ("Hukum", 0.0), ("Psikologi", 10.0), ("Ilmu Komunikasi", 0.0),
    ("HI (Hubungan Internasional)", 0.0), ("Sastra/Filologi", 0.0), ("DKV/Desain", 0.0)]

  predicate SampleEntry(s: FieldScores, offset: nat, i: nat)
    requires i < |s| && offset + i < |Fields|
  {
    s[i] == (FieldNames[offset + i], (10 * MathAndIct[offset + i]) as real)
  }

  lemma SampleHeadEntries() ensures forall i :: 0 <= i < 6 ==> SampleEntry(SampleHead, 0, i) {}
  lemma SampleMiddleEntries() ensures forall i :: 0 <= i < 6 ==> SampleEntry(SampleMiddle, 6, i) {}
  lemma SampleTailEntries() ensures forall i :: 0 <= i < 6 ==> SampleEntry(SampleTail, 12, i) {}

  /** The example's field scores, in catalog order. */
  lemma SampleScores()
    ensures Score(Sample, [], "Sedang") == SampleHead + SampleMiddle + SampleTail
  {
    var s := Score(Sample, [], "Sedang");
    var e := SampleHead + SampleMiddle + SampleTail;
    SampleHeadEntries();
    SampleMiddleEntries();
    SampleTailEntries();
    forall i | 0 <= i < 18 ensures s[i] == e[i] {
      SampleScoreAt(i);
      if i < 6 {
        assert SampleEntry(SampleHead, 0, i);
      } else if i < 12 {
        assert SampleEntry(SampleMiddle, 6, i - 6);
      } else {
        assert SampleEntry(SampleTail, 12, i - 12);
      }
    }
  }

  /** The score values the example takes, highest first. */
  const SampleValues: seq<real> := [60.0, 20.0, 10.0, 0.0]

  lemma SampleValuesListed()
    ensures Decreasing(SampleValues)
    ensures forall i :: 0 <= i < |SampleHead + SampleMiddle + SampleTail| ==>
              (SampleHead + SampleMiddle + SampleTail)[i].1 in SampleValues
  {
    var e := SampleHead + SampleMiddle + SampleTail;
    forall i | 0 <= i < |e| ensures e[i].1 in SampleValues {
      if i < 6 {
        assert e[i] == SampleHead[i];
      } else if i < 12 {
        assert e[i] == SampleMiddle[i - 6];
      } else {
        assert e[i] == SampleTail[i - 12];
      }
    }
  }

  lemma SampleTop60()
    ensures Filter(SampleHead, 60.0) == [("Teknik Informatika / Ilmu Komputer", 60.0), ("Data Science / AI", 60.0)]
    ensures Filter(SampleMiddle, 60.0) == [] && Filter(SampleTail, 60.0) == []
  {
  }

  lemma SampleTop20()
    ensures Filter(SampleHead, 20.0) == [("Teknik Sipil", 20.0)]
    ensures Filter(SampleTail, 20.0) == []
  {
  }

  lemma SampleMiddle20()
    ensures Filter(SampleMiddle, 20.0) == [("Teknik Industri", 20.0), ("Arsitektur", 20.0), ("Akuntansi/Keuangan", 20.0)]
  {
  }

  lemma SampleFilter60()
    ensures Filter(SampleHead + SampleMiddle + SampleTail, 60.0) ==
      [("Teknik Informatika / Ilmu Komputer", 60.0), ("Data Science / AI", 60.0)]
  {
    FilterAppend(SampleHead, SampleMiddle, 60.0);
    FilterAppend(SampleHead + SampleMiddle, SampleTail, 60.0);
    SampleTop60();
  }

  lemma SampleFilter20()
    ensures Filter(SampleHead + SampleMiddle + SampleTail, 20.0) ==
      [("Teknik Sipil", 20.0), ("Teknik Industri", 20.0), ("Arsitektur", 20.0), ("Akuntansi/Keuangan", 20.0)]
  {
    FilterAppend(SampleHead, SampleMiddle, 20.0);
    FilterAppend(SampleHead + SampleMiddle, SampleTail, 20.0);
    SampleTop20();
    SampleMiddle20();
  }

  /** The example sorted: the 60-point band, then the 20-point band, then the
      rest. */
  lemma SampleSorted()
    ensures SortDesc(SampleHead + SampleMiddle + SampleTail) ==
      Filter(SampleHead + SampleMiddle + SampleTail, 60.0) +
      (Filter(SampleHead + SampleMiddle + SampleTail, 20.0) + Bands(SampleHead + SampleMiddle + SampleTail, [10.0, 0.0]))
  {
    SampleValuesListed();
    SortDescBands(SampleHead + SampleMiddle + SampleTail, SampleValues);
    assert SampleValues[1..] == [20.0, 10.0, 0.0];
    assert SampleValues[1..][1..] == [10.0, 0.0];
  }

  /** The example's top five: the two 60-point fields in catalog order, then
      the first three of the four 20-point fields. */
  lemma SampleTop()
    ensures Top(SampleHead + SampleMiddle + SampleTail) ==
      [ ("Teknik Informatika / Ilmu Komputer", 60.0), ("Data Science / AI", 60.0),
        ("Teknik Sipil", 20.0), ("Teknik Industri", 20.0), ("Arsitektur", 20.0) ]
  {
    SampleSorted();
    SampleFilter60();
    SampleFilter20();
  }

  /** Informatics and data science tie at 60 points. */
  lemma SampleTie()
    ensures Score(Sample, [], "Sedang")[3] == ("Teknik Informatika / Ilmu Komputer", 60.0)
    ensures Score(Sample, [], "Sedang")[4] == ("Data Science / AI", 60.0)
  {
    SampleScores();
    assert (SampleHead + SampleMiddle + SampleTail)[3] == SampleHead[3];
    assert (SampleHead + SampleMiddle + SampleTail)[4] == SampleHead[4];
  }

  lemma TopNames(s: FieldScores)
    requires Top(s) ==
      [ ("Teknik Informatika / Ilmu Komputer", 60.0), ("Data Science / AI", 60.0),
        ("Teknik Sipil", 20.0), ("Teknik Industri", 20.0), ("Arsitektur", 20.0) ]
    ensures Keys(Top(s)) ==
      ["Teknik Informatika / Ilmu Komputer", "Data Science / AI", "Teknik Sipil", "Teknik Industri", "Arsitektur"]
  {
  }

  /** The example's recommendation: informatics first, ahead of the data
      science field it ties with, then civil engineering, industrial
      engineering and architecture; accounting, also at 20 points, is cut. */
  lemma SampleRecommend()
    ensures Recommend(Sample, [], "Sedang") ==
      ["Teknik Informatika / Ilmu Komputer", "Data Science / AI", "Teknik Sipil", "Teknik Industri", "Arsitektur"]
  {
    SampleScores();
    SampleTop();
    TopNames(Score(Sample, [], "Sedang"));
  }

  lemma TiedFieldsMathSensitive()
    ensures FieldNames[3] == MathSensitive[0] && FieldNames[4] == MathSensitive[1]
  {
  }

  lemma TiedFieldsSensitive(i: nat)
    requires i == 3 || i == 4
    ensures Program.fields[i].name in Program.mathSensitive
  {
    ProgramNames();
    TiedFieldsMathSensitive();
    assert Program.Names()[i] == Program.fields[i].name;
    assert Program.mathSensitive[i - 3] in Program.mathSensitive;
  }

  lemma LowComfortAt(scores: SubjectScores, prefs: seq<string>, i: nat)
    requires i == 3 || i == 4
    ensures Score(scores, prefs, "Rendah")[i].1 == Score(scores, prefs, "Sedang")[i].1 * LowComfortFactor
  {
    ScoreIsFieldScore(scores, prefs, "Rendah", i);
    ScoreIsFieldScore(scores, prefs, "Sedang", i);
    TiedFieldsSensitive(i);
    FieldScoreLow(Program, scores, prefs, i);
  }

  /** Under low comfort with mathematics both tied fields drop to 52.2. */
  lemma SampleLowComfort()
    ensures Score(Sample, [], "Rendah")[3].1 == 52.2
    ensures Score(Sample, [], "Rendah")[4].1 == 52.2
  {
    SampleTie();
    LowComfortAt(Sample, [], 3);
    LowComfortAt(Sample, [], 4);
  }
}
