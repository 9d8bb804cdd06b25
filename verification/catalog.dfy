/** The static knowledge tables of the scoring engine: the field catalog with
    its subject weights, the subject-label aliases, the interest-bonus groups
    and the math-sensitive fields. All of them are fixed constants. */
module Catalog {
  import opened Dict

  /** One candidate field of study and its subject-weight table. Subjects
      absent from the table weigh nothing. */
  datatype Field = Field(name: string, weights: Dict<string, nat>)

  /** The catalog, in declaration order (the order ties are broken in). */
  const Fields: seq<Field> := [
    Field("Kedokteran", [("Biologi", 3), ("Kimia", 2), ("B. Inggris", 1)]),
    Field("Farmasi", [("Kimia", 3), ("Biologi", 2), ("Matematika", 1)]),
    Field("Keperawatan", [("Biologi", 2), ("B. Indonesia", 1), ("B. Inggris", 1)]),
    Field("Teknik Informatika / Ilmu Komputer", [("Matematika", 3), ("TIK", 3), ("Fisika", 1), ("B. Inggris", 1)]),
    Field("Data Science / AI", [("Matematika", 3), ("TIK", 3), ("B. Inggris", 1)]),
    Field("Teknik Sipil", [("Matematika", 2), ("Fisika", 2), ("Geografi", 1)]),
    Field("Teknik Lingkungan / HSE", [("Kimia", 2), ("Biologi", 1), ("Geografi", 2), ("Fisika", 1)]),
    Field("Teknik Industri", [("Matematika", 2), ("Fisika", 2), ("B. Inggris", 1)]),
    Field("Arsitektur", [("Matematika", 2), ("Fisika", 1), ("B. Indonesia", 1)]),
    Field("Perencanaan Wilayah & Kota", [("Geografi", 3), ("Matematika", 1), ("Sejarah", 1)]),
    Field("Manajemen/Marketing", [("Ekonomi", 2), ("B. Indonesia", 1), ("B. Inggris", 1)]),
    Field("Akuntansi/Keuangan", [("Akuntansi", 3), ("Matematika", 2), ("Ekonomi", 2)]),
    Field("Hukum", [("B. Indonesia", 2), ("Sejarah", 2), ("Sosiologi", 1)]),
    Field("Psikologi", [("Biologi", 1), ("Sosiologi", 2), ("Matematika", 1)]),
    Field("Ilmu Komunikasi", [("B. Indonesia", 2), ("B. Inggris", 1), ("Sejarah", 1)]),
    Field("HI (Hubungan Internasional)", [("B. Inggris", 2), ("Sejarah", 2), ("Sosiologi", 1)]),
    Field("Sastra/Filologi", [("B. Indonesia", 2), ("B. Inggris", 2)]),
    // The creative field is deliberately left almost unweighted.
    Field("DKV/Desain", [("B. Indonesia", 1)])
  ]

  /** The subject-label alias table; every label maps to itself. */
  const SubjectAlias: map<string, string> := map[
    "Matematika" := "Matematika",
    "Fisika" := "Fisika",
    "Kimia" := "Kimia",
    "Biologi" := "Biologi",
    "TIK" := "TIK",
    "Ekonomi" := "Ekonomi",
    "Akuntansi" := "Akuntansi",
    "Geografi" := "Geografi",
    "Sosiologi" := "Sosiologi",
    "Sejarah" := "Sejarah",
    "B. Indonesia" := "B. Indonesia",
    "B. Inggris" := "B. Inggris"
  ]

  /** The interest-bonus groups: interest tag to the fields it favours. */
  const BonusGroups: map<string, seq<string>> := map[
    "Kesehatan" := ["Kedokteran", "Farmasi", "Keperawatan"],
    "Sains" := ["Farmasi", "Psikologi", "Data Science / AI"],
    "Teknologi" := ["Teknik Informatika / Ilmu Komputer", "Data Science / AI", "Teknik Industri"],
    "Bisnis/Manajemen" := ["Manajemen/Marketing", "Akuntansi/Keuangan"],
    "Sosial/Humaniora" := ["Hukum", "HI (Hubungan Internasional)", "Ilmu Komunikasi", "Sastra/Filologi", "Psikologi"],
    "Seni/Desain" := ["DKV/Desain", "Arsitektur"],
    // The second entry is not a catalog name, so it never takes effect.
    "Lingkungan" := ["Teknik Lingkungan / HSE", "PWK (Perencanaan Wilayah & Kota)"],
    "Hukum/Pemerintahan" := ["Hukum", "HI (Hubungan Internasional)"],
    "Komunikasi/Media" := ["Ilmu Komunikasi", "DKV/Desain"]
  ]

  /** The fields whose score depends on the student's comfort with mathematics. */
  const MathSensitive: seq<string> := [
    "Teknik Informatika / Ilmu Komputer", "Data Science / AI", "Teknik Sipil",
    "Teknik Industri", "Arsitektur", "Akuntansi/Keuangan"
  ]

  /** The four tables the engine reads: the field catalog in declaration
      order, the subject-label aliases, the interest-bonus groups and the
      math-sensitive fields. The engine is stated over any tables; `Program`
      holds the program's own. */
  datatype Tables = Tables(
    fields: seq<Field>,
    alias: map<string, string>,
    bonus: map<string, seq<string>>,
    mathSensitive: seq<string>)
  {
    /** The catalog's field names in declaration order. */
    function Names(): (ns: seq<string>)
      ensures |ns| == |fields|
      ensures forall i :: 0 <= i < |fields| ==> ns[i] == fields[i].name
    {
      seq(|fields|, i requires 0 <= i < |fields| => fields[i].name)
    }

    /** `mapel_alias.get(m, m)`: the label a weight-table subject is looked
        up under in the student's scores. */
    function Alias(m: string): (a: string)
      ensures m !in alias ==> a == m
      ensures m in alias ==> a == alias[m]
    {
      if m in alias then alias[m] else m
    }

    /** `preferensi_bonus.get(p, [])`: the fields interest tag `p` favours;
        an unknown tag favours none. */
    function BonusGroup(p: string): (g: seq<string>)
      ensures p !in bonus ==> g == []
      ensures p in bonus ==> g == bonus[p]
    {
      if p in bonus then bonus[p] else []
    }

    /** Field names are unique, and every math-sensitive field is named once
        and is a catalog field, so the unguarded comfort loop always finds
        the entry it scales. */
    predicate Valid()
    {
      && NoDup(Names())
      && NoDup(mathSensitive)
      && forall j :: 0 <= j < |mathSensitive| ==> mathSensitive[j] in Names()
    }
  }

  /** The program's tables. */
  const Program: Tables := Tables(Fields, SubjectAlias, BonusGroups, MathSensitive)

  /** The catalog's field names, in declaration order. They repeat the names
      in `Fields` as one flat literal, so that `ProgramNames` can pin the
      order of the names cheaply; `ProgramNames` proves the two agree. */
  const FieldNames: seq<string> := [
    "Kedokteran", "Farmasi", "Keperawatan", "Teknik Informatika / Ilmu Komputer",
    "Data Science / AI", "Teknik Sipil", "Teknik Lingkungan / HSE", "Teknik Industri",
    "Arsitektur", "Perencanaan Wilayah & Kota", "Manajemen/Marketing", "Akuntansi/Keuangan",
    "Hukum", "Psikologi", "Ilmu Komunikasi", "HI (Hubungan Internasional)",
    "Sastra/Filologi", "DKV/Desain"]

  /** The program's tables name the catalog's fields. */
  lemma ProgramNames()
    ensures Program.Names() == FieldNames
  {
  }

  /** The catalog's field names are unique. */
  lemma FieldNamesDistinct()
    ensures NoDup(FieldNames)
  {
  }

  /** The program's field names are unique. */
  lemma ProgramNamesDistinct()
    ensures NoDup(Program.Names())
  {
    ProgramNames();
    FieldNamesDistinct();
  }

  /** The program lists every math-sensitive field once, and each is a
      catalog field. */
  lemma ProgramMathSensitiveListed()
    ensures NoDup(Program.mathSensitive)
    ensures forall j :: 0 <= j < |Program.mathSensitive| ==> Program.mathSensitive[j] in Program.Names()
  {
    var ns := Program.Names();
    assert ns[3] == MathSensitive[0];
    assert ns[4] == MathSensitive[1];
    assert ns[5] == MathSensitive[2];
    assert ns[7] == MathSensitive[3];
    assert ns[8] == MathSensitive[4];
    assert ns[11] == MathSensitive[5];
  }

  /** The program's tables are valid. */
  lemma ProgramValid()
    ensures Program.Valid()
  {
    ProgramNamesDistinct();
    ProgramMathSensitiveListed();
  }

  /** Every subject label is its own alias, so a weight-table subject is
      looked up under its own name. */
  lemma AliasIsIdentity(m: string)
    ensures Program.Alias(m) == m
  {
  }

  /** The environment group spells the urban-planning field
      "PWK (Perencanaan Wilayah & Kota)", which is not a catalog name; the
      catalog's own "Perencanaan Wilayah & Kota" is in no bonus group. */
  lemma UrbanPlanningHasNoBonus()
    ensures "PWK (Perencanaan Wilayah & Kota)" in Program.BonusGroup("Lingkungan")
    ensures "PWK (Perencanaan Wilayah & Kota)" !in Program.Names()
    ensures Program.Names()[9] == "Perencanaan Wilayah & Kota"
    ensures forall p :: "Perencanaan Wilayah & Kota" !in Program.BonusGroup(p)
  {
  }
}
