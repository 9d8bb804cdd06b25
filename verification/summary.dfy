/** The profile summary handed to the advisor prompt: one line per profile
    item, joined with newlines. The student's name line appears only when a
    name was given, empty learning-style or interest lists show as "-", and
    the subject scores are listed as "<subject> <score>/10" in the order of
    the score map. */
module Summary {
  import opened Dict
  import opened Scoring

  /** The student's profile as the form collects it. */
  datatype Profile = Profile(
    name: string,
    grade: string,
    styles: seq<string>,
    interests: seq<string>,
    comfort: string,
    scores: SubjectScores)

  // ---------------------------------------------------------------------------
  // Joining and splitting
  // ---------------------------------------------------------------------------

  /** `sep.join(items)`. */
  function Join(sep: string, items: seq<string>): string
  {
    if |items| == 0 then ""
    else if |items| == 1 then items[0]
    else items[0] + sep + Join(sep, items[1..])
  }

  /** `s.split(sep)`: the pieces between the non-overlapping occurrences of
      `sep`, found left to right; a string shorter than `sep` is one piece.
      Python refuses an empty separator. */
  function Split(s: string, sep: string): (parts: seq<string>)
    requires |sep| > 0
    ensures |parts| >= 1
    decreases |s|
  {
    if |s| < |sep| then [s]
    else if s[..|sep|] == sep then [""] + Split(s[|sep|..], sep)
    else var r := Split(s[1..], sep); [[s[0]] + r[0]] + r[1..]
  }

  /** A string without the separator's first character is one piece. */
  lemma {:induction false} SplitNone(a: string, sep: string)
    requires |sep| > 0 && sep[0] !in a
    ensures Split(a, sep) == [a]
    decreases |a|
  {
    if |a| >= |sep| {
      assert a[..|sep|][0] == a[0];
      assert sep[0] !in a[1..] by {
        forall j | 0 <= j < |a[1..]| ensures a[1..][j] != sep[0] {
          assert a[1..][j] == a[j + 1];
        }
      }
      SplitNone(a[1..], sep);
      assert [a[0]] + a[1..] == a;
    }
  }

  /** The first piece ends at the first separator. */
  lemma {:induction false} SplitFirst(a: string, b: string, sep: string)
    requires |sep| > 0 && sep[0] !in a
    ensures Split(a + sep + b, sep) == [a] + Split(b, sep)
    decreases |a|
  {
    var s := a + sep + b;
    if |a| == 0 {
      assert s == sep + b;
      assert s[..|sep|] == sep;
      assert s[|sep|..] == b;
    } else {
      assert s[..|sep|][0] == a[0];
      assert sep[0] !in a[1..] by {
        forall j | 0 <= j < |a[1..]| ensures a[1..][j] != sep[0] {
          assert a[1..][j] == a[j + 1];
        }
      }
      SplitFirst(a[1..], b, sep);
      assert s[1..] == a[1..] + sep + b;
      assert [a[0]] + a[1..] == a;
    }
  }

  /** Splitting undoes joining when no item holds the separator's first
      character. */
  lemma {:induction false} JoinSplit(items: seq<string>, sep: string)
    requires |items| > 0 && |sep| > 0
    requires forall i :: 0 <= i < |items| ==> sep[0] !in items[i]
    ensures Split(Join(sep, items), sep) == items
  {
    if |items| == 1 {
      SplitNone(items[0], sep);
    } else {
      JoinSplit(items[1..], sep);
      SplitFirst(items[0], Join(sep, items[1..]), sep);
      assert [items[0]] + items[1..] == items;
    }
  }

  /** Joining items without `c` with a separator without `c` gives no `c`. */
  lemma {:induction false} JoinAvoids(sep: string, items: seq<string>, c: char)
    requires c !in sep
    requires forall i :: 0 <= i < |items| ==> c !in items[i]
    ensures c !in Join(sep, items)
  {
    if |items| > 1 {
      JoinAvoids(sep, items[1..], c);
    }
  }

  /** A join starts with its first item and ends with its last. */
  lemma {:induction false} JoinEnds(sep: string, items: seq<string>)
    requires |items| > 0
    ensures items[0] <= Join(sep, items)
    ensures var j, l := Join(sep, items), items[|items| - 1]; |l| <= |j| && j[|j| - |l|..] == l
  {
    if |items| > 1 {
      JoinEnds(sep, items[1..]);
      var rest := Join(sep, items[1..]);
      var j := items[0] + sep + rest;
      var l := items[|items| - 1];
      assert items[1..][|items[1..]| - 1] == l;
      assert j[..|items[0]|] == items[0];
      assert j[|j| - |l|..] == rest[|rest| - |l|..];
    }
  }

  /** `', '.join(items) if items else '-'`. */
  function JoinOrDash(items: seq<string>): string
  {
    if |items| == 0 then "-" else Join(", ", items)
  }

  /** The dash stands for an empty list, or for a list whose one item is
      itself a dash. */
  lemma JoinOrDashIsDash(items: seq<string>)
    ensures JoinOrDash(items) == "-" <==> items == [] || items == ["-"]
  {
    if |items| >= 2 {
      assert |Join(", ", items)| >= 2;
    }
    if |items| == 1 {
      assert JoinOrDash(items) == items[0];
      assert items == [items[0]];
    }
  }

  // ---------------------------------------------------------------------------
  // Integers as text
  // ---------------------------------------------------------------------------

  /** The decimal digit for `d`. */
  function Digit(d: nat): char
    requires d < 10
  {
    ('0' as int + d) as char
  }

  /** The value of a decimal digit character; other characters count as 0. */
  function DigitValue(c: char): nat
  {
    if '0' <= c <= '9' then c as int - '0' as int else 0
  }

  /** The decimal text of `n`, without sign or leading zeros. */
  function NatToString(n: nat): (s: string)
    ensures |s| > 0
    ensures forall i :: 0 <= i < |s| ==> '0' <= s[i] <= '9'
  {
    if n < 10 then [Digit(n)] else NatToString(n / 10) + [Digit(n % 10)]
  }

  /** The value of a string of decimal digits. */
  function ParseNat(s: string): nat
  {
    if |s| == 0 then 0 else ParseNat(s[..|s| - 1]) * 10 + DigitValue(s[|s| - 1])
  }

  lemma {:induction false} ParseNatToString(n: nat)
    ensures ParseNat(NatToString(n)) == n
  {
    if n >= 10 {
      var s := NatToString(n);
      ParseNatToString(n / 10);
      assert s[..|s| - 1] == NatToString(n / 10);
    }
  }

  /** `f"{v}"` for an integer: an optional minus sign and decimal digits. */
  function IntToString(v: int): (s: string)
    ensures forall i :: 0 <= i < |s| ==> s[i] == '-' || '0' <= s[i] <= '9'
  {
    if v < 0 then "-" + NatToString(-v) else NatToString(v)
  }

  /** The value of an optionally signed decimal string. */
  function ParseInt(s: string): int
  {
    if |s| > 0 && s[0] == '-' then -(ParseNat(s[1..]) as int) else ParseNat(s)
  }

  /** Reading an integer's text gives the integer back. */
  lemma IntToStringRoundTrip(v: int)
    ensures ParseInt(IntToString(v)) == v
  {
    if v < 0 {
      ParseNatToString(-v);
      assert ("-" + NatToString(-v))[1..] == NatToString(-v);
    } else {
      ParseNatToString(v);
    }
  }

  // ---------------------------------------------------------------------------
  // Subject-score items
  // ---------------------------------------------------------------------------

  /** `f"{k} {v}/10"`. */
  function ScoreItem(k: string, v: int): string
  {
    k + " " + IntToString(v) + "/10"
  }

  /** The index of the last space in `s`, if any. */
  function LastSpace(s: string): (r: Option<nat>)
    ensures r.None? ==> forall j :: 0 <= j < |s| ==> s[j] != ' '
    ensures r.Some? ==> r.value < |s| && s[r.value] == ' '
    ensures r.Some? ==> forall j :: r.value < j < |s| ==> s[j] != ' '
  {
    if |s| == 0 then None
    else if s[|s| - 1] == ' ' then Some(|s| - 1)
    else LastSpace(s[..|s| - 1])
  }

  /** Reads a "<subject> <score>/10" item back; the subject is everything
      before the last space, so subjects may contain spaces. */
  function ParseScoreItem(s: string): Option<(string, int)>
  {
    if |s| < 3 || s[|s| - 3..] != "/10" then None
    else
      var body := s[..|s| - 3];
      match LastSpace(body)
      case None => None
      case Some(i) => Some((body[..i], ParseInt(body[i + 1..])))
  }

  /** The last space of "<subject> <digits>" is the one after the subject. */
  lemma {:induction false} LastSpaceAfter(k: string, digits: string)
    requires ' ' !in digits
    ensures LastSpace(k + " " + digits) == Some(|k|)
    decreases |digits|
  {
    var body := k + " " + digits;
    if |digits| > 0 {
      var front := digits[..|digits| - 1];
      assert body[|body| - 1] == digits[|digits| - 1];
      assert body[..|body| - 1] == k + " " + front;
      assert ' ' !in front by {
        forall j | 0 <= j < |front| ensures front[j] != ' ' {
          assert front[j] == digits[j];
        }
      }
      LastSpaceAfter(k, front);
    }
  }

  /** Every item reads back as the subject and score it was made from. */
  lemma ScoreItemRoundTrip(k: string, v: int)
    ensures ParseScoreItem(ScoreItem(k, v)) == Some((k, v))
  {
    var digits := IntToString(v);
    var body := k + " " + digits;
    var s := body + "/10";
    assert s[|s| - 3..] == "/10";
    assert s[..|s| - 3] == body;
    LastSpaceAfter(k, digits);
    assert body[..|k|] == k;
    assert body[|k| + 1..] == digits;
    IntToStringRoundTrip(v);
  }

  /** The subject-score items, one per map entry, in map order. */
  function ScoreItems(scores: SubjectScores): (items: seq<string>)
    ensures |items| == |scores|
  {
    seq(|scores|, i requires 0 <= i < |scores| => ScoreItem(scores[i].0, scores[i].1))
  }

  /** The i-th item reads back as the i-th entry of the score map. */
  lemma ScoreItemsInOrder(scores: SubjectScores, i: nat)
    requires i < |scores|
    ensures ParseScoreItem(ScoreItems(scores)[i]) == Some(scores[i])
  {
    ScoreItemRoundTrip(scores[i].0, scores[i].1);
  }

  /** An item holds no character that is neither in its subject nor in the
      digits, the minus sign, the space and "/10". */
  lemma ScoreItemsAvoid(scores: SubjectScores, c: char)
    requires c != ' ' && c != '/' && c != '-' && !('0' <= c <= '9')
    requires forall i :: 0 <= i < |scores| ==> c !in scores[i].0
    ensures forall i :: 0 <= i < |scores| ==> c !in ScoreItems(scores)[i]
  {
    forall i | 0 <= i < |scores| ensures c !in ScoreItems(scores)[i] {
      var k := scores[i].0;
      var digits := IntToString(scores[i].1);
      assert ScoreItems(scores)[i] == k + " " + digits + "/10";
      assert c !in digits;
    }
  }

  /** Reads items back into a score map, in order; fails when an item does
      not read. */
  function ParseScoreItems(items: seq<string>): Option<SubjectScores>
  {
    if |items| == 0 then Some([])
    else
      var e, rest := ParseScoreItem(items[0]), ParseScoreItems(items[1..]);
      if e.Some? && rest.Some? then Some([e.value] + rest.value) else None
  }

  /** Dropping the first entry drops the first item. */
  lemma ScoreItemsTail(scores: SubjectScores)
    requires |scores| > 0
    ensures ScoreItems(scores)[1..] == ScoreItems(scores[1..])
  {
    forall j | 0 <= j < |scores| - 1 ensures ScoreItems(scores)[1..][j] == ScoreItems(scores[1..])[j] {
      assert scores[1..][j] == scores[j + 1];
    }
  }

  /** The items read back as the whole score map. */
  lemma {:induction false} ParseScoreItemsRoundTrip(scores: SubjectScores)
    ensures ParseScoreItems(ScoreItems(scores)) == Some(scores)
  {
    if |scores| > 0 {
      var items := ScoreItems(scores);
      assert items[0] == ScoreItem(scores[0].0, scores[0].1);
      ScoreItemRoundTrip(scores[0].0, scores[0].1);
      ScoreItemsTail(scores);
      ParseScoreItemsRoundTrip(scores[1..]);
      assert [scores[0]] + scores[1..] == scores;
    }
  }

  /** The label of the summary's score line. */
  const ScoreLabel: string := "Skor Mapel: "

  /** The summary's score line: the label, then the items joined with ", ". */
  function ScoreLine(scores: SubjectScores): string
  {
    ScoreLabel + Join(", ", ScoreItems(scores))
  }

  /** Reads a score line back into a score map: the label, then nothing or
      ", "-separated items. */
  function ParseScoreLine(line: string): Option<SubjectScores>
  {
    if |line| < |ScoreLabel| || line[..|ScoreLabel|] != ScoreLabel then None
    else if line[|ScoreLabel|..] == "" then Some([])
    else ParseScoreItems(Split(line[|ScoreLabel|..], ", "))
  }

  /** The score line reads back as the score map, entries in map order, when
      no subject name holds a comma. */
  lemma ScoreLineRoundTrip(scores: SubjectScores)
    requires forall i :: 0 <= i < |scores| ==> ',' !in scores[i].0
    ensures ParseScoreLine(ScoreLine(scores)) == Some(scores)
  {
    var line := ScoreLine(scores);
    var body := Join(", ", ScoreItems(scores));
    assert line[..|ScoreLabel|] == ScoreLabel;
    assert line[|ScoreLabel|..] == body;
    if |scores| > 0 {
      var items := ScoreItems(scores);
      assert |items[0]| > 0 by { assert items[0] == ScoreItem(scores[0].0, scores[0].1); }
      JoinEnds(", ", items);
      ScoreItemsAvoid(scores, ',');
      JoinSplit(items, ", ");
      ParseScoreItemsRoundTrip(scores);
    }
  }

  // ---------------------------------------------------------------------------
  // The summary
  // ---------------------------------------------------------------------------

  /** The lines every summary has, after the optional name line. */
  function ProfileLines(p: Profile): (lines: seq<string>)
    ensures |lines| == 5
  {
    [ "Kelas: " + p.grade,
      "Gaya belajar: " + JoinOrDash(p.styles),
      "Minat: " + JoinOrDash(p.interests),
      "Kenyamanan Matematika: " + p.comfort,
      ScoreLine(p.scores) ]
  }

  /** The summary's lines. */
  function SummaryLines(p: Profile): (lines: seq<string>)
    ensures |lines| == if p.name != "" then 6 else 5
  {
    (if p.name != "" then ["Nama: " + p.name] else []) + ProfileLines(p)
  }

  /** `buat_ringkasan_profil`: the lines joined with newlines. It opens with
      the name line, or the grade line when no name was given, and closes
      with the score line. */
  function Summary(p: Profile): (s: string)
    ensures (if p.name != "" then "Nama: " + p.name else "Kelas: " + p.grade) <= s
    ensures |ScoreLine(p.scores)| <= |s| && s[|s| - |ScoreLine(p.scores)|..] == ScoreLine(p.scores)
  {
    var lines := SummaryLines(p);
    JoinEnds("\n", lines);
    assert lines[|lines| - 1] == ProfileLines(p)[4];
    Join("\n", lines)
  }

  /** No text the student typed holds a newline. */
  predicate SingleLineFields(p: Profile)
  {
    && '\n' !in p.name && '\n' !in p.grade && '\n' !in p.comfort
    && (forall i :: 0 <= i < |p.styles| ==> '\n' !in p.styles[i])
    && (forall i :: 0 <= i < |p.interests| ==> '\n' !in p.interests[i])
    && (forall i :: 0 <= i < |p.scores| ==> '\n' !in p.scores[i].0)
  }

  lemma ConcatAvoids(a: string, b: string, c: char)
    requires c !in a && c !in b
    ensures c !in a + b
  {
  }

  lemma LabelsSingleLine()
    ensures '\n' !in "Nama: " && '\n' !in "Kelas: " && '\n' !in "Gaya belajar: "
    ensures '\n' !in "Minat: " && '\n' !in "Kenyamanan Matematika: " && '\n' !in ScoreLabel
    ensures '\n' !in ", "
  {
  }

  lemma ProfileLinesSingle(p: Profile)
    requires SingleLineFields(p)
    ensures forall i :: 0 <= i < 5 ==> '\n' !in ProfileLines(p)[i]
  {
    LabelsSingleLine();
    JoinAvoids(", ", p.styles, '\n');
    JoinAvoids(", ", p.interests, '\n');
    ScoreItemsAvoid(p.scores, '\n');
    JoinAvoids(", ", ScoreItems(p.scores), '\n');
    ConcatAvoids("Kelas: ", p.grade, '\n');
    ConcatAvoids("Gaya belajar: ", JoinOrDash(p.styles), '\n');
    ConcatAvoids("Minat: ", JoinOrDash(p.interests), '\n');
    ConcatAvoids("Kenyamanan Matematika: ", p.comfort, '\n');
    ConcatAvoids(ScoreLabel, Join(", ", ScoreItems(p.scores)), '\n');
  }

  /** Each summary line is a single line of text. */
  lemma SummaryLinesSingle(p: Profile)
    requires SingleLineFields(p)
    ensures forall i :: 0 <= i < |SummaryLines(p)| ==> '\n' !in SummaryLines(p)[i]
  {
    ProfileLinesSingle(p);
    LabelsSingleLine();
    ConcatAvoids("Nama: ", p.name, '\n');
  }

  /** The summary text splits back into its lines: six with a name, five
      without. */
  lemma SummaryRoundTrip(p: Profile)
    requires SingleLineFields(p)
    ensures Split(Summary(p), "\n") == SummaryLines(p)
    ensures |Split(Summary(p), "\n")| == if p.name != "" then 6 else 5
  {
    SummaryLinesSingle(p);
    JoinSplit(SummaryLines(p), "\n");
  }

  /** The first line names the student when a name was given and shows the
      grade otherwise. */
  lemma SummaryFirstLine(p: Profile)
    requires SingleLineFields(p)
    ensures p.name != "" ==> Split(Summary(p), "\n")[0] == "Nama: " + p.name
    ensures p.name == "" ==> Split(Summary(p), "\n")[0] == "Kelas: " + p.grade
  {
    SummaryRoundTrip(p);
  }

  /** The summary's last line reads back as the student's score map, entries
      in map order, when no subject name holds a comma. */
  lemma SummaryScores(p: Profile)
    requires SingleLineFields(p)
    requires forall i :: 0 <= i < |p.scores| ==> ',' !in p.scores[i].0
    ensures var lines := Split(Summary(p), "\n"); ParseScoreLine(lines[|lines| - 1]) == Some(p.scores)
  {
    SummaryRoundTrip(p);
    ScoreLineRoundTrip(p.scores);
    var lines := SummaryLines(p);
    assert lines[|lines| - 1] == ProfileLines(p)[4];
  }
}
