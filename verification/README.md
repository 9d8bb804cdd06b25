# Rule-based field recommendation of the academic advisor

The academic advisor (`ai_penasihat_akademik.py`) is a chat assistant for
Indonesian senior-high-school students. Before it asks a language model for
advice, it ranks 18 university fields with a small rule-based engine. This
project models that engine and the text it hands to the model.

- **Scoring** (`skor_bidang_dari_map`). Each field has a weight table over
  school subjects. A field starts at the weighted sum of the student's
  subject scores, and a subject the student did not enter counts as 0.
  Every interest the student picks multiplies the fields of its bonus group
  by 1.08. The bonus compounds: a field listed by two chosen interests gets
  1.08². An interest with no bonus group changes nothing. A group entry that
  is not a catalog field is skipped. Finally the comfort label "Rendah"
  (low) scales the six math-sensitive fields by 0.87. "Tinggi" (high)
  scales them by 1.06. Any other label leaves them unchanged.
- **Ranking**. The field scores are sorted in descending order by Python's
  stable sort, in catalog order, and the first five names are kept.
- **Profile summary** (`buat_ringkasan_profil`). This is a newline-joined
  list of lines:
  - an optional name line;
  - the grade;
  - learning styles and interests, each shown as "-" when empty;
  - the comfort label;
  - the subject scores, as "subject score/10" in the score map's order.

The model is split into modules:
- `Dict`: insertion-ordered dictionaries as association lists;
- `Catalog`: the program's tables;
- `Scoring`: the engine step by step, plus `Expected`, its closed-form reference definition;
- `Properties`: properties of the engine;
- `Ranking`: the stable sort and the top five;
- `Summary`: the summary and its parser;
- `Scenario`: a worked example.

Scores are exact reals. 1.08, 0.87 and 1.06 are 27/25, 87/100 and 53/50.

## Model

| member | source | states |
|---|---|---|
| Catalog.ProgramNames | ai_penasihat_akademik.py:330-349 | the catalog holds exactly the 18 fields, in declaration order |
| Catalog.ProgramValid | ai_penasihat_akademik.py:330-349 | field names are distinct and each of the six math-sensitive fields is a catalog field listed once |
| Catalog.AliasIsIdentity | ai_penasihat_akademik.py:353-366 | the subject alias table maps every subject to itself, and an unlisted label is kept as is |
| Catalog.UrbanPlanningHasNoBonus | ai_penasihat_akademik.py:385 | the environment interest names "PWK (Perencanaan Wilayah & Kota)", which is not a catalog field; the catalog's "Perencanaan Wilayah & Kota" is in no bonus group |
| Scoring.Score | ai_penasihat_akademik.py:321-403 | the engine never fails on the program's tables; its keys are exactly the 18 catalog fields in catalog order, including those that score 0 |
| Scoring.BaseScoresAt | ai_penasihat_akademik.py:351-375 | after the first loop every field holds the weighted sum of its subjects, with a missing subject counting as 0 |
| Scoring.ApplyInterestsAt | ai_penasihat_akademik.py:390-393 | the bonus loop keeps each key and multiplies its value by 1.08 once per listing of that field in the chosen interests' groups |
| Scoring.ApplyComfortFails | ai_penasihat_akademik.py:395-401 | the comfort step raises a missing-key error exactly when the label is "Rendah" or "Tinggi" and a math-sensitive field is missing from the dictionary |
| Scoring.ApplyComfortAt | ai_penasihat_akademik.py:395-401 | when the comfort step succeeds, it keeps each key and scales the value once per listing as math-sensitive, by 0.87 for "Rendah" and 1.06 for "Tinggi" |
| Scoring.RunKeys | ai_penasihat_akademik.py:351-403 | on valid tables the engine never raises, and its keys are the catalog's fields |
| Scoring.RunAt | ai_penasihat_akademik.py:368-401 | each field's score equals the closed form: weighted sum × 1.08^(number of bonus listings) × comfort factor |
| Scoring.ScoreAt | ai_penasihat_akademik.py:321-403 | on the program's tables each of the 18 fields scores its weighted sum × 1.08^(number of bonus listings) × comfort factor |
| Scoring.ScaleClosedForm | ai_penasihat_akademik.py:390-401 | the bonus and comfort steps multiply a weighted sum by 1.08 to the number of its listings and then by its comfort factor |
| Properties.ScoreNonNegative | ai_penasihat_akademik.py:368-401 | non-negative subject scores give non-negative field scores |
| Properties.ScoreZero | ai_penasihat_akademik.py:368-401 | all-zero subject scores give a zero for every field, whatever the interests and comfort |
| Properties.ScorePut | ai_penasihat_akademik.py:368-375 | setting subject k to v changes field i by the field's weight for k times (v − old value), scaled by that field's bonus and comfort factors; an absent subject counts as old value 0 |
| Properties.ScoreAbsent | ai_penasihat_akademik.py:373 | entering a missing subject as 0 changes no field's score, since `nilai.get(nm, 0)` reads an absent subject as 0 |
| Properties.ScoreMonotone | ai_penasihat_akademik.py:368-401 | raising one subject score never lowers any field, and strictly raises every field whose weights include that subject |
| Properties.ScoreAddInterest | ai_penasihat_akademik.py:390-393 | adding an interest multiplies each field by 1.08 once per listing of the field in that interest's group; fields it does not list are unchanged |
| Properties.ScoreUnknownInterest | ai_penasihat_akademik.py:391 | an interest without a bonus group leaves every score unchanged |
| Properties.ScoreLawOnce | ai_penasihat_akademik.py:383-393 | an interest whose group lists "Hukum" once multiplies Hukum's score by exactly 1.08 |
| Properties.ScoreLawCompounds | ai_penasihat_akademik.py:383-393 | choosing both "Sosial/Humaniora" and "Hukum/Pemerintahan" multiplies Hukum's score by 1.08² = 729/625 |
| Properties.ScoreUrbanPlanningNoBonus | ai_penasihat_akademik.py:385-393 | "Perencanaan Wilayah & Kota" scores the same under any interests as under none |
| Properties.ScoreComfortLow | ai_penasihat_akademik.py:396-398 | relative to "Sedang", "Rendah" multiplies exactly the six math-sensitive fields by 0.87 and leaves the other twelve unchanged |
| Properties.ScoreComfortHigh | ai_penasihat_akademik.py:399-401 | relative to "Sedang", "Tinggi" multiplies exactly the six math-sensitive fields by 1.06 and leaves the other twelve unchanged |
| Properties.ScoreComfortOther | ai_penasihat_akademik.py:395-401 | any label other than "Rendah" and "Tinggi" gives the same scores as "Sedang" |
| Ranking.SortDesc | ai_penasihat_akademik.py:553 | the stable descending sort returns as many entries as it is given; the four lemmas below state that its output is a sorted, order-keeping permutation and the only one |
| Ranking.SortDescPermutes | ai_penasihat_akademik.py:553 | the descending sort is a permutation of the field scores |
| Ranking.SortDescSorted | ai_penasihat_akademik.py:553 | the sorted list's scores are non-increasing |
| Ranking.SortDescStable | ai_penasihat_akademik.py:553 | for every score value, the entries with that score keep their input (catalog) order |
| Ranking.SortDescUnique | ai_penasihat_akademik.py:553 | any non-increasing list that keeps every score value's entries in input order is exactly the stable sort's output |
| Ranking.SortDescBands | ai_penasihat_akademik.py:553 | when every score is one of a decreasing list of values, the sort is the concatenation of the entries at each value, in input order |
| Ranking.Top | ai_penasihat_akademik.py:553-554 | `urut[:5]`: the first min(5, n) entries of the sort, in non-increasing score order |
| Ranking.TopBeatsRest | ai_penasihat_akademik.py:553-554 | every kept entry is one of the scores, and it scores at least as high as every entry left out |
| Ranking.TopTies | ai_penasihat_akademik.py:553-554 | among kept entries with equal scores, the order is a prefix of their catalog order |
| Ranking.Recommend | ai_penasihat_akademik.py:552-554 | the recommendation holds exactly five distinct catalog field names |
| Ranking.RecommendBest | ai_penasihat_akademik.py:552-554 | recommended names appear in non-increasing score order, and each scores at least as high as every field left out |
| Summary.JoinSplit | ai_penasihat_akademik.py:417 | splitting a newline join of newline-free lines gives the lines back |
| Summary.JoinOrDashIsDash | ai_penasihat_akademik.py:411-412 | a list shows as "-" exactly when it is empty (or is the single item "-") |
| Summary.IntToStringRoundTrip | ai_penasihat_akademik.py:415 | a subject score printed in decimal parses back to itself, negative values included |
| Summary.ScoreItemRoundTrip | ai_penasihat_akademik.py:415 | "k v/10" parses back to the pair (k, v) |
| Summary.ScoreItemsInOrder | ai_penasihat_akademik.py:415 | the i-th item built for the score line, before the items are joined, reads back as the i-th entry of the score map |
| Summary.ScoreLineRoundTrip | ai_penasihat_akademik.py:414-416 | the score line "Skor Mapel: " + items joined with ", " reads back as the whole score map, entries in map order, when no subject name holds a comma |
| Summary.Summary | ai_penasihat_akademik.py:406-417 | the summary starts with "Nama: name", or with "Kelas: grade" when no name is given, and ends with the score line |
| Summary.SummaryLines | ai_penasihat_akademik.py:406-416 | the summary has six lines when a name is given and five otherwise |
| Summary.SummaryRoundTrip | ai_penasihat_akademik.py:406-417 | splitting the summary at newlines gives back its lines, six or five of them, provided no profile text contains a newline |
| Summary.SummaryScores | ai_penasihat_akademik.py:406-417 | the summary text's last line reads back as the student's score map, in map order, when no profile text holds a newline and no subject name holds a comma |
| Summary.SummaryFirstLine | ai_penasihat_akademik.py:408-410 | the first line is "Nama: name" when a name is given, and "Kelas: grade" otherwise |
| Scenario.SampleScores | ai_penasihat_akademik.py:330-375 | with Matematika 10 and TIK 10, no interests and "Sedang", each field scores ten times its Matematika plus TIK weight |
| Scenario.SampleTie | ai_penasihat_akademik.py:334-335 | in that example informatics and data science both score 60 |
| Scenario.SampleRecommend | ai_penasihat_akademik.py:552-554 | that example recommends informatics, data science, civil engineering, industrial engineering and architecture, in that order; accounting, also at 20, is cut by the catalog-order tie |
| Scenario.SampleLowComfort | ai_penasihat_akademik.py:396-398 | with "Rendah" both tied fields drop to 52.2 |

## Left out

- The Streamlit user interface, session state, file upload and document text extraction are left out: they are I/O.
- The language-model chat, embeddings and retrieval chain are left out: they are calls into external services.
- The prompt strings the ranking and summary are pasted into are left out: they are only string formatting around the modelled values.
- The sliders that limit subject scores to 0–10 are not modelled. Scores are unbounded integers, and every property holds for them, or for the non-negative ones where it says so.
- Floating-point rounding is left out. The multipliers are exact rationals, so two fields that tie exactly here could differ in the last bit under IEEE doubles and be ordered differently.
- Properties.ScoreAddInterest: states the per-field factor as "multiply by 1.08, repeated Count times" (`Iterate`) instead of as a power; `Scoring.ScaleClosedForm` gives the power form.
- Summary.SummaryRoundTrip: assumes that no name, grade, label, list item or subject name contains a newline. Otherwise the summary splits into more lines than it was built from.
- Scenario.SampleScores: the example leaves the other ten subjects absent rather than entering 0 for them. Properties.ScoreAbsent shows that an absent subject and a subject at 0 give the same scores.
- Summary.ScoreLineRoundTrip: assumes no subject name contains a comma. Otherwise the ", "-joined items cannot be told apart. The program's twelve subject names contain none.
- Summary.SummaryScores: assumes no newline in any profile text, as for SummaryRoundTrip, and no comma in a subject name, as for ScoreLineRoundTrip.
