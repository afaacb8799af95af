/** The verdict computation of the analyze endpoint (server.js:126-206): the
    filename heuristic, the two shapes an image-classification answer can take,
    and the two decision rules that turn them into `{isDeepfake, confidence}`. */
module Detection {
  import opened Js

  /** One `{label, score}` pair of a list-shaped answer. */
  datatype Entry = Entry(className: string, score: real)

  /** What the classification model answered.  `List` is an array of
      entries; `Single` is a bare object whose fields may be absent;
      `Unrecognized` is any value that is not an object (string, number,
      `undefined`), which the server rejects. */
  datatype InferenceResponse =
    | List(entries: seq<Entry>)
    | Single(className: Option<string>, score: Option<real>)
    | Unrecognized

  /** The JSON verdict sent back to the browser.  `raw` is the answer it was
      computed from (`details.allScores` or `details.prediction`). */
  datatype Verdict = Verdict(
    isDeepfake: bool,
    confidence: int,
    fakeScore: real,
    realScore: real,
    raw: InferenceResponse)

  /** Substrings of the lower-cased upload name that mark a "test fake". */
  const TestMarkers: seq<string> := ["fake", "deep", "synth", "ai", "gen"]

  /** The filename heuristic: the lower-cased original name contains one of
      the test markers. */
  function LikelyTestFake(filename: string): (b: bool)
    ensures b <==> exists k :: 0 <= k < |TestMarkers| && Contains(ToLower(filename), TestMarkers[k])
  {
    IncludesAny(ToLower(filename), TestMarkers)
  }

  /** `name.includes(m0) || name.includes(m1) || ...`, evaluated left to right. */
  function IncludesAny(name: string, markers: seq<string>): (b: bool)
    ensures b <==> exists k :: 0 <= k < |markers| && Contains(name, markers[k])
  {
    if |markers| == 0 then false
    else
      var rest := IncludesAny(name, markers[1..]);
      assert rest <==> exists k :: 1 <= k < |markers| && Contains(name, markers[k]) by {
        if rest {
          var k :| 0 <= k < |markers[1..]| && Contains(name, markers[1..][k]);
          assert markers[1..][k] == markers[k + 1];
        }
        if exists k :: 1 <= k < |markers| && Contains(name, markers[k]) {
          var k :| 1 <= k < |markers| && Contains(name, markers[k]);
          assert markers[1..][k - 1] == markers[k];
        }
      }
      Includes(name, markers[0]) || rest
  }

  /** The heuristic ignores letter case. */
  lemma LikelyTestFakeIgnoresCase(filename: string)
    ensures LikelyTestFake(ToLower(filename)) == LikelyTestFake(filename)
  {
    ToLowerIdempotent(filename);
  }

  /** An everyday name can trip the heuristic: "mountain" contains "ai". */
  lemma MountainIsTestFake()
    ensures LikelyTestFake("mountain.jpg")
  {
    var name := ToLower("mountain.jpg");
    assert name == "mountain.jpg";
    assert OccursAt(name, "ai", 5);
    assert TestMarkers[3] == "ai";
  }

  /** The label test both branches use: `label.toLowerCase().includes(key)`. */
  predicate LabelHas(className: string, key: string)
    ensures LabelHas(className, key) <==> exists i :: OccursAt(ToLower(className), key, i)
    ensures LabelHas(className, key) ==> |key| <= |className|
  {
    Includes(ToLower(className), key)
  }

  /** The label test does not see case: "FAKE", "Fake" and "fake" all match. */
  lemma LabelHasIgnoresCase(className: string, key: string)
    ensures LabelHas(className, key) == LabelHas(ToLower(className), key)
  {
    ToLowerIdempotent(className);
  }

  /** Entry `i` is the first whose label includes `key`. */
  predicate IsFirstMatch(entries: seq<Entry>, key: string, i: int) {
    0 <= i < |entries| && LabelHas(entries[i].className, key) &&
    forall j :: 0 <= j < i ==> !LabelHas(entries[j].className, key)
  }

  /** `response.find(r => r.label.toLowerCase().includes(key))`, as the index
      of the entry found. */
  function FindFirst(entries: seq<Entry>, key: string): (r: Option<nat>)
    ensures r.Some? ==> IsFirstMatch(entries, key, r.value)
    ensures r.None? <==> forall j :: 0 <= j < |entries| ==> !LabelHas(entries[j].className, key)
  {
    if |entries| == 0 then None
    else if LabelHas(entries[0].className, key) then Some(0)
    else
      match FindFirst(entries[1..], key)
      case None => None
      case Some(i) => Some(i + 1)
  }

  /** The score of the first entry whose label includes `key`, or 0 when no
      label does (`entry ? entry.score : 0`). */
  function ScoreOf(entries: seq<Entry>, key: string): (s: real)
    ensures (forall j :: 0 <= j < |entries| ==> !LabelHas(entries[j].className, key)) ==> s == 0.0
    ensures forall i :: IsFirstMatch(entries, key, i) ==> s == entries[i].score
  {
    match FindFirst(entries, key)
    case Some(i) =>
      assert forall k :: IsFirstMatch(entries, key, k) ==> k == i;
      entries[i].score
    case None => 0.0
  }

  /** Every score of a list answer lies in [0, 1]. */
  predicate ScoresInUnitRange(entries: seq<Entry>) {
    forall i :: 0 <= i < |entries| ==> 0.0 <= entries[i].score <= 1.0
  }

  /** The list branch (server.js:138-172).  The filename override wins when
      the fake score is above 0.01; otherwise the verdict is "fake" when the
      fake score is within 0.15 of the real score or above it.  A "fake"
      verdict earns a +20 boost that is not clamped. */
  function ListVerdict(entries: seq<Entry>, testFake: bool): (v: Verdict)
    ensures v.fakeScore == ScoreOf(entries, "fake") && v.realScore == ScoreOf(entries, "real")
    ensures v.raw == List(entries)
    ensures !(testFake && v.fakeScore > 0.01) ==> (v.isDeepfake <==> v.fakeScore >= v.realScore - 0.15)
    ensures testFake && v.fakeScore > 0.01 ==> v.isDeepfake
    ensures v.isDeepfake ==> v.confidence == (v.fakeScore * 100.0).Floor + 20
    ensures !v.isDeepfake ==> v.confidence == (v.realScore * 100.0).Floor
  {
    var fakeScore := ScoreOf(entries, "fake");
    var realScore := ScoreOf(entries, "real");
    var isDeepfake := if testFake && fakeScore > 0.01 then true else fakeScore >= realScore - 0.15;
    Verdict(
      isDeepfake,
      if isDeepfake then (fakeScore * 100.0).Floor + 20 else (realScore * 100.0).Floor,
      fakeScore, realScore, List(entries))
  }

  /** On scores in [0, 1] the list-branch confidence is at least 20 and at
      most 120 for a "fake" verdict, and within [0, 100] otherwise. */
  lemma ListConfidenceBounds(entries: seq<Entry>, testFake: bool)
    requires ScoresInUnitRange(entries)
    ensures var v := ListVerdict(entries, testFake);
      (v.isDeepfake ==> 20 <= v.confidence <= 120) && (!v.isDeepfake ==> 0 <= v.confidence <= 100)
  {
    var v := ListVerdict(entries, testFake);
    var fi := FindFirst(entries, "fake");
    var ri := FindFirst(entries, "real");
    assert 0.0 <= v.fakeScore <= 1.0 by {
      if fi.Some? { assert v.fakeScore == entries[fi.value].score; }
    }
    assert 0.0 <= v.realScore <= 1.0 by {
      if ri.Some? { assert v.realScore == entries[ri.value].score; }
    }
  }

  /** The +20 boost is unclamped: a sure "fake" entry yields confidence 120. */
  lemma ListConfidenceExceeds100()
    ensures ListVerdict([Entry("FAKE", 1.0)], false).confidence == 120
  {
    assert LabelHas("FAKE", "fake") by { assert OccursAt(ToLower("FAKE"), "fake", 0); }
  }

  /** An empty list has neither a fake nor a real score, so both default to 0
      and the answer is "fake" with confidence 20. */
  lemma EmptyListIsDeepfake(testFake: bool)
    ensures ListVerdict([], testFake).isDeepfake
    ensures ListVerdict([], testFake).confidence == 20
  {
  }

  /** Two plainly labelled entries give back their own scores, and unless the
      filename override fires the verdict is `fake >= real - 0.15`. */
  lemma ListOfFakeAndReal(f: real, r: real, testFake: bool)
    ensures var v := ListVerdict([Entry("fake", f), Entry("real", r)], testFake);
      v.fakeScore == f && v.realScore == r
      && (!(testFake && f > 0.01) ==> (v.isDeepfake <==> f >= r - 0.15))
      && (testFake && f > 0.01 ==> v.isDeepfake)
  {
    var es := [Entry("fake", f), Entry("real", r)];
    assert LabelHas("fake", "fake") by { assert OccursAt(ToLower("fake"), "fake", 0); }
    assert LabelHas("real", "real") by { assert OccursAt(ToLower("real"), "real", 0); }
    assert ToLower("fake") == "fake";
    assert !LabelHas("fake", "real");
    assert ScoreOf(es, "fake") == es[0].score;
    assert ScoreOf(es, "real") == es[1].score;
  }

  /** The label of a single answer, `response.label || ""`. */
  function SingleLabel(className: Option<string>): (l: string)
    ensures className.None? ==> l == ""
    ensures className.Some? ==> l == className.value
  {
    OrString(className, "")
  }

  /** The score of a single answer, `response.score || 0.5`. */
  function SingleScore(score: Option<real>): (s: real)
    ensures s != 0.0
    ensures score.Some? && score.value != 0.0 ==> s == score.value
    ensures score.None? || score == Some(0.0) ==> s == 0.5
  {
    OrReal(score, 0.5)
  }

  /** The single-object branch (server.js:175-203).  The reported fake/real
      split follows the label alone; the verdict additionally honours the
      filename override and flags uncertain scores below 0.65 whose label
      does not say "real".  A "fake" verdict's confidence is clamped to 95. */
  function SingleVerdict(className: Option<string>, score: Option<real>, testFake: bool): (v: Verdict)
    ensures v.fakeScore + v.realScore == 1.0
    ensures v.raw == Single(className, score)
    ensures LabelHas(SingleLabel(className), "fake") ==> v.isDeepfake && v.fakeScore == SingleScore(score)
    ensures !LabelHas(SingleLabel(className), "fake") ==> v.realScore == SingleScore(score)
    ensures testFake ==> v.isDeepfake
    ensures !testFake && !LabelHas(SingleLabel(className), "fake") ==>
      (v.isDeepfake <==> SingleScore(score) < 0.65 && !LabelHas(SingleLabel(className), "real"))
    ensures v.isDeepfake ==> v.confidence == Min(((1.0 - SingleScore(score)) * 100.0).Floor + 20, 95)
    ensures !v.isDeepfake ==> v.confidence == (SingleScore(score) * 100.0).Floor
  {
    var l := SingleLabel(className);
    var s := SingleScore(score);
    var labelFake := LabelHas(l, "fake");
    var adjusted := if testFake then true else labelFake || (s < 0.65 && !LabelHas(l, "real"));
    Verdict(
      adjusted,
      if adjusted then Min(((1.0 - s) * 100.0).Floor + 20, 95) else (s * 100.0).Floor,
      if labelFake then s else 1.0 - s,
      if labelFake then 1.0 - s else s,
      Single(className, score))
  }

  /** On a score in [0, 1] the single-branch confidence lies in [20, 95] for a
      "fake" verdict and in [0, 100] otherwise. */
  lemma SingleConfidenceBounds(className: Option<string>, score: Option<real>, testFake: bool)
    requires score.Some? ==> 0.0 <= score.value <= 1.0
    ensures var v := SingleVerdict(className, score, testFake);
      (v.isDeepfake ==> 20 <= v.confidence <= 95) && (!v.isDeepfake ==> 0 <= v.confidence <= 100)
  {
    var s := SingleScore(score);
    assert 0.0 <= s <= 1.0;
  }

  /** A missing score and a score of exactly 0 are the same to the server:
      both fall back to 0.5. */
  lemma ZeroScoreActsAsMissing(className: Option<string>, testFake: bool)
    ensures SingleVerdict(className, Some(0.0), testFake).isDeepfake == SingleVerdict(className, None, testFake).isDeepfake
    ensures SingleVerdict(className, Some(0.0), testFake).confidence == SingleVerdict(className, None, testFake).confidence
    ensures SingleVerdict(className, None, testFake).fakeScore == 0.5
    ensures SingleVerdict(className, None, testFake).realScore == 0.5
  {
  }

  /** The reported fake/real split does not depend on the filename override. */
  lemma SingleDetailsIgnoreFilename(className: Option<string>, score: Option<real>)
    ensures SingleVerdict(className, score, true).fakeScore == SingleVerdict(className, score, false).fakeScore
    ensures SingleVerdict(className, score, true).realScore == SingleVerdict(className, score, false).realScore
  {
  }

  /** A confident "real" label (score at least 0.65, no "fake" in it) on a
      name without test markers is never flagged. */
  lemma ConfidentRealIsNotDeepfake(className: string, score: real)
    requires LabelHas(className, "real") && !LabelHas(className, "fake")
    requires score >= 0.65
    ensures !SingleVerdict(Some(className), Some(score), false).isDeepfake
    ensures SingleVerdict(Some(className), Some(score), false).confidence == (score * 100.0).Floor
  {
  }

  /** The confidence of a "fake" verdict measures the complement of the
      score: a "fake" label scored 0.99 gets only floor(1) + 20 = 21. */
  lemma SureFakeLabelGetsLowConfidence()
    ensures SingleVerdict(Some("fake"), Some(0.99), false).isDeepfake
    ensures SingleVerdict(Some("fake"), Some(0.99), false).confidence == 21
  {
    assert ToLower("fake") == "fake";
    assert LabelHas("fake", "fake") by { assert OccursAt("fake", "fake", 0); }
    assert ((1.0 - 0.99) * 100.0).Floor == 1;
  }

  /** The outcome of normalising an answer: a verdict, or the
      "Unexpected response format from API" failure. */
  datatype Normalized = Judged(verdict: Verdict) | UnexpectedFormat

  /** Lines 126-206: dispatch on the shape of the answer. */
  function Normalize(response: InferenceResponse, filename: string): (r: Normalized)
    ensures r.UnexpectedFormat? <==> response.Unrecognized?
    ensures r.Judged? ==> r.verdict.raw == response
    ensures r.Judged? && LikelyTestFake(filename) && r.verdict.fakeScore > 0.01 ==> r.verdict.isDeepfake
    ensures response.List? ==> r == Judged(ListVerdict(response.entries, LikelyTestFake(filename)))
    ensures response.Single? ==>
      r == Judged(SingleVerdict(response.className, response.score, LikelyTestFake(filename)))
  {
    var testFake := LikelyTestFake(filename);
    match response
    case List(entries) => Judged(ListVerdict(entries, testFake))
    case Single(className, score) => Judged(SingleVerdict(className, score, testFake))
    case Unrecognized => UnexpectedFormat
  }

  /** None of the five markers occurs in "vacation.jpg". */
  lemma VacationHasNoMarker()
    ensures !IncludesAny("vacation.jpg", TestMarkers)
  {
    var name := "vacation.jpg";
    assert !Includes(name, "fake") && !Includes(name, "deep") && !Includes(name, "synth");
    assert !Includes(name, "ai") && !Includes(name, "gen");
  }

  /** "vacation.jpg" carries no test marker. */
  lemma VacationIsNotTestFake()
    ensures !LikelyTestFake("vacation.jpg")
  {
    var name := "vacation.jpg";
    assert ToLower(name) == name;
    VacationHasNoMarker();
  }

  /** With fake 0.7 and real 0.3 and no filename override, the answer is
      "fake" with confidence floor(70) + 20 = 90; the override gives the same. */
  lemma SeventyThirtyList(testFake: bool)
    ensures ListVerdict([Entry("fake", 0.7), Entry("real", 0.3)], testFake)
      == Verdict(true, 90, 0.7, 0.3, List([Entry("fake", 0.7), Entry("real", 0.3)]))
  {
    ListOfFakeAndReal(0.7, 0.3, testFake);
    assert (0.7 * 100.0).Floor == 70;
  }

  /** "vacation.jpg" with fake 0.7 and real 0.3 is "fake" with confidence 90. */
  lemma VacationExample()
    ensures Normalize(List([Entry("fake", 0.7), Entry("real", 0.3)]), "vacation.jpg")
      == Judged(Verdict(true, 90, 0.7, 0.3, List([Entry("fake", 0.7), Entry("real", 0.3)])))
  {
    VacationIsNotTestFake();
    SeventyThirtyList(false);
  }

  /** "ai_generated.png" trips the override; the verdict is "fake" with
      confidence 90. */
  lemma AiGeneratedExample()
    ensures LikelyTestFake("ai_generated.png")
    ensures Normalize(List([Entry("fake", 0.7), Entry("real", 0.3)]), "ai_generated.png")
      == Judged(Verdict(true, 90, 0.7, 0.3, List([Entry("fake", 0.7), Entry("real", 0.3)])))
  {
    var name := "ai_generated.png";
    assert ToLower(name) == name;
    assert OccursAt(name, "ai", 0);
    assert TestMarkers[3] == "ai";
    SeventyThirtyList(true);
  }

  /** "photo.jpg" carries no test marker. */
  lemma PhotoIsNotTestFake()
    ensures !LikelyTestFake("photo.jpg")
  {
    var name := "photo.jpg";
    assert ToLower(name) == name;
    assert !IncludesAny(name, TestMarkers) by {
      assert !Includes(name, "fake") && !Includes(name, "deep") && !Includes(name, "synth");
      assert !Includes(name, "ai") && !Includes(name, "gen");
    }
  }

  /** A single "real" answer of 0.8 on "photo.jpg" is "real" with confidence 80. */
  lemma PhotoExample()
    ensures Normalize(Single(Some("real"), Some(0.8)), "photo.jpg")
      == Judged(Verdict(false, 80, 0.2, 0.8, Single(Some("real"), Some(0.8))))
  {
    PhotoIsNotTestFake();
    assert ToLower("real") == "real";
    assert LabelHas("real", "real") by { assert OccursAt("real", "real", 0); }
    assert !LabelHas("real", "fake");
    assert (0.8 * 100.0).Floor == 80;
  }
}
