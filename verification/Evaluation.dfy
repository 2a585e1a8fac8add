/** The arithmetic of an evaluation report (app/classification/evaluation.py). */
module Evaluation {
  import opened Base
  import opened ClassificationService

  /** A class is a category or the abstention label. */
  datatype Class = Named(category: Category) | Insufficient

  datatype Prediction = Predicted(class_: Class) | Error

  datatype Row = Row(expected: Class, predicted: Prediction)

  const CATEGORIES: seq<Category> := [AccountAccess, Billing, TechnicalIssue, HowTo, FeatureRequest, Other]

  const CLASSES: seq<Class> :=
    [Named(AccountAccess), Named(Billing), Named(TechnicalIssue), Named(HowTo), Named(FeatureRequest), Named(Other),
     Insufficient]

  const PREDICTIONS: seq<Prediction> :=
    [Predicted(Named(AccountAccess)), Predicted(Named(Billing)), Predicted(Named(TechnicalIssue)),
     Predicted(Named(HowTo)), Predicted(Named(FeatureRequest)), Predicted(Named(Other)), Predicted(Insufficient), Error]

  predicate Distinct<T(==)>(xs: seq<T>) {
    forall i, j :: 0 <= i < j < |xs| ==> xs[i] != xs[j]
  }

  lemma LabelsAreComplete()
    ensures Distinct(CLASSES) && Distinct(PREDICTIONS)
    ensures forall c: Class :: c in CLASSES
    ensures forall p: Prediction :: p in PREDICTIONS
  {
    forall c: Class ensures c in CLASSES {
      match c
      case Insufficient => assert CLASSES[6] == c;
      case Named(AccountAccess) => assert CLASSES[0] == c;
      case Named(Billing) => assert CLASSES[1] == c;
      case Named(TechnicalIssue) => assert CLASSES[2] == c;
      case Named(HowTo) => assert CLASSES[3] == c;
      case Named(FeatureRequest) => assert CLASSES[4] == c;
      case Named(Other) => assert CLASSES[5] == c;
    }
    forall p: Prediction ensures p in PREDICTIONS {
      match p
      case Error => assert PREDICTIONS[7] == p;
      case Predicted(c) =>
        assert c in CLASSES;
        assert forall i :: 0 <= i < 7 ==> PREDICTIONS[i] == Predicted(CLASSES[i]);
    }
  }

  // ------------------------------------------------------------------ counting

  /** How many rows satisfy `p`. */
  function Count(rows: seq<Row>, p: Row -> bool): nat {
    if rows == [] then 0
    else Count(rows[..|rows| - 1], p) + if p(rows[|rows| - 1]) then 1 else 0
  }

  function Sum<T>(xs: seq<T>, f: T -> nat): nat {
    if xs == [] then 0 else Sum(xs[..|xs| - 1], f) + f(xs[|xs| - 1])
  }

  function IsCell(e: Class, p: Prediction): Row -> bool {
    r => r == Row(e, p)
  }

  function IsExpected(e: Class): Row -> bool {
    (r: Row) => r.expected == e
  }

  function IsPredicted(p: Prediction): Row -> bool {
    (r: Row) => r.predicted == p
  }

  function IsCorrect(): Row -> bool {
    (r: Row) => r.predicted == Predicted(r.expected)
  }

  function IsAny(): Row -> bool {
    (r: Row) => true
  }

  function IsAnswered(): Row -> bool {
    (r: Row) => r.predicted.Predicted?
  }

  lemma {:induction false} SumShifts<T>(xs: seq<T>, f: T -> nat, g: T -> nat, hit: T -> bool, k: nat)
    requires Distinct(xs) && k <= |xs|
    requires forall x :: x in xs ==> f(x) == g(x) + if hit(x) then 1 else 0
    requires forall x, y :: x in xs && y in xs && hit(x) && hit(y) ==> x == y
    ensures Sum(xs[..k], f) == Sum(xs[..k], g) + if exists x :: x in xs[..k] && hit(x) then 1 else 0
  {
    if k > 0 {
      var last := xs[k - 1];
      assert xs[..k][..k - 1] == xs[..k - 1] && xs[..k] == xs[..k - 1] + [last];
      SumShifts(xs, f, g, hit, k - 1);
      assert last in xs && last !in xs[..k - 1];
      if hit(last) {
        assert last in xs[..k];
      }
    }
  }

  /** Double counting: the parts into which a key splits the rows of `whole` add up to it. */
  lemma {:induction false} Partition<T>(
    rows: seq<Row>, xs: seq<T>, part: T -> Row -> bool, key: Row -> T, whole: Row -> bool, f: T -> nat)
    requires Distinct(xs)
    requires forall r :: whole(r) ==> key(r) in xs
    requires forall r, x :: x in xs ==> (part(x)(r) <==> whole(r) && key(r) == x)
    requires forall x :: x in xs ==> f(x) == Count(rows, part(x))
    ensures Sum(xs, f) == Count(rows, whole)
    decreases |rows|
  {
    assert xs[..|xs|] == xs;
    if rows == [] {
      SumOfNothing(xs, f);
    } else {
      var before, r := rows[..|rows| - 1], rows[|rows| - 1];
      var g: T -> nat := x => Count(before, part(x));
      Partition(before, xs, part, key, whole, g);
      SumShifts(xs, f, g, x => part(x)(r), |xs|);
      if whole(r) {
        assert part(key(r))(r);
      }
    }
  }

  lemma {:induction false} SumOfNothing<T>(xs: seq<T>, f: T -> nat)
    requires forall x :: x in xs ==> f(x) == 0
    ensures Sum(xs, f) == 0
  {
    if xs != [] {
      SumOfNothing(xs[..|xs| - 1], f);
    }
  }

  lemma {:induction false} CountAll(rows: seq<Row>)
    ensures Count(rows, IsAny()) == |rows|
  {
    if rows != [] {
      CountAll(rows[..|rows| - 1]);
    }
  }

  lemma {:induction false} CountMonotone(rows: seq<Row>, p: Row -> bool, q: Row -> bool)
    requires forall r :: p(r) ==> q(r)
    ensures Count(rows, p) <= Count(rows, q)
  {
    if rows != [] {
      CountMonotone(rows[..|rows| - 1], p, q);
    }
  }

  /** Two conditions that exclude each other share the rows of a third. */
  lemma {:induction false} CountSplit(rows: seq<Row>, p: Row -> bool, q: Row -> bool, whole: Row -> bool)
    requires forall r :: whole(r) <==> p(r) || q(r)
    requires forall r :: !(p(r) && q(r))
    ensures Count(rows, p) + Count(rows, q) == Count(rows, whole)
  {
    if rows != [] {
      CountSplit(rows[..|rows| - 1], p, q, whole);
    }
  }

  // ------------------------------------------------------------------ the confusion matrix

  type Matrix = map<Class, map<Prediction, nat>>

  function At(m: Matrix, e: Class, p: Prediction): nat {
    if e in m && p in m[e] then m[e][p] else 0
  }

  ghost predicate Full(m: Matrix) {
    && (forall e: Class :: e in m)
    && (forall e: Class, p: Prediction :: e in m ==> p in m[e])
  }

  /** Every cell holds the number of its rows. */
  ghost predicate Confuses(m: Matrix, rows: seq<Row>) {
    && Full(m)
    && (forall e: Class, p: Prediction :: At(m, e, p) == Count(rows, IsCell(e, p)))
  }

  function Across(m: Matrix, e: Class): Prediction -> nat {
    p => At(m, e, p)
  }

  function Down(m: Matrix, p: Prediction): Class -> nat {
    e => At(m, e, p)
  }

  function Support(m: Matrix): Class -> nat {
    e => Sum(PREDICTIONS, Across(m, e))
  }

  function PredictedCount(m: Matrix): Class -> nat {
    c => Sum(CLASSES, Down(m, Predicted(c)))
  }

  function Diagonal(m: Matrix): Class -> nat {
    c => At(m, c, Predicted(c))
  }

  method Confuse(rows: seq<Row>) returns (matrix: Matrix)
    ensures Confuses(matrix, rows)
  {
    LabelsAreComplete();
    matrix := map e: Class | e in CLASSES :: map p: Prediction | p in PREDICTIONS :: 0;
    for n := 0 to |rows|
      invariant Confuses(matrix, rows[..n])
    {
      var row := rows[n];
      assert rows[..n + 1][..n] == rows[..n];
      matrix := matrix[row.expected := matrix[row.expected][row.predicted := matrix[row.expected][row.predicted] + 1]];
    }
    assert rows[..|rows|] == rows;
  }

  /** A row of the matrix adds up to the cases expected there, a column to those predicted there. */
  lemma Margins(m: Matrix, rows: seq<Row>, c: Class)
    requires Confuses(m, rows)
    ensures Support(m)(c) == Count(rows, IsExpected(c))
    ensures PredictedCount(m)(c) == Count(rows, IsPredicted(Predicted(c)))
    ensures Diagonal(m)(c) <= Support(m)(c)
    ensures Diagonal(m)(c) <= PredictedCount(m)(c)
  {
    LabelsAreComplete();
    Partition(rows, PREDICTIONS, p => IsCell(c, p), (r: Row) => r.predicted, IsExpected(c), Across(m, c));
    Partition(rows, CLASSES, e => IsCell(e, Predicted(c)), (r: Row) => r.expected, IsPredicted(Predicted(c)),
              Down(m, Predicted(c)));
    CountMonotone(rows, IsCell(c, Predicted(c)), IsExpected(c));
    CountMonotone(rows, IsCell(c, Predicted(c)), IsPredicted(Predicted(c)));
  }

  lemma DiagonalIsCorrect(m: Matrix, rows: seq<Row>)
    requires Confuses(m, rows)
    ensures Sum(CLASSES, Diagonal(m)) == Count(rows, IsCorrect())
  {
    LabelsAreComplete();
    Partition(rows, CLASSES, c => IsCell(c, Predicted(c)), (r: Row) => r.expected, IsCorrect(), Diagonal(m));
  }

  lemma SupportIsTotal(m: Matrix, rows: seq<Row>)
    requires Confuses(m, rows)
    ensures Sum(CLASSES, Support(m)) == |rows|
  {
    LabelsAreComplete();
    CountAll(rows);
    forall c: Class ensures Support(m)(c) == Count(rows, IsExpected(c)) {
      Margins(m, rows, c);
    }
    Partition(rows, CLASSES, c => IsExpected(c), (r: Row) => r.expected, IsAny(), Support(m));
  }

  function Answer(r: Row): Class {
    if r.predicted.Predicted? then r.predicted.class_ else Insufficient
  }

  lemma ColumnsAreAnswered(m: Matrix, rows: seq<Row>)
    requires Confuses(m, rows)
    ensures Sum(CLASSES, PredictedCount(m)) == Count(rows, IsAnswered())
  {
    LabelsAreComplete();
    forall c: Class ensures PredictedCount(m)(c) == Count(rows, IsPredicted(Predicted(c))) {
      Margins(m, rows, c);
    }
    Partition(rows, CLASSES, c => IsPredicted(Predicted(c)), Answer, IsAnswered(), PredictedCount(m));
  }

  /** The matrix loses no case: all of it is the total, its diagonal the correct ones, its columns the answered ones. */
  lemma Conservation(m: Matrix, rows: seq<Row>)
    requires Confuses(m, rows)
    ensures Sum(CLASSES, Support(m)) == |rows|
    ensures Sum(CLASSES, Diagonal(m)) == Count(rows, IsCorrect())
    ensures Sum(CLASSES, PredictedCount(m)) + Count(rows, IsPredicted(Error)) == |rows|
  {
    SupportIsTotal(m, rows);
    DiagonalIsCorrect(m, rows);
    ColumnsAreAnswered(m, rows);
    CountAll(rows);
    CountSplit(rows, IsAnswered(), IsPredicted(Error), IsAny());
  }

  // ------------------------------------------------------------------ ratios

  function Ratio(numerator: nat, denominator: nat): Option<real> {
    if denominator == 0 then None else Some(numerator as real / denominator as real)
  }

  datatype Scores = Scores(truePositive: nat, expectedCount: nat, predictedCount: nat,
                           precision: Option<real>, recall: Option<real>, f1: Option<real>)

  function ScoresOf(m: Matrix, c: Class): Scores {
    var tp, support, predicted := Diagonal(m)(c), Support(m)(c), PredictedCount(m)(c);
    Scores(tp, support, predicted, Ratio(tp, predicted), Ratio(tp, support), Ratio(2 * tp, support + predicted))
  }

  predicate Share(r: Option<real>) {
    r.Some? ==> 0.0 <= r.value <= 1.0
  }

  lemma RatioIsShare(n: nat, d: nat)
    requires n <= d
    ensures Share(Ratio(n, d))
    ensures d > 0 ==> Ratio(n, d).value * d as real == n as real
  {
  }

  lemma HarmonicMean(tp: real, predicted: real, support: real, precision: real, recall: real, f1: real)
    requires tp > 0.0 && predicted >= tp && support >= tp
    requires precision * predicted == tp && recall * support == tp && f1 * (support + predicted) == 2.0 * tp
    ensures precision > 0.0 && recall > 0.0
    ensures f1 == 2.0 / (1.0 / precision + 1.0 / recall)
  {
    Positive(precision, predicted);
    Positive(recall, support);
    Reciprocal(precision, predicted, tp);
    Reciprocal(recall, support, tp);
    assert 1.0 / precision + 1.0 / recall == (support + predicted) / tp;
    var whole := support + predicted;
    assert 2.0 / (whole / tp) == 2.0 * tp / whole;
    assert f1 == 2.0 * tp / whole;
  }

  lemma Positive(x: real, y: real)
    requires y > 0.0 && x * y > 0.0
    ensures x > 0.0
  {
    assert x <= 0.0 ==> x * y <= 0.0;
  }

  lemma Reciprocal(x: real, y: real, z: real)
    requires x > 0.0 && z > 0.0 && x * y == z
    ensures 1.0 / x == y / z
  {
    assert y == z / x;
  }

  /** Shares, undefined exactly without a denominator, and the harmonic mean once a case is right. */
  ghost predicate Sound(s: Scores) {
    && Share(s.precision) && Share(s.recall) && Share(s.f1)
    && (s.precision.None? <==> s.predictedCount == 0)
    && (s.recall.None? <==> s.expectedCount == 0)
    && (s.f1.None? <==> s.expectedCount == s.predictedCount == 0)
    && (s.truePositive > 0 ==>
          && s.precision.Some? && s.recall.Some? && s.f1.Some?
          && s.precision.value > 0.0 && s.recall.value > 0.0
          && s.f1.value == 2.0 / (1.0 / s.precision.value + 1.0 / s.recall.value))
  }

  lemma RatiosAreSound(tp: nat, support: nat, predicted: nat)
    requires tp <= support && tp <= predicted
    ensures Sound(Scores(tp, support, predicted, Ratio(tp, predicted), Ratio(tp, support),
                         Ratio(2 * tp, support + predicted)))
  {
    RatioIsShare(tp, predicted);
    RatioIsShare(tp, support);
    RatioIsShare(2 * tp, support + predicted);
    if tp > 0 {
      HarmonicMean(tp as real, predicted as real, support as real,
                   Ratio(tp, predicted).value, Ratio(tp, support).value, Ratio(2 * tp, support + predicted).value);
    }
  }

  /** What the scores of a class mean, in terms of its rows. */
  lemma ScoresMean(m: Matrix, rows: seq<Row>, c: Class)
    requires Confuses(m, rows)
    ensures ScoresOf(m, c).truePositive == Count(rows, IsCell(c, Predicted(c)))
    ensures ScoresOf(m, c).expectedCount == Count(rows, IsExpected(c))
    ensures ScoresOf(m, c).predictedCount == Count(rows, IsPredicted(Predicted(c)))
    ensures Sound(ScoresOf(m, c))
  {
    Margins(m, rows, c);
    RatiosAreSound(Diagonal(m)(c), Support(m)(c), PredictedCount(m)(c));
  }

  // ------------------------------------------------------------------ the report

  datatype Report = Report(
    total: nat, correct: nat, errors: nat, classified: int,
    accuracy: Option<real>, errorRate: Option<real>, coverage: Option<real>,
    abstained: nat, correctAbstained: nat, abstentionCoverage: Option<real>, abstentionPrecision: Option<real>,
    abstentionRecall: Option<real>, macroF1: real, perClass: map<Class, Scores>, matrix: Matrix)

  datatype EvaluationError = EmptySplit

  function F1OrZero(perClass: map<Class, Scores>, c: Category): real {
    if Named(c) in perClass && perClass[Named(c)].f1.Some? then perClass[Named(c)].f1.value else 0.0
  }

  function SumF1(perClass: map<Class, Scores>, categories: seq<Category>): real {
    if categories == [] then 0.0
    else SumF1(perClass, categories[..|categories| - 1]) + F1OrZero(perClass, categories[|categories| - 1])
  }

  /** The report of these rows: counts of rows, and ratios of those counts. */
  ghost predicate Reports(r: Report, rows: seq<Row>) {
    var abstention := Count(rows, IsPredicted(Predicted(Insufficient)));
    var rightly := Count(rows, IsCell(Insufficient, Predicted(Insufficient)));
    && Confuses(r.matrix, rows)
    && (forall c: Class :: c in r.perClass && r.perClass[c] == ScoresOf(r.matrix, c))
    && r.total == |rows| && r.correct == Count(rows, IsCorrect()) && r.errors == Count(rows, IsPredicted(Error))
    && r.abstained == abstention && r.correctAbstained == rightly
    && r.classified == r.total - r.errors - r.abstained
    && r.accuracy == Ratio(r.correct, r.total) && r.errorRate == Ratio(r.errors, r.total)
    && r.classified >= 0 && r.coverage == Ratio(r.classified, r.total)
    && r.abstentionCoverage == Ratio(abstention, r.total) && r.abstentionPrecision == Ratio(rightly, abstention)
    && r.abstentionRecall == Ratio(rightly, Count(rows, IsExpected(Insufficient)))
    && r.macroF1 == SumF1(r.perClass, CATEGORIES) / |CATEGORIES| as real
  }

  method ScoreClasses(matrix: Matrix) returns (perClass: map<Class, Scores>)
    ensures forall c: Class :: c in perClass && perClass[c] == ScoresOf(matrix, c)
  {
    perClass := map[];
    for n := 0 to |CLASSES|
      invariant forall c :: c in CLASSES[..n] ==> c in perClass && perClass[c] == ScoresOf(matrix, c)
    {
      var category := CLASSES[n];
      var tp := At(matrix, category, Predicted(category));
      var support := Sum(PREDICTIONS, Across(matrix, category));
      var predicted := Sum(CLASSES, Down(matrix, Predicted(category)));
      perClass := perClass[category := Scores(tp, support, predicted, Ratio(tp, predicted), Ratio(tp, support),
                                              Ratio(2 * tp, support + predicted))];
      assert CLASSES[..n + 1] == CLASSES[..n] + [category];
    }
    LabelsAreComplete();
    assert CLASSES[..|CLASSES|] == CLASSES;
  }

  method Tally(rows: seq<Row>) returns (correct: nat, abstained: nat, errors: nat)
    ensures correct == Count(rows, IsCorrect())
    ensures abstained == Count(rows, IsPredicted(Predicted(Insufficient)))
    ensures errors == Count(rows, IsPredicted(Error))
  {
    correct, abstained, errors := 0, 0, 0;
    for n := 0 to |rows|
      invariant correct == Count(rows[..n], IsCorrect())
      invariant abstained == Count(rows[..n], IsPredicted(Predicted(Insufficient)))
      invariant errors == Count(rows[..n], IsPredicted(Error))
    {
      var row := rows[n];
      assert rows[..n + 1][..n] == rows[..n];
      if row.predicted == Predicted(row.expected) { correct := correct + 1; }
      if row.predicted == Predicted(Insufficient) { abstained := abstained + 1; }
      if row.predicted == Error { errors := errors + 1; }
    }
    assert rows[..|rows|] == rows;
  }

  /** Answered rows are classified or abstained. */
  lemma ClassifiedIsCounted(rows: seq<Row>)
    ensures Count(rows, IsPredicted(Error)) + Count(rows, IsPredicted(Predicted(Insufficient))) <= |rows|
    ensures Count(rows, IsCorrect()) + Count(rows, IsPredicted(Error)) <= |rows|
  {
    CountAll(rows);
    CountSplit(rows, IsAnswered(), IsPredicted(Error), IsAny());
    CountMonotone(rows, IsPredicted(Predicted(Insufficient)), IsAnswered());
    CountMonotone(rows, IsCorrect(), IsAnswered());
  }

  lemma {:induction false} SumF1Bounded(m: Matrix, rows: seq<Row>, perClass: map<Class, Scores>, categories: seq<Category>)
    requires Confuses(m, rows)
    requires forall c: Class :: c in perClass && perClass[c] == ScoresOf(m, c)
    ensures 0.0 <= SumF1(perClass, categories) <= |categories| as real
  {
    if categories != [] {
      SumF1Bounded(m, rows, perClass, categories[..|categories| - 1]);
      ScoresMean(m, rows, Named(categories[|categories| - 1]));
    }
  }

  function ValueOrZero(r: Option<real>): real {
    if r.Some? then r.value else 0.0
  }

  /** The f1 of a class from its rows alone. */
  function F1Of(rows: seq<Row>, c: Class): Option<real> {
    Ratio(2 * Count(rows, IsCell(c, Predicted(c))), Count(rows, IsExpected(c)) + Count(rows, IsPredicted(Predicted(c))))
  }

  /** The f1 of a category, an undefined one counting as zero. */
  function CategoryF1(rows: seq<Row>, c: Category): real {
    ValueOrZero(F1Of(rows, Named(c)))
  }

  lemma F1Means(m: Matrix, rows: seq<Row>, c: Class)
    requires Confuses(m, rows)
    ensures ScoresOf(m, c).f1 == F1Of(rows, c)
  {
    Margins(m, rows, c);
    assert Diagonal(m)(c) == Count(rows, IsCell(c, Predicted(c)));
  }

  lemma F1Reported(f1: Option<real>, perClass: map<Class, Scores>, c: Category)
    requires Named(c) in perClass && perClass[Named(c)].f1 == f1
    ensures F1OrZero(perClass, c) == ValueOrZero(f1)
  {
  }

  lemma F1FromRows(r: Report, rows: seq<Row>, c: Category)
    requires Reports(r, rows)
    ensures F1OrZero(r.perClass, c) == CategoryF1(rows, c)
  {
    F1Means(r.matrix, rows, Named(c));
    F1Reported(F1Of(rows, Named(c)), r.perClass, c);
  }

  /** Macro f1 is the plain mean over the six categories; the abstention label is not among them. */
  ghost predicate MacroMean(r: Report, rows: seq<Row>) {
    6.0 * r.macroF1 == CategoryF1(rows, AccountAccess) + CategoryF1(rows, Billing) + CategoryF1(rows, TechnicalIssue)
                       + CategoryF1(rows, HowTo) + CategoryF1(rows, FeatureRequest) + CategoryF1(rows, Other)
  }

  lemma MacroIsMean(r: Report, rows: seq<Row>)
    requires Reports(r, rows)
    ensures MacroMean(r, rows)
  {
    F1FromRows(r, rows, AccountAccess);
    F1FromRows(r, rows, Billing);
    F1FromRows(r, rows, TechnicalIssue);
    F1FromRows(r, rows, HowTo);
    F1FromRows(r, rows, FeatureRequest);
    F1FromRows(r, rows, Other);
    SumOfSix(r.perClass);
    SixTimes(r.macroF1, SumF1(r.perClass, CATEGORIES));
  }

  lemma SixTimes(mean: real, sum: real)
    requires mean == sum / |CATEGORIES| as real
    ensures 6.0 * mean == sum
  {
  }

  lemma SumOfSix(perClass: map<Class, Scores>)
    ensures SumF1(perClass, CATEGORIES)
            == F1OrZero(perClass, AccountAccess) + F1OrZero(perClass, Billing) + F1OrZero(perClass, TechnicalIssue)
               + F1OrZero(perClass, HowTo) + F1OrZero(perClass, FeatureRequest) + F1OrZero(perClass, Other)
  {
    var c := CATEGORIES;
    assert c[..6] == c && c[..6][..5] == c[..5] && c[..5][..4] == c[..4] && c[..4][..3] == c[..3];
    assert c[..3][..2] == c[..2] && c[..2][..1] == c[..1] && c[..1][..0] == [];
    assert SumF1(perClass, c[..1]) == F1OrZero(perClass, AccountAccess);
    assert SumF1(perClass, c[..2]) == SumF1(perClass, c[..1]) + F1OrZero(perClass, Billing);
    assert SumF1(perClass, c[..3]) == SumF1(perClass, c[..2]) + F1OrZero(perClass, TechnicalIssue);
    assert SumF1(perClass, c[..4]) == SumF1(perClass, c[..3]) + F1OrZero(perClass, HowTo);
    assert SumF1(perClass, c[..5]) == SumF1(perClass, c[..4]) + F1OrZero(perClass, FeatureRequest);
    assert SumF1(perClass, c[..6]) == SumF1(perClass, c[..5]) + F1OrZero(perClass, Other);
  }

  /** No case is lost, every ratio is a share, and the three outcomes share out the whole. */
  ghost predicate AddsUp(r: Report) {
    && Sum(CLASSES, Support(r.matrix)) == r.total
    && Sum(CLASSES, Diagonal(r.matrix)) == r.correct
    && Sum(CLASSES, PredictedCount(r.matrix)) + r.errors == r.total
    && r.correct + r.errors <= r.total
    && r.accuracy.Some? && r.errorRate.Some? && r.coverage.Some? && r.abstentionCoverage.Some?
    && r.coverage.value + r.abstentionCoverage.value + r.errorRate.value == 1.0
    && 0.0 <= r.accuracy.value <= 1.0 - r.errorRate.value
    && Share(r.abstentionPrecision) && Share(r.abstentionRecall)
    && 0.0 <= r.macroF1 <= 1.0
  }

  lemma AbstentionShares(rows: seq<Row>)
    ensures var rightly := Count(rows, IsCell(Insufficient, Predicted(Insufficient)));
            && Share(Ratio(rightly, Count(rows, IsPredicted(Predicted(Insufficient)))))
            && Share(Ratio(rightly, Count(rows, IsExpected(Insufficient))))
  {
    var rightly := IsCell(Insufficient, Predicted(Insufficient));
    CountMonotone(rows, rightly, IsPredicted(Predicted(Insufficient)));
    CountMonotone(rows, rightly, IsExpected(Insufficient));
    RatioIsShare(Count(rows, rightly), Count(rows, IsPredicted(Predicted(Insufficient))));
    RatioIsShare(Count(rows, rightly), Count(rows, IsExpected(Insufficient)));
  }

  lemma MeanIsShare(sum: real, n: nat)
    requires 0.0 <= sum <= n as real && n > 0
    ensures 0.0 <= sum / n as real <= 1.0
  {
  }

  lemma ReportAddsUp(r: Report, rows: seq<Row>)
    requires Reports(r, rows) && rows != []
    ensures AddsUp(r)
  {
    Conservation(r.matrix, rows);
    ClassifiedIsCounted(rows);
    ShareOut(r.classified, r.abstained, r.errors, r.correct, r.total);
    AbstentionShares(rows);
    assert 0.0 <= r.macroF1 <= 1.0 by {
      SumF1Bounded(r.matrix, rows, r.perClass, CATEGORIES);
      MeanIsShare(SumF1(r.perClass, CATEGORIES), |CATEGORIES|);
    }
  }

  lemma AddOver(x: real, y: real, t: real)
    requires t > 0.0
    ensures x / t + y / t == (x + y) / t
  {
  }

  lemma ShareOut(a: nat, b: nat, c: nat, d: nat, total: nat)
    requires a + b + c == total > 0 && d + c <= total
    ensures Ratio(a, total).value + Ratio(b, total).value + Ratio(c, total).value == 1.0
    ensures 0.0 <= Ratio(d, total).value <= 1.0 - Ratio(c, total).value
  {
    var t := total as real;
    AddOver(a as real, b as real, t);
    AddOver((a + b) as real, c as real, t);
    AddOver(d as real, c as real, t);
    RatioIsShare(d + c, total);
    RatioIsShare(d, total);
    RatioIsShare(total, total);
  }

  /** The whole report of a split, from its rows. */
  method Evaluate(rows: seq<Row>) returns (report: Result<Report, EvaluationError>)
    ensures report.Err? <==> rows == []
    ensures report.Ok? ==> Reports(report.value, rows) && AddsUp(report.value) && MacroMean(report.value, rows)
  {
    if rows == [] {
      return Err(EmptySplit);
    }
    var matrix := Confuse(rows);
    var perClass := ScoreClasses(matrix);
    var total := |rows|;
    var correct, abstained, errors := Tally(rows);
    var correctAbstained := At(matrix, Insufficient, Predicted(Insufficient));
    ClassifiedIsCounted(rows);
    var classified: nat := total - errors - abstained;
    Margins(matrix, rows, Insufficient);
    report := Ok(Report(
      total, correct, errors, classified,
      Ratio(correct, total), Ratio(errors, total), Ratio(classified, total),
      abstained, correctAbstained, Ratio(abstained, total), Ratio(correctAbstained, abstained),
      Ratio(correctAbstained, Sum(PREDICTIONS, Across(matrix, Insufficient))),
      SumF1(perClass, CATEGORIES) / |CATEGORIES| as real, perClass, matrix));
    ReportAddsUp(report.value, rows);
    MacroIsMean(report.value, rows);
  }
}
