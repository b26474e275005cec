/**
 * Repair of the calibration file, Go version (go/s0103/main.go).
 *
 * The records are read from a JSON file (decoding is not modelled: the
 * records are given). The open test questions are collected and sent to the
 * model, whose reply is decoded into a list of question/answer pairs. Then
 * every record is repaired in place: an empty test is cleared, any other test
 * takes the answer of the first reply pair with the same question, and the
 * record's own answer is recomputed from its "a + b" question.
 */
module CalibrationGo {
  import opened Wrappers
  import opened Strings
  import opened Decimal
  import opened GoNumbers
  import opened Seqs

  /** `Test`: JSON keys "q" and "a". */
  datatype Test = Test(question: GoString, answer: GoString)

  /** `TestData`; the `*Test` pointer is `None` when nil. */
  datatype TestData = TestData(question: GoString, answer: int, test: Option<Test>)

  /** A record whose test has a non-empty question to put to the model. */
  predicate IsOpen(d: TestData) {
    d.test.Some? && |d.test.value.question| > 0
  }

  function TestQuestion(d: TestData): GoString {
    if d.test.Some? then d.test.value.question else ""
  }

  /** The questions for the model, in record order. */
  function OpenQuestions(records: seq<TestData>): seq<GoString> {
    Collect(records, IsOpen, TestQuestion)
  }

  /** The collection loop of `main`. */
  method CollectQuestions(records: seq<TestData>) returns (questionsToModel: seq<GoString>)
    ensures questionsToModel == OpenQuestions(records)
  {
    questionsToModel := [];
    var i := 0;
    while i < |records|
      invariant 0 <= i <= |records|
      invariant questionsToModel == Collect(records[..i], IsOpen, TestQuestion)
    {
      CollectSnoc(records, i, IsOpen, TestQuestion);
      var d := records[i];
      if d.test.Some? && |d.test.value.question| > 0 {
        questionsToModel := questionsToModel + [d.test.value.question];
      }
      i := i + 1;
    }
    assert records[..|records|] == records;
  }

  /**
   * The questions sent are exactly the non-empty questions of the non-nil
   * tests, one per such record and in record order; none is sent only when
   * no record has one.
   */
  lemma OpenQuestionsExactly(records: seq<TestData>)
    ensures var qs := OpenQuestions(records);
      var idx := KeptIndexes(records, IsOpen);
      |qs| == |idx| &&
      (forall k :: 0 <= k < |qs| ==>
         records[idx[k]].test.Some? && qs[k] == records[idx[k]].test.value.question && qs[k] != "") &&
      (forall k, l :: 0 <= k < l < |idx| ==> idx[k] < idx[l]) &&
      (forall i :: 0 <= i < |records| && IsOpen(records[i]) ==> i in idx)
    ensures OpenQuestions(records) == [] <==> forall i :: 0 <= i < |records| ==> !IsOpen(records[i])
  {
    CollectIsKeptInOrder(records, IsOpen, TestQuestion);
    CollectEmptyIff(records, IsOpen, TestQuestion);
  }

  /** The first reply pair whose question is `q`. */
  function FirstMatch(replies: seq<Test>, q: GoString): (r: Option<nat>)
    ensures r.Some? ==> r.value < |replies| && replies[r.value].question == q
    ensures r.Some? ==> forall j :: 0 <= j < r.value ==> replies[j].question != q
    ensures r.None? ==> forall j :: 0 <= j < |replies| ==> replies[j].question != q
    decreases |replies|
  {
    if replies == [] then None
    else if replies[0].question == q then Some(0)
    else match FirstMatch(replies[1..], q)
      case None => None
      case Some(j) => Some(j + 1)
  }

  /**
   * The new test of a record: a nil test stays nil, a test with empty
   * question and answer becomes nil, any other test keeps its question and
   * takes the answer of the first reply pair with that question, or is left
   * as it was when there is none.
   */
  function MergeTest(t: Option<Test>, replies: seq<Test>): (r: Option<Test>)
    ensures t.None? ==> r.None?
    ensures t.Some? && t.value.question == "" && t.value.answer == "" ==> r.None?
    ensures t.Some? && !(t.value.question == "" && t.value.answer == "") ==>
              r.Some? && r.value.question == t.value.question &&
              (FirstMatch(replies, t.value.question).None? ==> r == t) &&
              (FirstMatch(replies, t.value.question).Some? ==>
                 r.value.answer == replies[FirstMatch(replies, t.value.question).value].answer)
  {
    match t
    case None => None
    case Some(test) =>
      if test.question == "" && test.answer == "" then None
      else match FirstMatch(replies, test.question)
        case None => t
        case Some(j) => Some(test.(answer := replies[j].answer))
  }

  const Plus: GoString := " + "

  /**
   * `validateCalculation`: the two sides of the first " + " parsed with
   * `strconv.Atoi`, whose errors are ignored (a side that does not parse
   * counts as its error value, 0 or the clamped bound), added as 64-bit
   * ints. Without " + " the source indexes past the split and panics: `None`.
   */
  function ValidateCalculation(question: GoString): (r: Option<int>)
    ensures r.Some? <==> Contains(question, Plus)
    ensures r.Some? ==> IsInt64(r.value)
  {
    if !Contains(question, Plus) then None
    else
      var numbers := Split(question, Plus);
      Some(WrapInt64(Atoi(numbers[0]) + Atoi(numbers[1])))
  }

  lemma SplitOfSum(a: GoString, b: GoString)
    requires ' ' !in a && !Contains(b, Plus)
    ensures Split(a + Plus + b, Plus) == [a, b]
  {
    SplitAround(a, Plus, b);
    SplitWithoutSeparator(b, Plus);
  }

  lemma DecimalLacksPlus(x: int)
    ensures ' ' !in IntToString(x)
    ensures !Contains(IntToString(x), Plus)
  {
    var s := IntToString(x);
    IntToStringChars(x);
    ContainsIff(s, Plus);
    forall i | 0 <= i ensures !OccursAt(s, Plus, i) {
      if i + |Plus| <= |s| {
        assert s[i..i + |Plus|][0] == s[i];
      }
    }
  }

  /** With one " + " after a blank-free left side, the sides are parsed as they are. */
  lemma ValidateCalculationSides(a: GoString, b: GoString, m: int, n: int)
    requires ' ' !in a && !Contains(b, Plus)
    requires Atoi(a) == m && Atoi(b) == n
    ensures ValidateCalculation(a + Plus + b) == Some(WrapInt64(m + n))
  {
    var question := a + Plus + b;
    SplitOfSum(a, b);
    FirstOccurrenceAfter(a, Plus, b);
    assert Contains(question, Plus);
    assert Split(question, Plus)[0] == a && Split(question, Plus)[1] == b;
  }

  /** A question "x + y" written in decimal yields the 64-bit sum of x and y. */
  lemma ValidateCalculationOfSum(x: int, y: int)
    requires IsInt64(x) && IsInt64(y)
    ensures ValidateCalculation(IntToString(x) + Plus + IntToString(y)) == Some(WrapInt64(x + y))
  {
    DecimalLacksPlus(x);
    DecimalLacksPlus(y);
    AtoiOfDecimal(x);
    AtoiOfDecimal(y);
    ValidateCalculationSides(IntToString(x), IntToString(y), x, y);
  }

  /** A left side that is not a decimal number counts as 0. */
  lemma ValidateCalculationUnparsable(a: GoString, y: int)
    requires ' ' !in a && |a| <= 19 && !IsSignedDecimal(a) && IsInt64(y)
    ensures ValidateCalculation(a + Plus + IntToString(y)) == Some(y)
  {
    var b := IntToString(y);
    DecimalLacksPlus(y);
    AtoiRejects(a);
    AtoiOfDecimal(y);
    ValidateCalculationSides(a, b, 0, y);
    assert WrapInt64(0 + y) == y;
  }

  /** The repaired record, or `None` when its question makes the source panic. */
  function Repair(d: TestData, replies: seq<Test>): (r: Option<TestData>)
    ensures r.Some? <==> Contains(d.question, Plus)
    ensures r.Some? ==> r.value.question == d.question
    ensures r.Some? ==> r.value.test == MergeTest(d.test, replies)
    ensures r.Some? ==> Some(r.value.answer) == ValidateCalculation(d.question)
  {
    match ValidateCalculation(d.question)
    case None => None
    case Some(n) => Some(TestData(d.question, n, MergeTest(d.test, replies)))
  }

  /**
   * The test part of one iteration of the merge loop: clear an empty test,
   * or scan the reply pairs for the first one with the same question.
   */
  method UpdateTest(t: Option<Test>, replies: seq<Test>) returns (test: Option<Test>)
    ensures test == MergeTest(t, replies)
  {
    test := t;
    if test.Some? && test.value.question == "" && test.value.answer == "" {
      test := None;
    } else {
      var j := 0;
      while j < |replies|
        invariant 0 <= j <= |replies|
        invariant test == t
        invariant test.Some? ==> forall m :: 0 <= m < j ==> replies[m].question != test.value.question
      {
        if test.Some? && test.value.question == replies[j].question {
          assert FirstMatch(replies, test.value.question) == Some(j);
          test := Some(test.value.(answer := replies[j].answer));
          break;
        }
        j := j + 1;
      }
    }
  }

  /**
   * The merge loop of `main`, in place over the records. It returns the
   * index of the record whose question panicked, if any: that record has its
   * test merged but its old answer, and the records after it are untouched.
   */
  method Merge(records: array<TestData>, replies: seq<Test>) returns (panicAt: Option<nat>)
    modifies records
    ensures panicAt.None? ==>
              forall k :: 0 <= k < records.Length ==> Repair(old(records[k]), replies) == Some(records[k])
    ensures panicAt.Some? ==>
              var p := panicAt.value;
              p < records.Length && Repair(old(records[p]), replies).None? &&
              records[p] == old(records[p]).(test := MergeTest(old(records[p].test), replies)) &&
              (forall k :: 0 <= k < p ==> Repair(old(records[k]), replies) == Some(records[k])) &&
              (forall k :: p < k < records.Length ==> records[k] == old(records[k]))
  {
    var i := 0;
    while i < records.Length
      invariant 0 <= i <= records.Length
      invariant forall k :: 0 <= k < i ==> Repair(old(records[k]), replies) == Some(records[k])
      invariant forall k :: i <= k < records.Length ==> records[k] == old(records[k])
    {
      var test := UpdateTest(records[i].test, replies);
      records[i] := records[i].(test := test);
      var sum := ValidateCalculation(records[i].question);
      if sum.None? {
        return Some(i);
      }
      records[i] := records[i].(answer := sum.value);
      i := i + 1;
    }
    return None;
  }

  /** `after` is `before` with every record repaired. */
  predicate AllRepaired(before: seq<TestData>, after: seq<TestData>, replies: seq<Test>) {
    |after| == |before| && forall k :: 0 <= k < |before| ==> Repair(before[k], replies) == Some(after[k])
  }

  /**
   * The merge panicked at record `p`, the first whose question lacks " + ":
   * the records before it are repaired, it has only its test merged, the
   * rest are untouched.
   */
  predicate StoppedAt(before: seq<TestData>, after: seq<TestData>, replies: seq<Test>, p: nat) {
    && |after| == |before| && p < |before|
    && Repair(before[p], replies).None?
    && after[p] == before[p].(test := MergeTest(before[p].test, replies))
    && (forall k :: 0 <= k < p ==> Repair(before[k], replies) == Some(after[k]))
    && (forall k :: p < k < |before| ==> after[k] == before[k])
  }

  /** How a run ends. */
  datatype Outcome =
    | QuestionsNotFound        // fatal: "questions not found"
    | BadModelResponse         // fatal: the reply is not a JSON list of pairs
    | Panicked(index: nat)     // validateCalculation indexed past its split
    | Repaired                 // the records are ready to be reported

  /**
   * `main` from the decoded records to the repaired ones. `model` stands for
   * the model call and the decoding of its reply (`None`: decoding failed).
   */
  method Calibrate(records: array<TestData>, model: seq<GoString> -> Option<seq<Test>>)
    returns (outcome: Outcome)
    modifies records
    ensures outcome == QuestionsNotFound <==> OpenQuestions(old(records[..])) == []
    ensures outcome == QuestionsNotFound ==> records[..] == old(records[..])
    ensures var before := old(records[..]);
      var questions := OpenQuestions(before);
      questions != [] ==>
        (model(questions).None? ==> outcome == BadModelResponse && records[..] == before) &&
        (model(questions).Some? ==>
           var replies := model(questions).value;
           (outcome == Repaired <==> forall k :: 0 <= k < |before| ==> Contains(before[k].question, Plus)) &&
           (outcome == Repaired ==> AllRepaired(before, records[..], replies)) &&
           (outcome != Repaired ==> outcome.Panicked? && StoppedAt(before, records[..], replies, outcome.index)))
  {
    var questionsToModel := CollectQuestions(records[..]);
    if |questionsToModel| == 0 {
      return QuestionsNotFound;
    }
    var response := model(questionsToModel);
    if response.None? {
      return BadModelResponse;
    }
    ghost var before := records[..];
    var panicAt := Merge(records, response.value);
    if panicAt.Some? {
      assert StoppedAt(before, records[..], response.value, panicAt.value);
      return Panicked(panicAt.value);
    }
    assert AllRepaired(before, records[..], response.value);
    return Repaired;
  }
}
