/**
 * Repair of the calibration file, Python version (python/s0103/main.py).
 *
 * The records are built from decoded JSON by the `from_dict` class methods
 * and written back by `to_dict`. The open test questions are sent to the
 * model; its reply is decoded into `Test` objects; every record's test takes
 * the answer of the first of them with an equal question, and the record's
 * answer becomes `int(a) + int(b)` of its "a + b" question. Unlike the Go
 * version, no test is ever cleared, values keep their JSON types, integers
 * are unbounded, and malformed data raises an exception.
 */
module CalibrationPy {
  import opened Wrappers
  import opened Strings
  import opened Decimal
  import opened PyNumbers
  import opened PyJson
  import opened Seqs

  /** `Test`: serialised under the keys "q" and "a". */
  datatype Test = Test(question: Json, answer: Json)

  /** `TestData`; `test` is `None` when the record has no test. */
  datatype TestData = TestData(question: Json, answer: Json, test: Option<Test>)

  datatype CalibrationData = CalibrationData(apikey: Json, description: Json, copyright: Json, testData: seq<TestData>)

  datatype FinalAnswer = FinalAnswer(task: Json, apikey: Json, answer: Option<CalibrationData>)

  /** `Test.to_dict`. */
  function TestToDict(t: Test): (r: Json)
    ensures r.JObj? && Truthy(r)
    ensures Lookup(r.fields, "q") == Some(t.question) && Lookup(r.fields, "a") == Some(t.answer)
  {
    JObj([Field("q", t.question), Field("a", t.answer)])
  }

  /** `Test.from_dict`: missing keys read as `None`; only a dict has `get`. */
  function TestFromDict(data: Json): (r: Py<Test>)
    ensures r.Ok? <==> data.JObj?
    ensures !data.JObj? ==> r == Raised(AttributeError)
  {
    match GetKey(data, "q")
    case Raised(e) => Raised(e)
    case Ok(q) =>
      match GetKey(data, "a")
      case Raised(e) => Raised(e)
      case Ok(a) => Ok(Test(q, a))
  }

  /** `Test.from_dict(t.to_dict())` gives back the same question and answer. */
  lemma TestRoundTrip(t: Test)
    ensures TestFromDict(TestToDict(t)) == Ok(t)
  {
  }

  /** `TestData.to_dict`: a record without a test is written with "test": null. */
  function TestDataToDict(d: TestData): (r: Json)
    ensures r.JObj? && Truthy(r)
    ensures Lookup(r.fields, "question") == Some(d.question) && Lookup(r.fields, "answer") == Some(d.answer)
    ensures Lookup(r.fields, "test") == Some(if d.test.Some? then TestToDict(d.test.value) else JNull)
  {
    var fields := [Field("question", d.question), Field("answer", d.answer),
                   Field("test", if d.test.Some? then TestToDict(d.test.value) else JNull)];
    LookupFirst(fields, "test", 2);
    JObj([Field("question", d.question), Field("answer", d.answer),
          Field("test", if d.test.Some? then TestToDict(d.test.value) else JNull)])
  }

  /**
   * `TestData.from_dict`: "question" and "answer" must be present; a falsy
   * or missing "test" means no test; a truthy one must be a dict.
   */
  function TestDataFromDict(data: Json): (r: Py<TestData>)
    ensures r.Ok? ==> data.JObj?
    ensures !data.JObj? ==> r == Raised(TypeError)
  {
    match Subscript(data, "question")
    case Raised(e) => Raised(e)
    case Ok(question) =>
      match Subscript(data, "answer")
      case Raised(e) => Raised(e)
      case Ok(answer) =>
        match GetKey(data, "test")
        case Raised(e) => Raised(e)
        case Ok(t) =>
          if !Truthy(t) then Ok(TestData(question, answer, None))
          else match TestFromDict(t)
            case Raised(e) => Raised(e)
            case Ok(test) => Ok(TestData(question, answer, Some(test)))
  }

  lemma TestDataRoundTrip(d: TestData)
    ensures TestDataFromDict(TestDataToDict(d)) == Ok(d)
  {
    if d.test.Some? {
      TestRoundTrip(d.test.value);
    }
  }

  function TestDataDicts(ds: seq<TestData>): (r: seq<Json>)
    ensures |r| == |ds| && forall k :: 0 <= k < |ds| ==> r[k] == TestDataToDict(ds[k])
  {
    seq(|ds|, k requires 0 <= k < |ds| => TestDataToDict(ds[k]))
  }

  /** Reading back a written list of records gives the same records. */
  lemma TestDataListRoundTrip(ds: seq<TestData>)
    ensures MapItems(TestDataDicts(ds), TestDataFromDict) == Ok(ds)
  {
    var items := TestDataDicts(ds);
    forall k | 0 <= k < |ds| ensures TestDataFromDict(items[k]) == Ok(ds[k]) {
      TestDataRoundTrip(ds[k]);
    }
    var r := MapItems(items, TestDataFromDict);
    assert r.Ok?;
    assert |r.value| == |ds|;
    assert forall k :: 0 <= k < |ds| ==> r.value[k] == ds[k];
    assert r.value == ds;
  }

  const TestDataKey: string := "test-data"

  /** `CalibrationData.to_dict`: the records go under "test-data". */
  function CalibrationToDict(c: CalibrationData): (r: Json)
    ensures r.JObj? && Truthy(r)
    ensures Lookup(r.fields, TestDataKey) == Some(JArr(TestDataDicts(c.testData)))
  {
    var fields := [Field("apikey", c.apikey), Field("description", c.description),
                   Field("copyright", c.copyright), Field(TestDataKey, JArr(TestDataDicts(c.testData)))];
    LookupFirst(fields, TestDataKey, 3);
    JObj([Field("apikey", c.apikey), Field("description", c.description),
          Field("copyright", c.copyright), Field(TestDataKey, JArr(TestDataDicts(c.testData)))])
  }

  /**
   * `CalibrationData.from_dict`: "apikey", "description" and "copyright"
   * must be present; the records are built from whatever iterating
   * `data.get("test-data")` yields.
   */
  function CalibrationFromDict(data: Json): (r: Py<CalibrationData>)
    ensures r.Ok? ==> data.JObj?
    ensures data.JObj? && Lookup(data.fields, TestDataKey).None? ==> r.Raised?
  {
    match Subscript(data, "apikey")
    case Raised(e) => Raised(e)
    case Ok(apikey) =>
      match Subscript(data, "description")
      case Raised(e) => Raised(e)
      case Ok(description) =>
        match Subscript(data, "copyright")
        case Raised(e) => Raised(e)
        case Ok(copyright) =>
          match GetKey(data, TestDataKey)
          case Raised(e) => Raised(e)
          case Ok(list) =>
            match Items(list)
            case Raised(e) => Raised(e)
            case Ok(items) =>
              match MapItems(items, TestDataFromDict)
              case Raised(e) => Raised(e)
              case Ok(testData) => Ok(CalibrationData(apikey, description, copyright, testData))
  }

  /** Calibration data is written and read back under the same "test-data" key. */
  lemma CalibrationRoundTrip(c: CalibrationData)
    ensures CalibrationFromDict(CalibrationToDict(c)) == Ok(c)
  {
    var d := CalibrationToDict(c);
    LookupFirst(d.fields, "apikey", 0);
    LookupFirst(d.fields, "description", 1);
    LookupFirst(d.fields, "copyright", 2);
    assert Subscript(d, "apikey") == Ok(c.apikey);
    assert Subscript(d, "description") == Ok(c.description);
    assert Subscript(d, "copyright") == Ok(c.copyright);
    assert GetKey(d, TestDataKey) == Ok(JArr(TestDataDicts(c.testData)));
    assert Items(JArr(TestDataDicts(c.testData))) == Ok(TestDataDicts(c.testData));
    TestDataListRoundTrip(c.testData);
  }

  /** `FinalAnswer.to_dict`. */
  function FinalAnswerToDict(f: FinalAnswer): (r: Json)
    ensures r.JObj?
    ensures Lookup(r.fields, "answer") == Some(if f.answer.Some? then CalibrationToDict(f.answer.value) else JNull)
  {
    var fields := [Field("task", f.task), Field("apikey", f.apikey),
                   Field("answer", if f.answer.Some? then CalibrationToDict(f.answer.value) else JNull)];
    LookupFirst(fields, "answer", 2);
    JObj([Field("task", f.task), Field("apikey", f.apikey),
          Field("answer", if f.answer.Some? then CalibrationToDict(f.answer.value) else JNull)])
  }

  /** `FinalAnswer.from_dict`: a falsy or missing "answer" means none. */
  function FinalAnswerFromDict(data: Json): (r: Py<FinalAnswer>)
    ensures r.Ok? ==> data.JObj?
  {
    match Subscript(data, "task")
    case Raised(e) => Raised(e)
    case Ok(task) =>
      match Subscript(data, "apikey")
      case Raised(e) => Raised(e)
      case Ok(apikey) =>
        match GetKey(data, "answer")
        case Raised(e) => Raised(e)
        case Ok(a) =>
          if !Truthy(a) then Ok(FinalAnswer(task, apikey, None))
          else match CalibrationFromDict(a)
            case Raised(e) => Raised(e)
            case Ok(c) => Ok(FinalAnswer(task, apikey, Some(c)))
  }

  lemma FinalAnswerRoundTrip(f: FinalAnswer)
    ensures FinalAnswerFromDict(FinalAnswerToDict(f)) == Ok(f)
  {
    var d := FinalAnswerToDict(f);
    LookupFirst(d.fields, "task", 0);
    LookupFirst(d.fields, "apikey", 1);
    if f.answer.Some? {
      CalibrationRoundTrip(f.answer.value);
    }
  }

  const Plus: string := " + "

  /**
   * `validate_calculation`: split the question on " + " and add `int()` of
   * the first two pieces. A question that is not a string has no `split`;
   * without " + " there is no second piece; a piece that is not an integer
   * makes `int()` raise.
   */
  function ValidateCalculation(question: Json): (r: Py<int>)
    ensures !question.JStr? ==> r == Raised(AttributeError)
    ensures question.JStr? && !Contains(question.s, Plus) ==> r == Raised(IndexError)
    ensures r.Ok? ==> question.JStr? && Contains(question.s, Plus)
    ensures r.Raised? && question.JStr? && Contains(question.s, Plus) ==> r == Raised(ValueError)
  {
    match question
    case JStr(s) =>
      if !Contains(s, Plus) then Raised(IndexError)
      else
        var split := Split(s, Plus);
        AddInts(PyInt(split[0]), PyInt(split[1]))
    case _ => Raised(AttributeError)
  }

  /** `int(first) + int(second)`, given what the two `int()` calls return. */
  function AddInts(first: Option<int>, second: Option<int>): (r: Py<int>)
    ensures r.Ok? <==> first.Some? && second.Some?
    ensures r.Ok? ==> r.value == first.value + second.value
    ensures r.Raised? ==> r == Raised(ValueError)
  {
    match first
    case None => Raised(ValueError)
    case Some(a) =>
      match second
      case None => Raised(ValueError)
      case Some(b) => Ok(a + b)
  }

  /** Two integers written in decimal around " + " give their exact sum. */
  lemma ValidateCalculationOfSum(x: int, y: int)
    requires |NatToString(if x < 0 then -x else x)| <= MaxStrDigits
    requires |NatToString(if y < 0 then -y else y)| <= MaxStrDigits
    ensures ValidateCalculation(JStr(IntToString(x) + Plus + IntToString(y))) == Ok(x + y)
  {
    var a, b := IntToString(x), IntToString(y);
    DecimalLacksPlus(x);
    DecimalLacksPlus(y);
    SumSplits(a, b);
    PyIntOfDecimal(x);
    PyIntOfDecimal(y);
    SidesValued(a, b, x, y);
  }

  lemma SumSplits(a: string, b: string)
    requires !Contains(a, Plus) && !Contains(b, Plus) && Plus[0] !in a
    ensures Split(a + Plus + b, Plus) == [a, b] && Contains(a + Plus + b, Plus)
  {
    SplitAround(a, Plus, b);
    SplitWithoutSeparator(b, Plus);
    FirstOccurrenceAfter(a, Plus, b);
  }

  lemma SidesValued(a: string, b: string, m: int, n: int)
    requires Split(a + Plus + b, Plus) == [a, b] && Contains(a + Plus + b, Plus)
    requires PyInt(a) == Some(m) && PyInt(b) == Some(n)
    ensures ValidateCalculation(JStr(a + Plus + b)) == Ok(m + n)
  {
    var s := a + Plus + b;
    ValidateCalculationSplits(s);
    AddIntsOf(PyInt(a), PyInt(b), m, n);
  }

  lemma AddIntsOf(x: Option<int>, y: Option<int>, m: int, n: int)
    requires x == Some(m) && y == Some(n)
    ensures AddInts(x, y) == Ok(m + n)
  {
  }

  lemma ValidateCalculationSplits(s: string)
    requires Contains(s, Plus)
    ensures ValidateCalculation(JStr(s)) == AddInts(PyInt(Split(s, Plus)[0]), PyInt(Split(s, Plus)[1]))
  {
  }

  /** A side that `int()` rejects makes the whole calculation raise `ValueError`. */
  lemma ValidateCalculationRaises(a: string, b: string)
    requires ' ' !in a && !Contains(b, Plus)
    requires PyInt(a).None? || PyInt(b).None?
    ensures ValidateCalculation(JStr(a + Plus + b)) == Raised(ValueError)
  {
    SplitAround(a, Plus, b);
    SplitWithoutSeparator(b, Plus);
    FirstOccurrenceAfter(a, Plus, b);
    ValidateCalculationSplits(a + Plus + b);
  }

  /** `"\x1c1 + 2"` raises: `int()` does not ignore the file separator. */
  lemma ValidateCalculationFileSeparator()
    ensures ValidateCalculation(JStr("\U{1C}1" + Plus + "2")) == Raised(ValueError)
  {
    FileSeparatorRejected();
    assert !Contains("2", Plus) by {
      ContainsIff("2", Plus);
    }
    ValidateCalculationRaises("\U{1C}1", "2");
  }

  lemma DecimalLacksPlus(x: int)
    ensures ' ' !in IntToString(x)
    ensures !Contains(IntToString(x), Plus)
  {
    var s := IntToString(x);
    DecimalHasNoSpace(x);
    ContainsIff(s, Plus);
    forall i | 0 <= i ensures !OccursAt(s, Plus, i) {
      if i + |Plus| <= |s| {
        assert s[i..i + |Plus|][0] == s[i];
      }
    }
  }

  /** Whether a record's test question goes to the model; `len` may raise. */
  function HasOpenQuestion(d: TestData): (r: Py<bool>)
    ensures r.Raised? ==> r == Raised(TypeError)
    ensures r == Ok(true) <==> d.test.Some? && !d.test.value.question.JNull? && Truthy(d.test.value.question) &&
                               (d.test.value.question.JStr? || d.test.value.question.JArr? || d.test.value.question.JObj?)
  {
    if d.test.None? || d.test.value.question.JNull? then Ok(false)
    else
      match Len(d.test.value.question)
      case Raised(e) => Raised(e)
      case Ok(n) => Ok(n > 0)
  }

  predicate IsOpen(d: TestData) {
    HasOpenQuestion(d) == Ok(true)
  }

  function TestQuestion(d: TestData): Json {
    if d.test.Some? then d.test.value.question else JNull
  }

  /** The question list of `main`, or the exception of the first record whose `len` raises. */
  function OpenQuestions(records: seq<TestData>): (r: Py<seq<Json>>)
    decreases |records|
  {
    if records == [] then Ok([])
    else
      match OpenQuestions(records[..|records| - 1])
      case Raised(e) => Raised(e)
      case Ok(qs) =>
        match HasOpenQuestion(records[|records| - 1])
        case Raised(e) => Raised(e)
        case Ok(open) => Ok(qs + (if open then [TestQuestion(records[|records| - 1])] else []))
  }

  /**
   * Collection succeeds exactly when no record's test question is a value
   * without a length, and then yields the questions that are non-empty, in
   * record order.
   */
  lemma {:induction false} OpenQuestionsCollect(records: seq<TestData>)
    ensures OpenQuestions(records).Ok? <==> forall i :: 0 <= i < |records| ==> HasOpenQuestion(records[i]).Ok?
    ensures OpenQuestions(records).Ok? ==> OpenQuestions(records).value == Collect(records, IsOpen, TestQuestion)
    decreases |records|
  {
    if records != [] {
      var init := records[..|records| - 1];
      OpenQuestionsCollect(init);
      assert forall i :: 0 <= i < |init| ==> init[i] == records[i];
    }
  }

  /** One more record in the collection. */
  lemma OpenQuestionsStep(records: seq<TestData>, i: nat)
    requires i < |records| && OpenQuestions(records[..i]).Ok?
    ensures HasOpenQuestion(records[i]) == Ok(false) ==>
              OpenQuestions(records[..i + 1]) == OpenQuestions(records[..i])
    ensures HasOpenQuestion(records[i]) == Ok(true) ==>
              OpenQuestions(records[..i + 1]) == Ok(OpenQuestions(records[..i]).value + [TestQuestion(records[i])])
    ensures HasOpenQuestion(records[i]).Raised? ==> OpenQuestions(records[..i + 1]) == Raised(TypeError)
  {
    assert records[..i + 1][..i] == records[..i];
    assert records[..i + 1][i] == records[i];
    assert OpenQuestions(records[..i]).value + [] == OpenQuestions(records[..i]).value;
  }

  /** The collection loop of `main`. */
  method CollectQuestions(records: seq<TestData>) returns (r: Py<seq<Json>>)
    ensures r == OpenQuestions(records)
  {
    var questionsToModel: seq<Json> := [];
    var i := 0;
    while i < |records|
      invariant 0 <= i <= |records|
      invariant OpenQuestions(records[..i]) == Ok(questionsToModel)
    {
      OpenQuestionsStep(records, i);
      var data := records[i];
      if data.test.Some? && !data.test.value.question.JNull? {
        var n := Len(data.test.value.question);
        if n.Raised? {
          assert HasOpenQuestion(data).Raised?;
          r := Raised(n.error);
          PrefixRaises(records, i + 1);
          return;
        }
        if n.value > 0 {
          assert HasOpenQuestion(data) == Ok(true);
          questionsToModel := questionsToModel + [data.test.value.question];
        } else {
          assert HasOpenQuestion(data) == Ok(false);
        }
      } else {
        assert HasOpenQuestion(data) == Ok(false);
      }
      i := i + 1;
    }
    assert records[..i] == records;
    r := Ok(questionsToModel);
  }

  /** Once a prefix of the records raises, collecting all of them raises the same. */
  lemma {:induction false} PrefixRaises(records: seq<TestData>, n: nat)
    requires n <= |records| && OpenQuestions(records[..n]).Raised?
    ensures OpenQuestions(records) == OpenQuestions(records[..n])
    decreases |records| - n
  {
    if n < |records| {
      assert records[..n + 1][..n] == records[..n];
      PrefixRaises(records, n + 1);
    } else {
      assert records[..n] == records;
    }
  }

  /**
   * `"\n".join(questions)`, the user message sent to the model: every item
   * must be a `str`, else `TypeError`.
   */
  function JoinLines(questions: seq<Json>): (r: Py<string>)
    ensures r.Ok? <==> forall k :: 0 <= k < |questions| ==> questions[k].JStr?
    ensures r.Raised? ==> r == Raised(TypeError)
    decreases |questions|
  {
    if questions == [] then Ok("")
    else if !questions[0].JStr? then Raised(TypeError)
    else if |questions| == 1 then Ok(questions[0].s)
    else
      match JoinLines(questions[1..])
      case Raised(e) => Raised(e)
      case Ok(rest) => Ok(questions[0].s + "\n" + rest)
  }

  /** The text of each question, all of them strings. */
  function Texts(questions: seq<Json>): (r: seq<string>)
    requires forall k :: 0 <= k < |questions| ==> questions[k].JStr?
    ensures |r| == |questions| && forall k :: 0 <= k < |questions| ==> r[k] == questions[k].s
  {
    seq(|questions|, k requires 0 <= k < |questions| => questions[k].s)
  }

  /**
   * A test whose question is a non-empty list passes the `len` filter and is
   * collected, and then the join raises `TypeError`.
   */
  lemma ListQuestionRaises()
    ensures var question := JArr([JStr("x")]);
      var d := TestData(JStr("1 + 2"), JStr(""), Some(Test(question, JStr(""))));
      OpenQuestions([d]) == Ok([question]) && JoinLines([question]) == Raised(TypeError)
  {
    var question := JArr([JStr("x")]);
    var d := TestData(JStr("1 + 2"), JStr(""), Some(Test(question, JStr(""))));
    assert HasOpenQuestion(d) == Ok(true);
    assert [d][..|[d]| - 1] == [];
    assert OpenQuestions([d][..|[d]| - 1]) == Ok([]);
    assert TestQuestion([d][|[d]| - 1]) == question;
    assert [] + [question] == [question];
  }

  /** Questions of one line each are found again, in order, line by line in the message. */
  lemma {:induction false} JoinLinesSplit(questions: seq<Json>)
    requires questions != []
    requires forall k :: 0 <= k < |questions| ==> questions[k].JStr? && '\n' !in questions[k].s
    ensures JoinLines(questions).Ok? && Split(JoinLines(questions).value, "\n") == Texts(questions)
    decreases |questions|
  {
    var head := questions[0].s;
    if |questions| == 1 {
      LacksHead(head, "\n");
      SplitWithoutSeparator(head, "\n");
    } else {
      var tail := questions[1..];
      JoinLinesSplit(tail);
      SplitAround(head, "\n", JoinLines(tail).value);
      assert Texts(questions) == [head] + Texts(tail);
    }
  }

  /** The first reply whose question is equal (Python `==`) to `q`. */
  function FirstMatch(parsed: seq<Test>, q: Json): (r: Option<nat>)
    ensures r.Some? ==> r.value < |parsed| && PyEq(q, parsed[r.value].question)
    ensures r.Some? ==> forall j :: 0 <= j < r.value ==> !PyEq(q, parsed[j].question)
    ensures r.None? ==> forall j :: 0 <= j < |parsed| ==> !PyEq(q, parsed[j].question)
    decreases |parsed|
  {
    if parsed == [] then None
    else if PyEq(q, parsed[0].question) then Some(0)
    else match FirstMatch(parsed[1..], q)
      case None => None
      case Some(j) => Some(j + 1)
  }

  /**
   * The new test of a record: it keeps its question and takes the answer of
   * the first reply with an equal question; with no such reply, or no test,
   * nothing changes. A test is never removed.
   */
  function MergeTest(t: Option<Test>, parsed: seq<Test>): (r: Option<Test>)
    ensures r.Some? <==> t.Some?
    ensures t.Some? ==> r.value.question == t.value.question
    ensures t.Some? && FirstMatch(parsed, t.value.question).Some? ==>
              r.value.answer == parsed[FirstMatch(parsed, t.value.question).value].answer
    ensures t.Some? && FirstMatch(parsed, t.value.question).None? ==> r == t
  {
    match t
    case None => None
    case Some(test) =>
      match FirstMatch(parsed, test.question)
      case None => t
      case Some(j) => Some(test.(answer := parsed[j].answer))
  }

  /** The repaired record, or the exception `validate_calculation` raises on it. */
  function Repair(d: TestData, parsed: seq<Test>): (r: Py<TestData>)
    ensures r.Ok? <==> ValidateCalculation(d.question).Ok?
    ensures r.Ok? ==> r.value == TestData(d.question, JInt(ValidateCalculation(d.question).value), MergeTest(d.test, parsed))
  {
    match ValidateCalculation(d.question)
    case Raised(e) => Raised(e)
    case Ok(n) => Ok(TestData(d.question, JInt(n), MergeTest(d.test, parsed)))
  }

  lemma RepairOk(d: TestData, parsed: seq<Test>, test: Option<Test>, n: int)
    requires test == MergeTest(d.test, parsed) && ValidateCalculation(d.question) == Ok(n)
    ensures Repair(d, parsed) == Ok(TestData(d.question, JInt(n), test))
  {
  }

  /** The inner loop of the merge: scan the replies for the test's question. */
  method UpdateTest(t: Option<Test>, parsed: seq<Test>) returns (test: Option<Test>)
    ensures test == MergeTest(t, parsed)
  {
    test := t;
    var j := 0;
    while j < |parsed|
      invariant 0 <= j <= |parsed|
      invariant test == t
      invariant test.Some? ==> forall m :: 0 <= m < j ==> !PyEq(test.value.question, parsed[m].question)
    {
      if test.Some? && PyEq(test.value.question, parsed[j].question) {
        assert FirstMatch(parsed, test.value.question) == Some(j);
        test := Some(test.value.(answer := parsed[j].answer));
        break;
      }
      j := j + 1;
    }
  }

  /** `after` is `before` with every record repaired. */
  predicate AllRepaired(before: seq<TestData>, after: seq<TestData>, parsed: seq<Test>) {
    |after| == |before| && forall k :: 0 <= k < |before| ==> Repair(before[k], parsed) == Ok(after[k])
  }

  /**
   * The merge raised `e` at record `p`, the first that raises: the records
   * before it are repaired, it has only its test merged, the rest are untouched.
   */
  predicate StoppedAt(before: seq<TestData>, after: seq<TestData>, parsed: seq<Test>, p: nat, e: PyError) {
    && |after| == |before| && p < |before|
    && Repair(before[p], parsed) == Raised(e)
    && after[p] == before[p].(test := MergeTest(before[p].test, parsed))
    && (forall k :: 0 <= k < p ==> Repair(before[k], parsed) == Ok(after[k]))
    && (forall k :: p < k < |before| ==> after[k] == before[k])
  }

  /** Where the merge stopped on an exception. */
  datatype Stop = Stop(index: nat, error: PyError)

  /**
   * One iteration of the merge loop, on the record at `i`: merge its test,
   * then recompute its answer, unless `validate_calculation` raises.
   */
  method RepairAt(records: array<TestData>, i: nat, parsed: seq<Test>) returns (error: Option<PyError>)
    requires i < records.Length
    modifies records
    ensures forall k :: 0 <= k < records.Length && k != i ==> records[k] == old(records[k])
    ensures error.None? ==> Repair(old(records[i]), parsed) == Ok(records[i])
    ensures error.Some? ==> Repair(old(records[i]), parsed) == Raised(error.value)
    ensures error.Some? ==> records[i] == old(records[i]).(test := MergeTest(old(records[i].test), parsed))
  {
    var test := UpdateTest(records[i].test, parsed);
    records[i] := records[i].(test := test);
    var answer := ValidateCalculation(records[i].question);
    if answer.Raised? {
      return Some(answer.error);
    }
    records[i] := records[i].(answer := JInt(answer.value));
    RepairOk(old(records[i]), parsed, test, answer.value);
    return None;
  }

  /**
   * The merge loop of `main`, in place over the records. On an exception
   * the record at fault has its test merged but its old answer, and the
   * records after it are untouched.
   */
  method Merge(records: array<TestData>, parsed: seq<Test>) returns (stop: Option<Stop>)
    modifies records
    ensures stop.None? ==>
              forall k :: 0 <= k < records.Length ==> Repair(old(records[k]), parsed) == Ok(records[k])
    ensures stop.Some? ==>
              var p := stop.value.index;
              p < records.Length && Repair(old(records[p]), parsed) == Raised(stop.value.error) &&
              records[p] == old(records[p]).(test := MergeTest(old(records[p].test), parsed)) &&
              (forall k :: 0 <= k < p ==> Repair(old(records[k]), parsed) == Ok(records[k])) &&
              (forall k :: p < k < records.Length ==> records[k] == old(records[k]))
  {
    var i := 0;
    while i < records.Length
      invariant 0 <= i <= records.Length
      invariant forall k :: 0 <= k < i ==> Repair(old(records[k]), parsed) == Ok(records[k])
      invariant forall k :: i <= k < records.Length ==> records[k] == old(records[k])
    {
      var error := RepairAt(records, i, parsed);
      if error.Some? {
        return Some(Stop(i, error.value));
      }
      i := i + 1;
    }
    return None;
  }

  /** `[Test.from_dict(item) for item in json.loads(answers)]`. */
  function ParseAnswers(reply: Json): (r: Py<seq<Test>>)
    ensures reply.JArr? ==> r == MapItems(reply.items, TestFromDict)
  {
    match Items(reply)
    case Raised(e) => Raised(e)
    case Ok(items) => MapItems(items, TestFromDict)
  }

  /** How a run of `main` ends. */
  datatype Outcome =
    | Exit(status: int)         // `sys.exit(1)`: no question to ask
    | Uncaught(error: PyError)  // an exception ends the script
    | Merged                    // the records are ready to be reported

  /**
   * `main` from the decoded records to the repaired ones. `model` stands for
   * the model call on the user message and `json.loads` of its reply
   * (`None`: the reply is not JSON, which raises `ValueError`).
   */
  method Calibrate(records: array<TestData>, model: string -> Option<Json>) returns (outcome: Outcome)
    modifies records
    ensures outcome == Exit(1) <==> OpenQuestions(old(records[..])) == Ok([])
    ensures outcome.Exit? ==> outcome == Exit(1) && records[..] == old(records[..])
    ensures var before := old(records[..]);
      var questions := OpenQuestions(before);
      questions.Raised? ==> outcome == Uncaught(questions.error) && records[..] == before
    ensures var before := old(records[..]);
      var questions := OpenQuestions(before);
      questions.Ok? && questions.value != [] && JoinLines(questions.value).Raised? ==>
        outcome == Uncaught(TypeError) && records[..] == before
    ensures var before := old(records[..]);
      var questions := OpenQuestions(before);
      questions.Ok? && questions.value != [] && JoinLines(questions.value).Ok? ==>
        var reply := model(JoinLines(questions.value).value);
        (reply.None? ==> outcome == Uncaught(ValueError) && records[..] == before) &&
        (reply.Some? && ParseAnswers(reply.value).Raised? ==>
           outcome == Uncaught(ParseAnswers(reply.value).error) && records[..] == before) &&
        (reply.Some? && ParseAnswers(reply.value).Ok? ==>
           var parsed := ParseAnswers(reply.value).value;
           (outcome == Merged <==> forall k :: 0 <= k < |before| ==> Repair(before[k], parsed).Ok?) &&
           (outcome == Merged ==> AllRepaired(before, records[..], parsed)) &&
           (outcome != Merged ==> outcome.Uncaught? && exists p :: StoppedAt(before, records[..], parsed, p, outcome.error)))
  {
    var questions := CollectQuestions(records[..]);
    if questions.Raised? {
      return Uncaught(questions.error);
    }
    if |questions.value| == 0 {
      return Exit(1);
    }
    var message := JoinLines(questions.value);
    if message.Raised? {
      return Uncaught(message.error);
    }
    var answers := model(message.value);
    if answers.None? {
      return Uncaught(ValueError);
    }
    var parsed := ParseAnswers(answers.value);
    if parsed.Raised? {
      return Uncaught(parsed.error);
    }
    ghost var before := records[..];
    var stop := Merge(records, parsed.value);
    if stop.Some? {
      assert StoppedAt(before, records[..], parsed.value, stop.value.index, stop.value.error);
      return Uncaught(stop.value.error);
    }
    assert AllRepaired(before, records[..], parsed.value);
    return Merged;
  }
}
