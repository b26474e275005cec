/**
 * The validator of the fine-tuned model (go/s0402/validate.go): each line is
 * a two-byte id, one separator byte and a payload; the payload alone is sent
 * to the model, and the ids whose reply is exactly "Y" are reported under
 * the task "research".
 *
 * The model is a parameter from request to reply; the verification file is
 * the sequence of its lines.
 */
module FinetuneValidate {
  import opened Wrappers
  import opened Strings
  import opened Seqs
  import opened Chat
  import opened GoJson

  /**
   * A line's id (bytes 0 and 1) and payload (bytes 3 on); byte 2 is dropped.
   * `None` for a line shorter than three bytes, on which `c[3:]` panics.
   */
  function SplitLine(c: GoString): (r: Option<(GoString, GoString)>)
    ensures r.Some? <==> |c| >= 3
    ensures r.Some? ==> |r.value.0| == 2 && c == r.value.0 + [c[2]] + r.value.1
  {
    if |c| < 3 then None
    else
      assert c == c[..2] + [c[2]] + c[3..];
      Some((c[..2], c[3..]))
  }

  /** The request for one payload: a single user message, no system message. */
  function Request(payload: GoString): (messages: seq<ChatMessage>)
    ensures |messages| == 1 && messages[0].role == User && messages[0].content == payload
  {
    [ChatMessage(User, payload)]
  }

  /** The id of a line long enough to have one (only such lines are kept). */
  function Id(c: GoString): GoString {
    if |c| >= 2 then c[..2] else c
  }

  /** A line the loop gets through: long enough, and the model answers. */
  predicate Handled(model: seq<ChatMessage> -> ModelReply, c: GoString) {
    |c| >= 3 && model(Request(c[3..])).Replied?
  }

  /** A line whose id is kept: the model's reply to its payload is exactly "Y". */
  predicate Approved(model: seq<ChatMessage> -> ModelReply, c: GoString) {
    |c| >= 3 && model(Request(c[3..])) == Replied("Y")
  }

  /** The JSON body posted by `sendResult`. */
  datatype FinalAnswer = FinalAnswer(task: GoString, apikey: GoString, answer: seq<GoString>)

  const Task: GoString := "research"

  /** Where the run ends: a panic on a short line, a fatal model error, or the report. */
  datatype Outcome = Panicked(line: nat) | ModelFatal(line: nat) | Submitted(report: FinalAnswer)

  /**
   * The loop of `main` and the envelope of `sendResult`. The lines are taken
   * in order, one model call each; the run stops at the first short line or
   * failed call. Otherwise the report carries the ids of the lines answered
   * "Y", in line order.
   */
  method Validate(lines: seq<GoString>, model: seq<ChatMessage> -> ModelReply, apikey: GoString)
    returns (outcome: Outcome, calls: seq<seq<ChatMessage>>)
    ensures outcome.Submitted? <==> forall k :: 0 <= k < |lines| ==> Handled(model, lines[k])
    ensures outcome.Submitted? ==>
              outcome.report == FinalAnswer(Task, apikey, Collect(lines, c => Approved(model, c), Id))
    ensures outcome.Panicked? ==>
              outcome.line < |lines| && |lines[outcome.line]| < 3 &&
              forall k :: 0 <= k < outcome.line ==> Handled(model, lines[k])
    ensures outcome.ModelFatal? ==>
              outcome.line < |lines| && |lines[outcome.line]| >= 3 &&
              model(Request(lines[outcome.line][3..])).ModelFailed? &&
              forall k :: 0 <= k < outcome.line ==> Handled(model, lines[k])
    ensures |calls| <= |lines|
    ensures forall k :: 0 <= k < |calls| ==> |lines[k]| >= 3 && calls[k] == Request(lines[k][3..])
    ensures outcome.Submitted? ==> |calls| == |lines|
  {
    var correctData: seq<GoString> := [];
    calls := [];
    var i := 0;
    while i < |lines|
      invariant 0 <= i <= |lines| && |calls| == i
      invariant forall k :: 0 <= k < i ==> Handled(model, lines[k])
      invariant forall k :: 0 <= k < i ==> |lines[k]| >= 3 && calls[k] == Request(lines[k][3..])
      invariant correctData == Collect(lines[..i], c => Approved(model, c), Id)
    {
      CollectSnoc(lines, i, c => Approved(model, c), Id);
      var c := lines[i];
      if |c| < 3 {
        return Panicked(i), calls;
      }
      var id := c[0..2];
      var toValidate := c[3..];
      var modelMessages := [ChatMessage(User, toValidate)];
      calls := calls + [modelMessages];
      var resp := model(modelMessages);
      if resp.ModelFailed? {
        return ModelFatal(i), calls;
      }
      if resp.text == "Y" {
        correctData := correctData + [id];
      }
      i := i + 1;
    }
    assert lines[..i] == lines;
    outcome := Submitted(FinalAnswer(Task, apikey, correctData));
  }

  /**
   * What the report's answer means: the ids of exactly the lines answered
   * "Y" (not "y", not "Y\n"), in line order.
   */
  lemma ReportedIds(lines: seq<GoString>, model: seq<ChatMessage> -> ModelReply)
    ensures var ids := Collect(lines, c => Approved(model, c), Id);
      var kept := KeptIndexes(lines, c => Approved(model, c));
      |ids| == |kept| &&
      (forall k :: 0 <= k < |kept| ==>
         model(Request(lines[kept[k]][3..])) == Replied("Y") && ids[k] == lines[kept[k]][..2]) &&
      (forall k, l :: 0 <= k < l < |kept| ==> kept[k] < kept[l]) &&
      (forall i :: 0 <= i < |lines| && |lines[i]| >= 3 && model(Request(lines[i][3..])) == Replied("Y") ==> i in kept)
  {
    CollectIsKeptInOrder(lines, c => Approved(model, c), Id);
  }

  /** A JSON array of strings. */
  function StringsJson(items: seq<GoString>): GoString
    decreases |items|
  {
    if items == [] then ""
    else if |items| == 1 then Quote(items[0])
    else Quote(items[0]) + "," + StringsJson(items[1..])
  }

  /**
   * `json.Marshal` of the report. With no id kept the answer slice is still
   * nil, and Go writes it as `null`, not `[]`.
   */
  function FinalAnswerJson(f: FinalAnswer): (json: GoString)
    ensures f.answer == [] <==> HasSuffix(json, "\"answer\":null}")
  {
    var head := "{\"task\":" + Quote(f.task) + ",\"apikey\":" + Quote(f.apikey) + ",\"answer\":";
    var json := head + (if f.answer == [] then "null" else "[" + StringsJson(f.answer) + "]") + "}";
    assert f.answer != [] ==> json[|json| - 2] == ']';
    json
  }
}
