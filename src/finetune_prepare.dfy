/**
 * The fine-tuning data builder (go/s0402/prepare_data.go): each input line
 * becomes a three-message classification prompt, the rejected lines' prompts
 * go first, the list is shuffled in place, and every prompt is written as one
 * JSON line.
 *
 * The input files are parameters (as the lines `ReadFile` returns), the
 * random source is a parameter `draw`, and the written file is returned as
 * its contents.
 */
module FinetunePrepare {
  import opened Strings
  import opened Chat
  import opened GoJson

  /** `ChatPrompt`: the messages of one training example. */
  datatype ChatPrompt = ChatPrompt(messages: seq<ChatMessage>)

  const Instruction: GoString := "Classify result"
  /** The number of lines taken from each file is bounded by `i <= threshold`. */
  const Threshold: int := 100

  /** The assistant's label: "Y" for the correct set, "N" for the incorrect one. */
  function Label(correct: bool): (mark: GoString)
    ensures mark == "Y" <==> correct
    ensures mark == "N" <==> !correct
  {
    if correct then "Y" else "N"
  }

  /** The prompt built for one line. */
  function Prompt(line: GoString, correct: bool): ChatPrompt {
    ChatPrompt([ChatMessage(System, Instruction), ChatMessage(User, line), ChatMessage(Assistant, Label(correct))])
  }

  /**
   * How many prompts `i <= threshold && i < len(content)` lets through:
   * `threshold + 1` of them, not `threshold`, when the file is long enough.
   */
  function PromptCount(lines: nat, threshold: int): (n: nat)
    ensures n <= lines
    ensures threshold >= 0 ==> n == if lines <= threshold then lines else threshold + 1
    ensures threshold < 0 ==> n == 0
  {
    if threshold < 0 then 0 else if lines <= threshold then lines else threshold + 1
  }

  /**
   * `prepareTrainingData`: one prompt per line, for the first
   * `threshold + 1` lines at most, in line order; each has the system
   * instruction, the line as the user message and the label as the
   * assistant's.
   */
  method PrepareTrainingData(content: seq<GoString>, correct: bool, threshold: int) returns (prompts: seq<ChatPrompt>)
    ensures |prompts| == PromptCount(|content|, threshold)
    ensures forall i :: 0 <= i < |prompts| ==>
              |prompts[i].messages| == 3 &&
              prompts[i].messages[0] == ChatMessage(System, Instruction) &&
              prompts[i].messages[1] == ChatMessage(User, content[i]) &&
              prompts[i].messages[2] == ChatMessage(Assistant, Label(correct))
  {
    prompts := [];
    var i := 0;
    while i <= threshold && i < |content|
      invariant 0 <= i <= |content| && (threshold >= 0 ==> i <= threshold + 1) && (threshold < 0 ==> i == 0)
      invariant |prompts| == i
      invariant forall k :: 0 <= k < i ==> prompts[k] == Prompt(content[k], correct)
    {
      prompts := prompts + [ChatPrompt([ChatMessage(System, Instruction), ChatMessage(User, content[i]),
                                        ChatMessage(Assistant, Label(correct))])];
      i := i + 1;
    }
  }

  /**
   * The two calls of `main`: the prompts of the incorrect set, labelled "N",
   * then those of the correct set, labelled "Y", each in line order.
   */
  method BuildPrompts(incorrect: seq<GoString>, correct: seq<GoString>) returns (prompts: seq<ChatPrompt>)
    ensures |prompts| == PromptCount(|incorrect|, Threshold) + PromptCount(|correct|, Threshold)
    ensures forall i :: 0 <= i < PromptCount(|incorrect|, Threshold) ==> prompts[i] == Prompt(incorrect[i], false)
    ensures forall i :: PromptCount(|incorrect|, Threshold) <= i < |prompts| ==>
              prompts[i] == Prompt(correct[i - PromptCount(|incorrect|, Threshold)], true)
  {
    var first := PrepareTrainingData(incorrect, false, Threshold);
    var second := PrepareTrainingData(correct, true, Threshold);
    prompts := first + second;
  }

  /**
   * `rand.Shuffle` over the prompts: from the last position down to 1, swap
   * position `i` with a drawn position `j <= i`. Only swaps happen, so the
   * result is a permutation.
   */
  method Shuffle(a: array<ChatPrompt>, draw: nat -> nat)
    modifies a
    ensures multiset(a[..]) == multiset(old(a[..]))
  {
    var i := a.Length - 1;
    while i > 0
      invariant i < a.Length
      invariant multiset(a[..]) == multiset(old(a[..]))
    {
      var j := draw(i) % (i + 1);
      a[i], a[j] := a[j], a[i];
      i := i - 1;
    }
  }

  /** `{"role":…,"content":…}`, fields in declaration order. */
  function MessageJson(m: ChatMessage): GoString {
    "{\"role\":" + Quote(RoleName(m.role)) + ",\"content\":" + Quote(m.content) + "}"
  }

  function MessagesJson(ms: seq<ChatMessage>): GoString
    decreases |ms|
  {
    if ms == [] then ""
    else if |ms| == 1 then MessageJson(ms[0])
    else MessageJson(ms[0]) + "," + MessagesJson(ms[1..])
  }

  /** The JSON object the encoder writes for a prompt. */
  function PromptJson(p: ChatPrompt): GoString {
    "{\"messages\":[" + MessagesJson(p.messages) + "]}"
  }

  /** The file written by the encoder: each object followed by a newline. */
  function JsonLines(objects: seq<GoString>): GoString
    decreases |objects|
  {
    if objects == [] then "" else objects[0] + "\n" + JsonLines(objects[1..])
  }

  lemma {:induction false} JsonLinesSnoc(objects: seq<GoString>, o: GoString)
    ensures JsonLines(objects + [o]) == JsonLines(objects) + o + "\n"
    decreases |objects|
  {
    if objects != [] {
      assert (objects + [o])[1..] == objects[1..] + [o];
      JsonLinesSnoc(objects[1..], o);
    } else {
      assert JsonLines([o]) == o + "\n" + JsonLines([]);
    }
  }

  /** No control byte, so in particular no line break. */
  predicate Printable(s: GoString) {
    forall x :: x in s ==> x >= ' '
  }

  lemma QuotePrintable(s: GoString)
    ensures Printable(Quote(s))
  {
    EscapeHasNoControl(s);
  }

  lemma MessageJsonPrintable(m: ChatMessage)
    ensures Printable(MessageJson(m))
  {
    var role, content := Quote(RoleName(m.role)), Quote(m.content);
    QuotePrintable(RoleName(m.role));
    QuotePrintable(m.content);
    var open, middle, close: GoString := "{\"role\":", ",\"content\":", "}";
    assert Printable(open) && Printable(middle) && Printable(close);
    assert MessageJson(m) == open + role + middle + content + close;
  }

  lemma {:induction false} MessagesJsonPrintable(ms: seq<ChatMessage>)
    ensures Printable(MessagesJson(ms))
    decreases |ms|
  {
    if ms != [] {
      MessageJsonPrintable(ms[0]);
      MessagesJsonPrintable(ms[1..]);
    }
  }

  /** No byte of an encoded prompt is a control byte, a line break in particular. */
  lemma PromptJsonOneLine(p: ChatPrompt)
    ensures '\n' !in PromptJson(p)
  {
    MessagesJsonPrintable(p.messages);
  }

  /** Splitting after one newline-free object peels that object off. */
  lemma NewlineSplitStep(o: GoString, rest: GoString, lines: seq<GoString>)
    requires '\n' !in o
    requires Split(rest, "\n") == lines
    ensures Split(o + "\n" + rest, "\n") == [o] + lines
  {
    SplitAround(o, "\n", rest);
  }

  /** Reading the file back line by line gives each object, then the empty rest after the last newline. */
  lemma {:induction false} JsonLinesSplit(objects: seq<GoString>)
    requires forall k :: 0 <= k < |objects| ==> '\n' !in objects[k]
    ensures Split(JsonLines(objects), "\n") == objects + [""]
    decreases |objects|
  {
    if objects == [] {
      SplitWithoutSeparator("", "\n");
    } else {
      var rest := objects[1..];
      assert forall k :: 0 <= k < |rest| ==> rest[k] == objects[k + 1];
      assert JsonLines(objects) == objects[0] + "\n" + JsonLines(rest);
      JsonLinesSplit(rest);
      NewlineSplitStep(objects[0], JsonLines(rest), Split(JsonLines(rest), "\n"));
      assert [objects[0]] + rest == objects;
    }
  }

  /** The encoded prompts, in order. */
  function PromptObjects(prompts: seq<ChatPrompt>): (objects: seq<GoString>)
    ensures |objects| == |prompts|
    ensures forall k :: 0 <= k < |prompts| ==> objects[k] == PromptJson(prompts[k])
  {
    seq(|prompts|, k requires 0 <= k < |prompts| => PromptJson(prompts[k]))
  }

  /** The encoding loop of `main`: one `Encode` call per prompt. */
  method WriteJsonl(prompts: seq<ChatPrompt>) returns (file: GoString)
    ensures file == JsonLines(PromptObjects(prompts))
  {
    file := "";
    var i := 0;
    while i < |prompts|
      invariant 0 <= i <= |prompts|
      invariant file == JsonLines(PromptObjects(prompts)[..i])
    {
      WriteStep(prompts, i);
      file := file + PromptJson(prompts[i]) + "\n";
      i := i + 1;
    }
    assert PromptObjects(prompts)[..i] == PromptObjects(prompts);
  }

  lemma WriteStep(prompts: seq<ChatPrompt>, i: nat)
    requires i < |prompts|
    ensures JsonLines(PromptObjects(prompts)[..i + 1]) == JsonLines(PromptObjects(prompts)[..i]) + PromptJson(prompts[i]) + "\n"
  {
    var objects := PromptObjects(prompts);
    assert objects[..i + 1] == objects[..i] + [objects[i]];
    JsonLinesSnoc(objects[..i], objects[i]);
  }

  /** Each prompt occupies exactly one line of the file, in list order. */
  lemma DataFileLines(prompts: seq<ChatPrompt>)
    ensures Split(JsonLines(PromptObjects(prompts)), "\n") == PromptObjects(prompts) + [""]
  {
    forall k | 0 <= k < |prompts| ensures '\n' !in PromptObjects(prompts)[k] {
      PromptJsonOneLine(prompts[k]);
    }
    JsonLinesSplit(PromptObjects(prompts));
  }

  /**
   * `main` after reading the files: the prompts are built, shuffled, and
   * written; the shuffled list is a permutation of the built one and the file
   * holds one line per shuffled prompt.
   */
  method PrepareData(incorrect: seq<GoString>, correct: seq<GoString>, draw: nat -> nat)
    returns (built: seq<ChatPrompt>, shuffled: seq<ChatPrompt>, file: GoString)
    ensures |built| == PromptCount(|incorrect|, Threshold) + PromptCount(|correct|, Threshold)
    ensures forall i :: 0 <= i < PromptCount(|incorrect|, Threshold) ==> built[i] == Prompt(incorrect[i], false)
    ensures forall i :: PromptCount(|incorrect|, Threshold) <= i < |built| ==>
              built[i] == Prompt(correct[i - PromptCount(|incorrect|, Threshold)], true)
    ensures multiset(shuffled) == multiset(built)
    ensures Split(file, "\n") == PromptObjects(shuffled) + [""]
  {
    built := BuildPrompts(incorrect, correct);
    var a := new ChatPrompt[|built|](i requires 0 <= i < |built| => built[i]);
    assert a[..] == built;
    Shuffle(a, draw);
    shuffled := a[..];
    file := WriteJsonl(shuffled);
    DataFileLines(shuffled);
  }
}
