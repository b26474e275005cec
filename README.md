# Verified model of the string and record logic of the ai_devs exercises

This project models, in Dafny, the parts of the exercise programs that are
logic rather than plumbing. Each part is a small parser, a dispatch chain or
a record-repair loop inside a program that otherwise reads files, calls a
language model and posts an answer over HTTP. The modelled parts are:

- **Article indexing** (`go/s0205/main.go`, module `ArxivIndex`). The
  `key=value` question list, the context line of a media element, the local
  name and download URL of a media file, the three index sections, and the
  request parts built from the downloaded files.
- **Database dialogue** (`go/s0303/main.go`, module `DatabaseLoop`). The
  loop that runs each `query:` reply against the database and feeds the
  body back to the model, then the handling of the final `answer:` reply.
- **Calibration repair**, in both versions. The Go version is
  `go/s0103/main.go` (module `CalibrationGo`) and the Python version is
  `python/s0103/main.py` (module `CalibrationPy`). Each collects the open
  test questions, merges the model's answers into the records in place, and
  recomputes each record's `a + b` sum. The Python version also has its
  `to_dict`/`from_dict` serialisers.
- **Fine-tuning data** (`go/s0402/prepare_data.go`, module
  `FinetunePrepare`, and `go/s0402/validate.go`, module `FinetuneValidate`).
  Lines become labelled three-message prompts, which are shuffled and written
  as JSON lines. The validator splits each line into id and payload and
  keeps the ids the model answers exactly `"Y"`.
- **File categoriser** (`go/s0204/main.go`, module `Categorize`). It
  dispatches on the file type and buckets files by the words in the reply.
- **Drone webhook** (`go/s0404/main.go`, module `Webhook`). The handler's
  chain of early returns and the JSON wrapping of the model's answer.

Shared modules:

- `Strings`: Go's `Contains`, `Split`, `SplitN(…, 2)`, `TrimPrefix` and
  `TrimSpace`, and Python's `split`.
- `Seqs`: order-preserving selection.
- `GoNumbers`: `strconv.Atoi` and 64-bit wrap-around.
- `PyNumbers`: Python's `int()` on a string.
- `PyJson`: decoded JSON as Python sees it.
- `GoJson`: the string escaping of Go's JSON encoder.
- `Chat` and `GenAi`: the message and part types of the two model clients.

A Go string is a sequence of bytes. Here it is a `seq<char>` in which every
`char` stands for one byte, so slicing by index is slicing by byte. The
Polish headers are written out as their UTF-8 bytes.

The language model, the HTTP database, the directory listing and the random
source are all parameters. The model is a function from a request to a reply
(or a failure). In the unbounded s0303 loop it is a finite script of replies.

The final answer of s0303 is split on `","` with no trimming of the pieces, so
`"answer: 123, 321"` yields `"123"` and `" 321"`, not `"321"` (see
`DatabaseLoop.AnswerKeepsInnerSpaces`).

## Model

| member | source | states |
|---|---|---|
| ArxivIndex.Entry | go/s0205/main.go:260-264 | a line yields an entry exactly when it contains "=" |
| ArxivIndex.EntryOfLine | go/s0205/main.go:260-264 | a line is split at its first "=" only: the key is what precedes it, the value is everything after it (later "=" included), both trimmed |
| ArxivIndex.EntryShape | go/s0205/main.go:260-261 | every line with "=" is `key + "=" + value` with no "=" in the key, so `EntryOfLine` covers every entry |
| ArxivIndex.ParseLine | go/s0205/main.go:259-265 | one pass of the parsing loop: an entry sets its key, any other line leaves the map unchanged |
| ArxivIndex.FetchQuestions | go/s0205/main.go:243-266 | a transport error or a status other than 200 is fatal; otherwise the map is the line-by-line assignment over the body split on "\n" |
| ArxivIndex.QuestionMapKeys | go/s0205/main.go:258-266 | a key is in the map exactly when some line with "=" defines it |
| ArxivIndex.QuestionMapLastWins | go/s0205/main.go:264 | the value of a key comes from the last line that defines it |
| ArxivIndex.ContextText | go/s0205/main.go:200-203 | the trimmed parent text is kept when at most 100 bytes long; otherwise it becomes its first 100 bytes plus "...", 103 bytes in all |
| ArxivIndex.ParentContext | go/s0205/main.go:189-206 | no parent gives "Brak elementu nadrzędnego"; otherwise the result is `<tag> - "text"`, with the tag "unknown" for a non-element node |
| ArxivIndex.MediaName | go/s0205/main.go:114 | the local name is `src` without its first two bytes; a shorter `src` makes Go panic |
| ArxivIndex.MediaUrl | go/s0205/main.go:115 | the URL is `host + "/dane/" + src`, with the whole original `src` |
| ArxivIndex.MediaOfRelative | go/s0205/main.go:114-115 | `./file` is saved as `file` but fetched with its `./` kept |
| ArxivIndex.FirstSource | go/s0205/main.go:108-112 | the first `<source>` child with a non-empty `src`, and none before it has one |
| ArxivIndex.AudioSrc | go/s0205/main.go:106-112 | an audio element's own non-empty `src` wins; otherwise the first non-empty `<source>` `src`; otherwise "" |
| ArxivIndex.PickAudioSource | go/s0205/main.go:106-113 | the loop over the `<source>` children computes `AudioSrc` |
| ArxivIndex.IndexImages | go/s0205/main.go:128-146 | the header, then line k+1 for image k (numbered from 1, URL, alt, name, context) in document order, up to the first image whose `src` is too short, where it panics |
| ArxivIndex.IndexAudio | go/s0205/main.go:103-126 | the header, then one numbered line per audio element in document order, up to the first one whose source is too short |
| ArxivIndex.IndexText | go/s0205/main.go:148-156 | the header, then `"- " + text` for each non-empty paragraph, in order |
| ArxivIndex.TextBullets | go/s0205/main.go:150-155 | one bullet per non-empty paragraph, in document order, and none for an empty one |
| ArxivIndex.FileParts | go/s0205/main.go:296-302 | a name containing ".png" (tested first) or ".mp3" adds exactly two parts, the name then the data with its MIME type; any other name adds none |
| ArxivIndex.PrepareMessages | go/s0205/main.go:283-305 | the parts of every file in directory order, concatenated |
| ArxivIndex.PartsCount | go/s0205/main.go:296-302 | the request has twice as many parts as there are image or audio files |
| DatabaseLoop.CallDbApi | go/s0303/main.go:210-214 | the body is returned exactly when the status is 200; any other status is an error |
| DatabaseLoop.QueryTextCases | go/s0303/main.go:106 | "query:" is removed only as a prefix, then the text is trimmed |
| DatabaseLoop.AnswerIds | go/s0303/main.go:120-125 | an answer exists exactly when the final reply contains "answer:" |
| DatabaseLoop.AnswerPieces | go/s0303/main.go:121-122 | the answer has one piece per comma plus one, the pieces joined with commas give back the trimmed text, and no piece holds a comma |
| DatabaseLoop.AnswerKeepsInnerSpaces | go/s0303/main.go:121-122 | "answer: 123, 321" yields "123" and " 321": the pieces are not trimmed |
| DatabaseLoop.Converse | go/s0303/main.go:98-126 | the imperative loop ends with the outcome, conversation and queries of the reference `Dialogue` |
| DatabaseLoop.DialogueStep | go/s0303/main.go:105-111 | a query answered with status 200 issues that query and continues with one more message |
| DatabaseLoop.DialogueQueries | go/s0303/main.go:99-116 | the queries issued come from the leading replies that contain "query:" (a reply with both markers is a query), in order |
| DatabaseLoop.DialogueDataMessages | go/s0303/main.go:111 | the final conversation is the initial one followed by one "Additional Data: " + body message per served query; earlier messages are never changed |
| DatabaseLoop.DialogueServedOk | go/s0303/main.go:107-111 | every served query got status 200 |
| DatabaseLoop.DialogueFailedLast | go/s0303/main.go:107-110 | a failed database call is fatal and ends the run at the last query issued |
| DatabaseLoop.DialogueEnd | go/s0303/main.go:113-125 | the loop stops at the first reply without "query:", and that reply alone decides between the answer and the fatal "unknown response type" |
| CalibrationGo.CollectQuestions | go/s0103/main.go:59-64 | the collection loop yields the open questions |
| CalibrationGo.OpenQuestionsExactly | go/s0103/main.go:59-68 | the questions sent are exactly the non-empty questions of the non-nil tests, in record order; the list is empty (fatal) exactly when no record has one |
| CalibrationGo.FirstMatch | go/s0103/main.go:82-87 | the first reply pair with an equal question, and no earlier pair has it |
| CalibrationGo.MergeTest | go/s0103/main.go:79-88 | a nil test stays nil; a test with empty question and answer is cleared; any other keeps its question and takes the first matching answer, or stays unchanged |
| CalibrationGo.UpdateTest | go/s0103/main.go:79-88 | the inner loop computes `MergeTest` |
| CalibrationGo.ValidateCalculation | go/s0103/main.go:122-127 | a question without " + " panics; otherwise the result is a 64-bit int |
| CalibrationGo.ValidateCalculationOfSum | go/s0103/main.go:122-127 | "x + y" written in decimal gives the 64-bit wrapped sum of x and y |
| CalibrationGo.ValidateCalculationUnparsable | go/s0103/main.go:124 | a left side that is not a decimal number counts as 0 |
| GoNumbers.AtoiOfDecimal | go/s0103/main.go:124-125 | `strconv.Atoi` reads back every int64 from its decimal rendering |
| GoNumbers.AtoiRejects | go/s0103/main.go:124-125 | a short text that is not a sign followed by digits reads as 0, its error ignored |
| GoNumbers.WrapInt64 | go/s0103/main.go:126 | Go's int addition: the sum wrapped into the int64 range, congruent modulo 2^64 |
| CalibrationGo.Repair | go/s0103/main.go:78-90 | a repaired record keeps its question, gets the merged test and the recomputed answer; it exists exactly when the question contains " + " |
| CalibrationGo.Merge | go/s0103/main.go:78-90 | in place, every record becomes its repair; on a panic the records before it are repaired, the record at fault has only its test merged, and the rest are untouched |
| CalibrationGo.Calibrate | go/s0103/main.go:59-90 | the run is fatal for lack of questions exactly when no record has an open question; a reply that does not decode is fatal; in both cases nothing changes. With decoded replies the run completes exactly when every question contains " + ", and then every record is repaired; otherwise it panics at the first record without " + ", after repairing the ones before it and merging that record's test, and the rest are untouched |
| CalibrationPy.TestToDict | python/s0103/main.py:28-32 | the test is written under "q" and "a" |
| CalibrationPy.TestFromDict | python/s0103/main.py:34-39 | reading works exactly on a dict; anything else raises `AttributeError` |
| CalibrationPy.TestRoundTrip | python/s0103/main.py:28-39 | `Test.from_dict(t.to_dict())` gives back the same question and answer |
| CalibrationPy.TestDataToDict | python/s0103/main.py:52-57 | question, answer and test are written, with `None` for a missing test |
| CalibrationPy.TestDataRoundTrip | python/s0103/main.py:52-65 | reading back a written record gives the same record |
| CalibrationPy.TestDataListRoundTrip | python/s0103/main.py:84-98 | reading back a written list of records gives the same list |
| CalibrationPy.CalibrationToDict | python/s0103/main.py:84-90 | the records are written under "test-data" |
| CalibrationPy.CalibrationFromDict | python/s0103/main.py:92-99 | a missing "test-data" makes the read raise |
| CalibrationPy.CalibrationRoundTrip | python/s0103/main.py:84-99 | calibration data is written and read back under the same keys, "test-data" included |
| CalibrationPy.FinalAnswerToDict | python/s0103/main.py:118-123 | the answer is written under "answer", with `None` when there is none |
| CalibrationPy.FinalAnswerRoundTrip | python/s0103/main.py:118-131 | reading back a written final answer gives the same value |
| CalibrationPy.ValidateCalculation | python/s0103/main.py:187-191 | a non-string question raises `AttributeError`, one without " + " raises `IndexError`, and a side `int()` rejects raises `ValueError` |
| CalibrationPy.AddInts | python/s0103/main.py:191 | `int(first) + int(second)` is their exact sum when both parse and raises `ValueError` otherwise |
| CalibrationPy.ValidateCalculationOfSum | python/s0103/main.py:187-191 | "x + y" written in decimal gives exactly x + y, with no wrap-around |
| CalibrationPy.ValidateCalculationRaises | python/s0103/main.py:187-191 | a side that is not an integer makes the calculation raise `ValueError` |
| PyNumbers.PyIntOfDecimal | python/s0103/main.py:191 | `int()` reads back every integer from its decimal rendering |
| PyNumbers.PyIntRejects | python/s0103/main.py:191 | `int()` raises on text with a character that is not white space `int()` ignores, a sign, an underscore or a digit |
| PyNumbers.FileSeparatorRejected | python/s0103/main.py:191 | `int()` ignores only tab to carriage return and space among ASCII white space: text starting with U+001C raises |
| CalibrationPy.ValidateCalculationFileSeparator | python/s0103/main.py:187-191 | "\x1c1 + 2" raises `ValueError` |
| CalibrationPy.HasOpenQuestion | python/s0103/main.py:204 | a question is sent exactly when the test exists, its question is not `None`, and it has a positive `len`; `len` of a number raises `TypeError` |
| CalibrationPy.OpenQuestionsCollect | python/s0103/main.py:202-205 | collection succeeds exactly when no `len` raises, and then yields the non-empty questions in record order |
| CalibrationPy.CollectQuestions | python/s0103/main.py:202-205 | the collection loop computes `OpenQuestions` |
| CalibrationPy.FirstMatch | python/s0103/main.py:217-220 | the first parsed reply whose question is `==` to the test's, and no earlier reply's is |
| CalibrationPy.MergeTest | python/s0103/main.py:217-220 | a test keeps its question and takes the first matching answer; it is never removed |
| CalibrationPy.UpdateTest | python/s0103/main.py:217-220 | the inner loop computes `MergeTest` |
| CalibrationPy.Repair | python/s0103/main.py:216-222 | a repaired record keeps its question, gets the merged test and the computed answer; it exists exactly when `validate_calculation` does not raise |
| CalibrationPy.Merge | python/s0103/main.py:216-222 | in place, every record becomes its repair; on an exception the records before it are repaired, the record at fault has only its test merged, and the rest are untouched |
| CalibrationPy.ParseAnswers | python/s0103/main.py:214 | a list reply is read item by item with `Test.from_dict` |
| CalibrationPy.JoinLines | python/s0103/main.py:168-172 | `"\n".join` succeeds exactly when every question is a `str`, and raises `TypeError` otherwise |
| CalibrationPy.JoinLinesSplit | python/s0103/main.py:171 | questions without a line break are found again, in order, when the message is split into lines |
| CalibrationPy.ListQuestionRaises | python/s0103/main.py:202-213 | a non-empty list as a test question passes the `len` filter, is collected, and makes the join raise `TypeError` |
| CalibrationPy.Calibrate | python/s0103/main.py:202-222 | exit status 1 happens exactly when no question is collected. A `len` error, a non-`str` question in the join (before the model is called), a reply that is not JSON and a bad reply item each end the run with that exception and change nothing. With parsed replies the run completes exactly when every record's calculation succeeds, and then every record is repaired; otherwise the first exception of the merge ends it, after repairing the records before that one and merging its test, and the rest are untouched |
| PyJson.MapItems | python/s0103/main.py:214 | a list comprehension yields every result in order, or raises the exception of the first item that raises |
| FinetunePrepare.Label | go/s0402/prepare_data.go:57 | the label is "Y" exactly for the correct set and "N" exactly for the incorrect one |
| FinetunePrepare.PromptCount | go/s0402/prepare_data.go:52 | the bound `i <= threshold` lets through `min(lines, threshold + 1)` lines, which is 101 for a threshold of 100 |
| FinetunePrepare.PrepareTrainingData | go/s0402/prepare_data.go:50-62 | `PromptCount` prompts; prompt i holds the system "Classify result", the user `content[i]` and the assistant label |
| FinetunePrepare.BuildPrompts | go/s0402/prepare_data.go:26-28 | the incorrect set's prompts come first, then the correct set's, each in line order |
| FinetunePrepare.Shuffle | go/s0402/prepare_data.go:30-32 | the shuffle only swaps, so the result is a permutation |
| GoJson.EscapeHasNoControl | go/s0402/prepare_data.go:43 | the encoder escapes every control byte, so an encoded string has no line break |
| GoJson.UnescapeEscape | go/s0402/prepare_data.go:43 | decoding the escaped body of a string gives back every byte |
| FinetunePrepare.PromptJsonOneLine | go/s0402/prepare_data.go:42-46 | an encoded prompt holds no newline |
| FinetunePrepare.JsonLinesSplit | go/s0402/prepare_data.go:42-46 | the file split on newlines gives back each object, then an empty rest |
| FinetunePrepare.WriteJsonl | go/s0402/prepare_data.go:40-46 | the file is each prompt's encoding followed by a newline, in list order |
| FinetunePrepare.DataFileLines | go/s0402/prepare_data.go:42-46 | each prompt occupies exactly one line of the file, in list order |
| FinetunePrepare.PrepareData | go/s0402/prepare_data.go:23-48 | the built prompts are the incorrect set's then the correct set's; the shuffled list is a permutation of them; the file has one line per shuffled prompt |
| FinetuneValidate.SplitLine | go/s0402/validate.go:43-44 | the id is bytes 0-1 and the payload bytes 3 on, with byte 2 dropped; a line shorter than 3 bytes panics |
| FinetuneValidate.Request | go/s0402/validate.go:45 | the request is a single user message holding the payload, with no system message |
| FinetuneValidate.Validate | go/s0402/validate.go:41-56 | one model call per line, in order; the run stops at the first short line (panic) or failed call (fatal); otherwise the report carries task "research" and the ids of the lines answered exactly "Y", in line order |
| FinetuneValidate.ReportedIds | go/s0402/validate.go:50-52 | the ids are those of exactly the lines whose reply is "Y", in line order |
| FinetuneValidate.FinalAnswerJson | go/s0402/validate.go:62-66 | with no id kept the answer is written as `null`, and only then |
| Categorize.FileParts | go/s0204/main.go:72-80 | names are tested for ".png", then ".txt", then ".mp3": an image adds one part, a text or audio file two; any other name is fatal |
| Categorize.Request | go/s0204/main.go:72-82 | the file's parts are followed by exactly one prompt part |
| Categorize.Category | go/s0204/main.go:87-95 | "PEOPLE" wins over "HARDWARE"; a reply with neither is dropped |
| Categorize.HandleCases | go/s0204/main.go:66-95 | an unreadable file, an unknown name and a failed model call each stop the run; otherwise the reply's category decides the bucket |
| Categorize.HandleFile | go/s0204/main.go:66-95 | the loop body computes `Handle` |
| Categorize.SortFile | go/s0204/main.go:87-95 | a sorted file's name goes to the end of its bucket's list, and to no other |
| Categorize.CategorizeFiles | go/s0204/main.go:62-99 | the run completes exactly when every file gets through; otherwise it stops at the first failing file; each list holds its files' names in directory order |
| Categorize.BucketsDisjoint | go/s0204/main.go:87-95 | no file lands in both lists, and the two lists together are no longer than the directory |
| Webhook.Handle | go/s0404/main.go:47-91 | non-POST gives 405; a body with "{{" gives 200 "thanks"; malformed JSON gives 400; a model error gives 500; a model answer gives 200 with its JSON |
| Webhook.HandleAsWritten | go/s0404/main.go:47-104 | as written, a model error exits the process, and every response it does give matches `Handle` without ever being a 500 |
| Webhook.DescriptionJson | go/s0404/main.go:74-78 | the body is `{"description":"…"}` plus a newline, and the escaped text decodes back to the model's answer |
| Webhook.MethodCheckFirst | go/s0404/main.go:48-52 | a non-POST request is refused whatever its body |
| Webhook.GuardBeforeJson | go/s0404/main.go:58-67 | a body containing "{{" gets 200 "thanks" even when it is not JSON and even when the model would fail |
| Webhook.DescriptionRoundTrip | go/s0404/main.go:74-78 | the model's answer is found intact between the fixed prefix and suffix of the body |
| Webhook.ModelErrorExits | go/s0404/main.go:69-73 | a valid body and a failing model: the intended handler answers 500, the one as written exits |

## Left out

- HTTP clients and servers, environment variables, `.env` loading, file reads and writes, and the `/report` posts are I/O. Their results are parameters, or the sequences of writes.
- The language model clients are foreign code. A reply is an input: a function from request to reply, or a script in s0303.
- `DatabaseLoop.Converse`: the s0303 loop has no bound. The script of replies makes it finite, and running out of script is an outcome of its own that the program itself never reaches.
- `DatabaseLoop.Converse`: a failed model call in s0303 (fatal at go/s0303/main.go:101-103) is not modelled, because the scripted replies never fail.
- HTML parsing (goquery) is a library. An element arrives as its attributes and its parent's tag and text.
- `ArxivIndex.IndexImages` and `ArxivIndex.IndexAudio` do not model the downloads between the lines. A failed download is only logged.
- JSON decoding of the calibration file, the model replies and the webhook body is library code. The Go programs get the decoded values; the webhook gets a `decode` parameter.
- `GoJson.Escape` does not model Go's handling of invalid UTF-8 or of U+2028 and U+2029, because each `char` stands for a byte and those cases need multi-byte sequences.
- `Strings.TrimSpace` trims ASCII white space only. Go also trims Unicode spaces, which only occur as multi-byte sequences.
- `rand.Shuffle` is random. `FinetunePrepare.Shuffle` takes the draws as a parameter and states only that the result is a permutation.
- `time.Sleep` is timing only and is left out.
- Python floats are not modelled. Python's `int()` is limited to ASCII digits; other Unicode digits are left out.
- The model's answers in Python are decoded values of any JSON type. Float values among them are not modelled.
- `resp.Choices[0]` panics on an empty choice list. This is inside foreign client code and is left out.
- The prompt texts (`systemPrompt`, `preparePrompt`, `prepareSystemMessage`) are parameters, since they are fixed text with no behaviour.
- Response headers in s0404 are left out. So is the `Encode` error branch at go/s0404/main.go:76-77: encoding one string cannot fail, so only a failed write to the connection reaches it, and that is I/O.
- Log output is left out everywhere.

## Findings

| source | as written | input that shows it | evidently intended | confidence | as-written member | corrected member |
|---|---|---|---|---|---|---|
| go/s0404/main.go:69-73, 98-100 | `callModel` calls `log.Fatalf` on a model error, which exits the whole server before `prepareResponse` can return the error, so the 500 branch of `webhookHandler` is dead | a POST with body `{"instruction":"lecimy"}` while the model call fails | the handler answers 500 "somthing went wrong while calling external source" and keeps serving | not executed | Webhook.HandleAsWritten (shown by Webhook.ModelErrorExits) | Webhook.Handle |
