/**
 * The file categoriser (go/s0204/main.go, `categorizeFiles`): each file of
 * the directory is sent to the model with a request chosen by its name, and
 * its name is put in the people list or the hardware list by the words in
 * the reply.
 *
 * The directory listing is a sequence of entries with their contents (or
 * `None` where `os.ReadFile` fails, as for a sub-directory); the model is a
 * parameter from request parts to reply; the prompt text is a parameter.
 */
module Categorize {
  import opened Wrappers
  import opened Strings
  import opened Seqs
  import opened Chat
  import opened GenAi

  datatype DirEntry = DirEntry(name: GoString, content: Option<GoString>)

  /**
   * The parts describing one file, tested in the order ".png", ".txt",
   * ".mp3" (by substring, anywhere in the name); `None` for any other name,
   * which is fatal.
   */
  function FileParts(name: GoString, content: GoString): (parts: Option<seq<Part>>)
    ensures parts.Some? <==> Contains(name, ".png") || Contains(name, ".txt") || Contains(name, ".mp3")
    ensures Contains(name, ".png") ==> parts == Some([ImageData("png", content)])
    ensures !Contains(name, ".png") && Contains(name, ".txt") ==> parts == Some([Text(name), Text(content)])
    ensures !Contains(name, ".png") && !Contains(name, ".txt") && Contains(name, ".mp3") ==>
              parts == Some([Text(name), Blob("audio/mp3", content)])
  {
    if Contains(name, ".png") then Some([ImageData("png", content)])
    else if Contains(name, ".txt") then Some([Text(name), Text(content)])
    else if Contains(name, ".mp3") then Some([Text(name), Blob("audio/mp3", content)])
    else None
  }

  /** The request for one file: its parts, then the prompt as the last part. */
  function Request(name: GoString, content: GoString, prompt: GoString): (r: Option<seq<Part>>)
    ensures r.Some? <==> FileParts(name, content).Some?
    ensures r.Some? ==> |r.value| == |FileParts(name, content).value| + 1 && r.value[|r.value| - 1] == Text(prompt)
  {
    match FileParts(name, content)
    case None => None
    case Some(parts) => Some(parts + [Text(prompt)])
  }

  datatype Bucket = PeopleBucket | HardwareBucket | Unclassified

  /** "PEOPLE" anywhere wins over "HARDWARE" anywhere; a reply with neither is dropped. */
  function Category(reply: GoString): (b: Bucket)
    ensures b == PeopleBucket <==> Contains(reply, "PEOPLE")
    ensures b == HardwareBucket <==> !Contains(reply, "PEOPLE") && Contains(reply, "HARDWARE")
    ensures b == Unclassified <==> !Contains(reply, "PEOPLE") && !Contains(reply, "HARDWARE")
  {
    if Contains(reply, "PEOPLE") then PeopleBucket
    else if Contains(reply, "HARDWARE") then HardwareBucket
    else Unclassified
  }

  /** Why the run stops: the file cannot be read, its name has no known type, or the model fails. */
  datatype Failure = Unreadable | UnknownType | ModelError

  datatype Outcome = Fatal(file: nat, reason: Failure) | Classified(people: seq<GoString>, hardware: seq<GoString>)

  /** What the loop body does with one file: stop the run, or sort the file. */
  datatype FileResult = Failed(reason: Failure) | Sorted(bucket: Bucket)

  function Handle(model: seq<Part> -> ModelReply, prompt: GoString, f: DirEntry): FileResult {
    if f.content.None? then Failed(Unreadable)
    else match Request(f.name, f.content.value, prompt)
      case None => Failed(UnknownType)
      case Some(request) => if model(request).ModelFailed? then Failed(ModelError) else Sorted(Category(model(request).text))
  }

  /**
   * What happens to one file: an unreadable file, an unknown name and a
   * failed model call each stop the run; otherwise the reply's category
   * decides the bucket.
   */
  lemma HandleCases(model: seq<Part> -> ModelReply, prompt: GoString, f: DirEntry)
    ensures var r := Handle(model, prompt, f);
      (r == Failed(Unreadable) <==> f.content.None?) &&
      (r == Failed(UnknownType) <==> f.content.Some? && FileParts(f.name, f.content.value).None?) &&
      (r == Failed(ModelError) <==> f.content.Some? && Request(f.name, f.content.value, prompt).Some? &&
                                    model(Request(f.name, f.content.value, prompt).value).ModelFailed?) &&
      (r.Sorted? ==> f.content.Some? && Request(f.name, f.content.value, prompt).Some? &&
                     model(Request(f.name, f.content.value, prompt).value).Replied? &&
                     r.bucket == Category(model(Request(f.name, f.content.value, prompt).value).text))
  {
  }

  /** The test that puts a file in the list of `bucket`. */
  function Sorts(model: seq<Part> -> ModelReply, prompt: GoString, bucket: Bucket): DirEntry -> bool {
    f => Handle(model, prompt, f) == Sorted(bucket)
  }

  function Name(f: DirEntry): GoString {
    f.name
  }

  /** One pass of the loop body: build the request, call the model, pick the bucket. */
  method HandleFile(file: DirEntry, model: seq<Part> -> ModelReply, prompt: GoString)
    returns (r: FileResult)
    ensures r == Handle(model, prompt, file)
  {
    if file.content.None? {
      return Failed(Unreadable);
    }
    var fileContent := file.content.value;
    var requestContent: seq<Part>;
    if Contains(file.name, ".png") {
      requestContent := [ImageData("png", fileContent)];
    } else if Contains(file.name, ".txt") {
      requestContent := [Text(file.name), Text(fileContent)];
    } else if Contains(file.name, ".mp3") {
      requestContent := [Text(file.name), Blob("audio/mp3", fileContent)];
    } else {
      return Failed(UnknownType);
    }
    requestContent := requestContent + [Text(prompt)];
    var category := model(requestContent);
    if category.ModelFailed? {
      return Failed(ModelError);
    }
    if Contains(category.text, "PEOPLE") {
      r := Sorted(PeopleBucket);
    } else if Contains(category.text, "HARDWARE") {
      r := Sorted(HardwareBucket);
    } else {
      r := Sorted(Unclassified);
    }
  }

  /** The loop body with its appends: a sorted file's name goes to the end of its list. */
  method SortFile(file: DirEntry, model: seq<Part> -> ModelReply, prompt: GoString,
                  people: seq<GoString>, hardware: seq<GoString>)
    returns (r: FileResult, people': seq<GoString>, hardware': seq<GoString>)
    ensures r == Handle(model, prompt, file)
    ensures people' == people + (if Sorts(model, prompt, PeopleBucket)(file) then [Name(file)] else [])
    ensures hardware' == hardware + (if Sorts(model, prompt, HardwareBucket)(file) then [Name(file)] else [])
  {
    r := HandleFile(file, model, prompt);
    people', hardware' := people, hardware;
    if r == Sorted(PeopleBucket) {
      people' := people + [file.name];
    } else if r == Sorted(HardwareBucket) {
      hardware' := hardware + [file.name];
    }
  }

  /** Every file before position `n` gets through the loop body. */
  predicate SortedBefore(model: seq<Part> -> ModelReply, prompt: GoString, files: seq<DirEntry>, n: nat)
    requires n <= |files|
  {
    forall k :: 0 <= k < n ==> Handle(model, prompt, files[k]).Sorted?
  }

  /**
   * `categorizeFiles`: the files in directory order, one model call each;
   * the first unreadable file, unknown name or model error ends the run.
   * Otherwise each list holds the names of its files, in directory order.
   */
  method CategorizeFiles(files: seq<DirEntry>, model: seq<Part> -> ModelReply, prompt: GoString) returns (outcome: Outcome)
    ensures outcome.Classified? <==> SortedBefore(model, prompt, files, |files|)
    ensures outcome.Fatal? ==>
              outcome.file < |files| && Handle(model, prompt, files[outcome.file]) == Failed(outcome.reason) &&
              SortedBefore(model, prompt, files, outcome.file)
    ensures outcome.Classified? ==>
              outcome.people == Collect(files, Sorts(model, prompt, PeopleBucket), Name) &&
              outcome.hardware == Collect(files, Sorts(model, prompt, HardwareBucket), Name)
  {
    var people: seq<GoString> := [];
    var hardware: seq<GoString> := [];
    var i := 0;
    while i < |files|
      invariant 0 <= i <= |files|
      invariant SortedBefore(model, prompt, files, i)
      invariant people == Collect(files[..i], Sorts(model, prompt, PeopleBucket), Name)
      invariant hardware == Collect(files[..i], Sorts(model, prompt, HardwareBucket), Name)
    {
      CollectSnoc(files, i, Sorts(model, prompt, PeopleBucket), Name);
      CollectSnoc(files, i, Sorts(model, prompt, HardwareBucket), Name);
      var file := files[i];
      var r;
      r, people, hardware := SortFile(file, model, prompt, people, hardware);
      if r.Failed? {
        assert !Handle(model, prompt, files[i]).Sorted?;
        return Fatal(i, r.reason);
      }
      i := i + 1;
    }
    assert files[..i] == files;
    return Classified(people, hardware);
  }

  /**
   * Each file lands in at most one list: no position is kept by both, and
   * the two lists together are no longer than the directory.
   */
  lemma {:induction false} BucketsDisjoint(files: seq<DirEntry>, model: seq<Part> -> ModelReply, prompt: GoString)
    ensures var inPeople := KeptIndexes(files, Sorts(model, prompt, PeopleBucket));
      var inHardware := KeptIndexes(files, Sorts(model, prompt, HardwareBucket));
      forall k, l :: 0 <= k < |inPeople| && 0 <= l < |inHardware| ==> inPeople[k] != inHardware[l]
    ensures |Collect(files, Sorts(model, prompt, PeopleBucket), Name)| +
            |Collect(files, Sorts(model, prompt, HardwareBucket), Name)| <= |files|
    decreases |files|
  {
    CollectIsKeptInOrder(files, Sorts(model, prompt, PeopleBucket), Name);
    CollectIsKeptInOrder(files, Sorts(model, prompt, HardwareBucket), Name);
    ExclusiveCounts(files, Sorts(model, prompt, PeopleBucket), Sorts(model, prompt, HardwareBucket));
  }

  lemma {:induction false} ExclusiveCounts<T>(xs: seq<T>, p: T -> bool, q: T -> bool)
    requires forall x :: !(p(x) && q(x))
    ensures CountKept(xs, p) + CountKept(xs, q) <= |xs|
    decreases |xs|
  {
    if xs != [] {
      ExclusiveCounts(xs[..|xs| - 1], p, q);
    }
  }
}
