/**
 * The string work of the article-indexing exercise (go/s0205/main.go): the
 * `key=value` question list, the context line of a media element, the local
 * name and URL of a media file, the index entries, and the request parts
 * built from the downloaded files.
 *
 * HTML parsing is not modelled: an element arrives as its attributes and its
 * parent's tag and text. Downloads only log their failures and are left out.
 * The index file is the concatenation of what is written to it; here each
 * section is the sequence of its writes.
 */
module ArxivIndex {
  import opened Wrappers
  import opened Strings
  import opened Decimal
  import opened Seqs
  import opened GenAi

  // ---------------------------------------------------------------------
  // fetchQuestions

  /** The HTTP fetch of the question list: a status and body, or a transport error. */
  datatype HttpReply = Reply(status: int, body: GoString) | Unreachable

  /**
   * One line of the question list: split at the first "=" only, key and
   * value trimmed; a line without "=" gives nothing.
   */
  function Entry(line: GoString): (r: Option<(GoString, GoString)>)
    ensures r.Some? <==> Contains(line, "=")
  {
    var parts := SplitFirst(line, "=");
    if |parts| == 2 then Some((TrimSpace(parts[0]), TrimSpace(parts[1]))) else None
  }

  predicate DefinesKey(line: GoString, key: GoString) {
    Entry(line).Some? && Entry(line).value.0 == key
  }

  /** One assignment of the parsing loop: an entry sets its key, a line without one changes nothing. */
  function Assign(m: map<GoString, GoString>, e: Option<(GoString, GoString)>): map<GoString, GoString> {
    if e.None? then m else m[e.value.0 := e.value.1]
  }

  /** The map built from the lines, one assignment per entry, in line order. */
  function QuestionMap(lines: seq<GoString>): map<GoString, GoString>
    decreases |lines|
  {
    if lines == [] then map[] else Assign(QuestionMap(lines[..|lines| - 1]), Entry(lines[|lines| - 1]))
  }

  lemma QuestionMapSnoc(lines: seq<GoString>, i: nat)
    requires i < |lines|
    ensures QuestionMap(lines[..i + 1]) == Assign(QuestionMap(lines[..i]), Entry(lines[i]))
  {
    assert lines[..i + 1][..i] == lines[..i];
  }

  /** `fetchQuestions`: any transport error or non-200 status is fatal (`None`). */
  method FetchQuestions(reply: HttpReply) returns (questions: Option<map<GoString, GoString>>)
    ensures reply.Unreachable? || reply.status != 200 ==> questions.None?
    ensures reply.Reply? && reply.status == 200 ==> questions == Some(QuestionMap(Split(reply.body, "\n")))
  {
    if reply.Unreachable? || reply.status != 200 {
      return None;
    }
    var m: map<GoString, GoString> := map[];
    var lines := Split(reply.body, "\n");
    var i := 0;
    while i < |lines|
      invariant 0 <= i <= |lines|
      invariant m == QuestionMap(lines[..i])
    {
      QuestionMapSnoc(lines, i);
      m := ParseLine(m, lines[i]);
      i := i + 1;
    }
    assert lines[..i] == lines;
    return Some(m);
  }

  /** The body of the parsing loop for one line. */
  method ParseLine(m: map<GoString, GoString>, line: GoString) returns (m': map<GoString, GoString>)
    ensures m' == Assign(m, Entry(line))
  {
    m' := m;
    var parts := SplitFirst(line, "=");
    if |parts| == 2 {
      var key := TrimSpace(parts[0]);
      var value := TrimSpace(parts[1]);
      m' := m[key := value];
    }
  }

  /** A key is in the map exactly when some line with "=" defines it. */
  lemma {:induction false} QuestionMapKeys(lines: seq<GoString>, key: GoString)
    ensures key in QuestionMap(lines) <==> Any(lines, line => DefinesKey(line, key))
    decreases |lines|
  {
    if lines != [] {
      QuestionMapKeys(lines[..|lines| - 1], key);
      AnySnoc(lines, line => DefinesKey(line, key));
    }
  }

  /** The value of a key is the one on the last line that defines it. */
  lemma {:induction false} QuestionMapLastWins(lines: seq<GoString>, i: nat)
    requires i < |lines| && Entry(lines[i]).Some?
    requires forall j :: i < j < |lines| ==> !DefinesKey(lines[j], Entry(lines[i]).value.0)
    ensures Entry(lines[i]).value.0 in QuestionMap(lines)
    ensures QuestionMap(lines)[Entry(lines[i]).value.0] == Entry(lines[i]).value.1
    decreases |lines|
  {
    if i < |lines| - 1 {
      var init := lines[..|lines| - 1];
      assert init[i] == lines[i];
      QuestionMapLastWins(init, i);
    }
  }

  /**
   * A line is split at its first "=" only: whatever precedes it is the key
   * and everything after it, later "=" included, is the value, both trimmed.
   */
  lemma EntryOfLine(key: GoString, value: GoString)
    requires '=' !in key
    ensures Entry(key + "=" + value) == Some((TrimSpace(key), TrimSpace(value)))
  {
    FirstOccurrenceAfter(key, "=", value);
    var line := key + "=" + value;
    assert line[..|key|] == key;
    assert line[|key| + 1..] == value;
  }

  /** Every line with "=" has that shape, so `EntryOfLine` describes every entry. */
  lemma EntryShape(line: GoString)
    requires Contains(line, "=")
    ensures exists key, value :: '=' !in key && line == key + "=" + value
  {
    var parts := SplitFirst(line, "=");
    ContainsSingle(parts[0], '=');
    assert line == parts[0] + "=" + parts[1];
  }

  // ---------------------------------------------------------------------
  // getParentContext

  /**
   * The parent of a media element as `getParentContext` sees it: none, or
   * its first node (an element with its tag name, or another kind of node)
   * and its text.
   */
  datatype Parent = NoParent | Parent(isElement: bool, tag: GoString, text: GoString)

  /** "Brak elementu nadrzędnego", in UTF-8 bytes. */
  const NoParentText: GoString := "Brak elementu nadrz\U{C4}\U{99}dnego"
  const MaxContext: nat := 100
  const Ellipsis: GoString := "..."

  /** The parent's text, trimmed and cut to its first 100 bytes plus "..." when longer. */
  function ContextText(text: GoString): (r: GoString)
    ensures |r| <= MaxContext + |Ellipsis|
    ensures |TrimSpace(text)| <= MaxContext ==> r == TrimSpace(text)
    ensures |TrimSpace(text)| > MaxContext ==>
              |r| == MaxContext + |Ellipsis| && HasPrefix(TrimSpace(text), r[..MaxContext]) &&
              r[MaxContext..] == Ellipsis
  {
    var contextText := TrimSpace(text);
    if |contextText| > MaxContext then contextText[..MaxContext] + Ellipsis else contextText
  }

  function TagName(p: Parent): GoString
    requires p.Parent?
  {
    if p.isElement then p.tag else "unknown"
  }

  /** `getParentContext`: `<tag> - "text"`. */
  function ParentContext(p: Parent): (r: GoString)
    ensures p.NoParent? ==> r == NoParentText
    ensures p.Parent? ==> |r| == |TagName(p)| + 7 + |ContextText(p.text)| <= |TagName(p)| + 7 + MaxContext + |Ellipsis|
    ensures p.Parent? ==>
              r[..|TagName(p)| + 6] == "<" + TagName(p) + "> - \"" &&
              r[|TagName(p)| + 6..|r| - 1] == ContextText(p.text) && r[|r| - 1] == '"'
  {
    if p.NoParent? then NoParentText
    else
      var head := "<" + TagName(p) + "> - \"";
      Concat3(head, ContextText(p.text), "\"");
      head + ContextText(p.text) + "\""
  }

  // ---------------------------------------------------------------------
  // Media names and URLs

  /**
   * The local file name: `src` without its first two bytes (meant to drop
   * "./"). Go panics on a shorter `src`: `None`.
   */
  function MediaName(src: GoString): (name: Option<GoString>)
    ensures name.Some? <==> |src| >= 2
    ensures name.Some? ==> src == src[..2] + name.value
  {
    if |src| < 2 then None else Some(src[2..])
  }

  /** The download URL keeps the whole `src`. */
  function MediaUrl(host: GoString, src: GoString): (url: GoString)
    ensures |url| == |host| + 6 + |src|
    ensures HasPrefix(url, host + "/dane/") && url[|host| + 6..] == src
  {
    var url := host + "/dane/" + src;
    assert url[..|host| + 6] == host + "/dane/";
    url
  }

  /** A "./"-relative source is saved under its plain name but fetched with the "./" kept. */
  lemma MediaOfRelative(host: GoString, file: GoString)
    ensures MediaName("./" + file) == Some(file)
    ensures MediaUrl(host, "./" + file) == host + "/dane/./" + file
  {
    assert ("./" + file)[2..] == file;
  }

  // ---------------------------------------------------------------------
  // doAudioIndexing, doImagesIndexing, doTextIndexing

  /** An `<audio>` element: its own `src` attribute, those of its `<source>` children, its parent. */
  datatype Audio = Audio(src: Option<GoString>, sources: seq<Option<GoString>>, parent: Parent)

  /** An `<img>` element: its `src` and `alt` attributes, its parent. */
  datatype Image = Image(src: Option<GoString>, alt: Option<GoString>, parent: Parent)

  function AttrOr(a: Option<GoString>): GoString {
    if a.Some? then a.value else ""
  }

  /** The first `<source>` whose `src` is present and non-empty. */
  function FirstSource(sources: seq<Option<GoString>>): (r: Option<nat>)
    ensures r.Some? ==> r.value < |sources| && AttrOr(sources[r.value]) != ""
    ensures r.Some? ==> forall j :: 0 <= j < r.value ==> AttrOr(sources[j]) == ""
    ensures r.None? ==> forall j :: 0 <= j < |sources| ==> AttrOr(sources[j]) == ""
    decreases |sources|
  {
    if sources == [] then None
    else if AttrOr(sources[0]) != "" then Some(0)
    else match FirstSource(sources[1..])
      case None => None
      case Some(j) => Some(j + 1)
  }

  lemma FirstSourceAt(sources: seq<Option<GoString>>, j: nat)
    requires j < |sources| && AttrOr(sources[j]) != ""
    requires forall m :: 0 <= m < j ==> AttrOr(sources[m]) == ""
    ensures FirstSource(sources) == Some(j)
  {
    var r := FirstSource(sources);
    assert r.Some?;
  }

  /**
   * The source of an audio element: its own non-empty `src`, else the first
   * non-empty `src` among its `<source>` children, else "".
   */
  function AudioSrc(a: Audio): (src: GoString)
    ensures AttrOr(a.src) != "" ==> src == AttrOr(a.src)
    ensures AttrOr(a.src) == "" && FirstSource(a.sources).Some? ==> src == AttrOr(a.sources[FirstSource(a.sources).value])
    ensures AttrOr(a.src) == "" && FirstSource(a.sources).None? ==> src == ""
  {
    if AttrOr(a.src) != "" then AttrOr(a.src)
    else match FirstSource(a.sources)
      case None => ""
      case Some(j) => AttrOr(a.sources[j])
  }

  /** The source lookup of `doAudioIndexing`, as its loop over the `<source>` children does it. */
  method PickAudioSource(a: Audio) returns (src: GoString)
    ensures src == AudioSrc(a)
  {
    src := AttrOr(a.src);
    if a.src.None? || src == "" {
      var j := 0;
      while j < |a.sources|
        invariant 0 <= j <= |a.sources|
        invariant src == "" ==> forall m :: 0 <= m < j ==> AttrOr(a.sources[m]) == ""
        invariant src != "" ==> src == AudioSrc(a)
      {
        var val := a.sources[j];
        if val.Some? && src == "" {
          src := val.value;
          if src != "" {
            FirstSourceAt(a.sources, j);
          }
        }
        j := j + 1;
      }
    }
  }

  /** "- Dźwięk " in UTF-8 bytes. */
  const AudioLabel: GoString := "- D\U{C5}\U{BA}wi\U{C4}\U{99}k "
  const ImagesHeader: GoString := "\n## Obrazy\n\n"
  /** "\n## Dźwięki\n" followed by the newline `Fprintln` adds, in UTF-8 bytes. */
  const AudioHeader: GoString := "\n## D\U{C5}\U{BA}wi\U{C4}\U{99}ki\n\n"

  /** An element whose source is long enough to name a local file; a shorter one makes Go panic. */
  predicate Named(src: GoString) {
    |src| >= 2
  }

  /** The index line of audio element `i` (numbered from 0, printed from 1). */
  function AudioLine(host: GoString, i: nat, a: Audio): GoString
    requires Named(AudioSrc(a))
  {
    var src := AudioSrc(a);
    AudioLabel + NatToString(i + 1) + ": src='" + MediaUrl(host, src) + "', name='" + MediaName(src).value +
    "' Kontekst: " + ParentContext(a.parent) + "\n"
  }

  /** The index line of image `i` (numbered from 0, printed from 1). */
  function ImageLine(host: GoString, i: nat, img: Image): GoString
    requires Named(AttrOr(img.src))
  {
    var src := AttrOr(img.src);
    "- Obraz " + NatToString(i + 1) + ": src='" + MediaUrl(host, src) + "', alt='" + AttrOr(img.alt) +
    "', name='" + MediaName(src).value + "' Kontekst: " + ParentContext(img.parent) + "\n"
  }

  /**
   * `doImagesIndexing`: the header, then one numbered line per image in
   * document order, up to the first image whose `src` is too short, where Go
   * panics after the lines already written.
   */
  method IndexImages(host: GoString, images: seq<Image>) returns (writes: seq<GoString>, panicked: bool)
    ensures 1 <= |writes| <= |images| + 1 && writes[0] == ImagesHeader
    ensures forall k :: 0 <= k < |writes| - 1 ==> Named(AttrOr(images[k].src)) && writes[k + 1] == ImageLine(host, k, images[k])
    ensures panicked <==> |writes| - 1 < |images|
    ensures panicked ==> !Named(AttrOr(images[|writes| - 1].src))
  {
    writes := [ImagesHeader];
    var i := 0;
    while i < |images|
      invariant 0 <= i <= |images| && |writes| == i + 1 && writes[0] == ImagesHeader
      invariant forall k :: 0 <= k < i ==> Named(AttrOr(images[k].src)) && writes[k + 1] == ImageLine(host, k, images[k])
    {
      var img := images[i];
      var src := AttrOr(img.src);
      var alt := AttrOr(img.alt);
      if |src| < 2 {
        return writes, true;
      }
      var name := src[2..];
      src := MediaUrl(host, src);
      var context := ParentContext(img.parent);
      writes := writes + ["- Obraz " + NatToString(i + 1) + ": src='" + src + "', alt='" + alt +
                          "', name='" + name + "' Kontekst: " + context + "\n"];
      i := i + 1;
    }
    return writes, false;
  }

  /**
   * `doAudioIndexing`: the header, then one numbered line per audio element
   * in document order, up to the first one whose source is too short.
   */
  method IndexAudio(host: GoString, audios: seq<Audio>) returns (writes: seq<GoString>, panicked: bool)
    ensures 1 <= |writes| <= |audios| + 1 && writes[0] == AudioHeader
    ensures forall k :: 0 <= k < |writes| - 1 ==> Named(AudioSrc(audios[k])) && writes[k + 1] == AudioLine(host, k, audios[k])
    ensures panicked <==> |writes| - 1 < |audios|
    ensures panicked ==> !Named(AudioSrc(audios[|writes| - 1]))
  {
    writes := [AudioHeader];
    var i := 0;
    while i < |audios|
      invariant 0 <= i <= |audios| && |writes| == i + 1 && writes[0] == AudioHeader
      invariant forall k :: 0 <= k < i ==> Named(AudioSrc(audios[k])) && writes[k + 1] == AudioLine(host, k, audios[k])
    {
      var src := PickAudioSource(audios[i]);
      if |src| < 2 {
        return writes, true;
      }
      var name := src[2..];
      src := MediaUrl(host, src);
      var context := ParentContext(audios[i].parent);
      writes := writes + [AudioLabel + NatToString(i + 1) + ": src='" + src + "', name='" + name +
                          "' Kontekst: " + context + "\n"];
      i := i + 1;
    }
    return writes, false;
  }

  /** The bullet written for a paragraph text. */
  function Bullet(text: GoString): GoString {
    "- " + text + "\n"
  }

  predicate NonEmpty(text: GoString) {
    text != ""
  }

  /** "## Treść tekstowa\n" followed by the newline `Fprintln` adds, in UTF-8 bytes. */
  const TextHeader: GoString := "## Tre\U{C5}\U{9B}\U{C4}\U{87} tekstowa\n\n"

  /** `doTextIndexing`: the header, then a bullet for each non-empty paragraph text. */
  method IndexText(paragraphs: seq<GoString>) returns (writes: seq<GoString>)
    ensures writes == [TextHeader] + Collect(paragraphs, NonEmpty, Bullet)
  {
    writes := [TextHeader];
    var i := 0;
    while i < |paragraphs|
      invariant 0 <= i <= |paragraphs|
      invariant writes == [TextHeader] + Collect(paragraphs[..i], NonEmpty, Bullet)
    {
      CollectSnoc(paragraphs, i, NonEmpty, Bullet);
      var text := paragraphs[i];
      if text != "" {
        writes := writes + ["- " + text + "\n"];
      }
      i := i + 1;
    }
    assert paragraphs[..i] == paragraphs;
  }

  /**
   * The text section has one bullet per non-empty paragraph, in document
   * order, and none for an empty one.
   */
  lemma TextBullets(paragraphs: seq<GoString>)
    ensures var bullets := Collect(paragraphs, NonEmpty, Bullet);
      var idx := KeptIndexes(paragraphs, NonEmpty);
      |bullets| == |idx| &&
      (forall k :: 0 <= k < |idx| ==> paragraphs[idx[k]] != "" && bullets[k] == "- " + paragraphs[idx[k]] + "\n") &&
      (forall i :: 0 <= i < |paragraphs| && paragraphs[i] != "" ==> i in idx)
  {
    CollectIsKeptInOrder(paragraphs, NonEmpty, Bullet);
  }

  // ---------------------------------------------------------------------
  // prepareMessages

  /** A downloaded file: its name in the directory and its bytes. */
  datatype DirFile = DirFile(name: GoString, content: GoString)

  /** The parts one file contributes: ".png" is tested before ".mp3"; other files add none. */
  function FileParts(f: DirFile): (parts: seq<Part>)
    ensures |parts| == 0 || |parts| == 2
    ensures |parts| == 2 <==> Contains(f.name, ".png") || Contains(f.name, ".mp3")
    ensures |parts| == 2 ==> parts[0] == Text(f.name) && parts[1].Blob? && parts[1].data == f.content
    ensures |parts| == 2 ==> (parts[1].mimeType == "image/png" <==> Contains(f.name, ".png"))
  {
    if Contains(f.name, ".png") then [Text(f.name), ImageData("png", f.content)]
    else if Contains(f.name, ".mp3") then [Text(f.name), Blob("audio/mp3", f.content)]
    else []
  }

  predicate IsMedia(f: DirFile) {
    Contains(f.name, ".png") || Contains(f.name, ".mp3")
  }

  function AllParts(files: seq<DirFile>): seq<seq<Part>> {
    seq(|files|, k requires 0 <= k < |files| => FileParts(files[k]))
  }

  /** `prepareMessages`, over the directory listing in order. */
  method PrepareMessages(files: seq<DirFile>) returns (requestContent: seq<Part>)
    ensures requestContent == Flatten(AllParts(files))
  {
    requestContent := [];
    var i := 0;
    while i < |files|
      invariant 0 <= i <= |files|
      invariant requestContent == Flatten(AllParts(files)[..i])
    {
      FlattenSnoc(AllParts(files), i);
      var file := files[i];
      if Contains(file.name, ".png") {
        requestContent := requestContent + [Text(file.name), ImageData("png", file.content)];
      } else if Contains(file.name, ".mp3") {
        requestContent := requestContent + [Text(file.name), Blob("audio/mp3", file.content)];
      }
      i := i + 1;
    }
    assert AllParts(files)[..i] == AllParts(files);
  }

  /** Every image or audio file adds exactly two parts; nothing else adds any. */
  lemma {:induction false} PartsCount(files: seq<DirFile>)
    ensures |Flatten(AllParts(files))| == 2 * CountKept(files, IsMedia)
    decreases |files|
  {
    if files != [] {
      var n := |files| - 1;
      assert AllParts(files)[..n] == AllParts(files[..n]);
      PartsCount(files[..n]);
      assert AllParts(files)[..n + 1] == AllParts(files);
      FlattenSnoc(AllParts(files), n);
    }
  }
}
