/** The map of a folder: what is printed for its files, and what the reader of a
    printed map lists for each. */
module CodeMap {
  import opened Sorting
  import opened Text
  import opened Wire

  datatype Name = Name(kind: string, signature: string, says: string)

  datatype File = File(
    path: string, isCode: bool, isTest: bool, firstLine: string, names: seq<Name>, more: nat, tests: nat)

  // ---------------------------------------------------------------- sorting by path

  /** Go's `<` on strings. */
  predicate Less(a: string, b: string) {
    if b == "" then false
    else if a == "" then true
    else a[0] < b[0] || (a[0] == b[0] && Less(a[1..], b[1..]))
  }

  lemma {:induction false} LessIsTotal(a: string, b: string)
    ensures Less(a, b) || Less(b, a) || a == b
    ensures !(Less(a, b) && Less(b, a)) && !Less(a, a)
  {
    if a != "" && b != "" && a[0] == b[0] {
      LessIsTotal(a[1..], b[1..]);
      assert a == [a[0]] + a[1..] && b == [b[0]] + b[1..];
    }
    if a != "" {
      LessIsTotal(a[1..], a[1..]);
    }
  }

  lemma {:induction false} LessIsTransitive(a: string, b: string, c: string)
    requires !Less(b, a) && !Less(c, b)
    ensures !Less(c, a)
  {
    if a != "" && c != "" && a[0] == c[0] && b != "" {
      if a[0] == b[0] {
        LessIsTransitive(a[1..], b[1..], c[1..]);
      }
    }
  }

  predicate ByPath(a: File, b: File) { Less(a.path, b.path) }

  lemma PathsAreAnOrder()
    ensures IsOrder(ByPath) && IsOrder(Less)
  {
    hide Less;
    forall a, b ensures Less(a, b) ==> !Less(b, a) {
      LessIsTotal(a, b);
    }
    forall a, b, c ensures !Less(b, a) && !Less(c, b) ==> !Less(c, a) {
      if !Less(b, a) && !Less(c, b) {
        LessIsTransitive(a, b, c);
      }
    }
  }

  // ---------------------------------------------------------------- printing

  /** Lines written one after another, each with its newline. */
  function Written(lines: seq<string>): string {
    if lines == [] then "" else lines[0] + "\n" + Written(lines[1..])
  }

  const NOTICE_BEGINS := [
    "This file is written by", "Nerd Genie at the end of", "every task of a job here.",
    "Do not edit it by hand;", "remove the mark above to"]

  const NOTICE_ENDS := [
    "keep your own. Find a", "file's functions with", "`read REPO_MAP.md <path>`", "before searching or",
    "reading for them."]

  const NOTICE := Join(NOTICE_BEGINS + NOTICE_ENDS, " ")

  const GENERATED_MARK := "<!-- generated: nerdgenie -->"

  function RootOf(path: string): string {
    match Cut(path, '/')
    case None => "./"
    case Some((root, _)) => root + "/"
  }

  function RootsOf(files: seq<File>): seq<string> {
    if files == [] then []
    else
      var before, root := RootsOf(files[..|files| - 1]), RootOf(files[|files| - 1].path);
      if root in before then before else before + [root]
  }

  function CountOf(files: seq<File>, root: string): nat {
    if files == [] then 0
    else CountOf(files[..|files| - 1], root) + if RootOf(files[|files| - 1].path) == root then 1 else 0
  }

  function RootLine(files: seq<File>, root: string): string {
    "- `" + root + "` - " + Itoa(CountOf(files, root)) + " files"
  }

  function RootLines(files: seq<File>, roots: seq<string>): seq<string> {
    seq(|roots|, k requires 0 <= k < |roots| => RootLine(files, roots[k]))
  }

  function LegendLines(files: seq<File>): seq<string> {
    ["## Roots", ""] + RootLines(files, Sort(RootsOf(files), Less)) + [""]
  }

  function NameLine(name: Name): string {
    (if name.kind == "method" then "  - " else "- ") + "`" + name.signature + "`"
    + (if name.kind in {"class", "type", "const"} then " (" + name.kind + ")" else "")
    + (if name.says != "" then " \U{2192} " + name.says else "")
  }

  function NameLines(names: seq<Name>): seq<string> {
    seq(|names|, k requires 0 <= k < |names| => NameLine(names[k]))
  }

  function FirstLines(file: File): seq<string> { if file.firstLine != "" then [file.firstLine] else [] }

  function MoreLines(file: File): seq<string> {
    (if file.more > 0 then ["- and " + Itoa(file.more) + " more"] else [])
    + (if file.names == [] && file.more == 0 then ["- no names read"] else [])
  }

  function EntryLines(file: File): seq<string> {
    ["### " + file.path] + FirstLines(file) + NameLines(file.names) + MoreLines(file) + [""]
  }

  function CountText(file: File): string {
    Itoa(file.tests) + " " + if file.tests == 1 then "test" else "tests"
  }

  function CountLine(file: File): string { "- " + CountText(file) }

  function TestLines(file: File): seq<string> {
    ["### " + file.path] + FirstLines(file) + [CountLine(file)] + [""]
  }

  datatype Section = Source | Tests | Other

  function SectionOf(file: File): Section {
    if file.isCode && file.isTest then Tests else if file.isCode then Source else Other
  }

  function In(files: seq<File>, section: Section): seq<File> {
    if files == [] then []
    else
      var last := files[|files| - 1];
      In(files[..|files| - 1], section) + if SectionOf(last) == section then [last] else []
  }

  /** The lines of every entry of a section, one after another. */
  function Entries(files: seq<File>): seq<string> {
    if files == [] then []
    else
      var last := files[|files| - 1];
      Entries(files[..|files| - 1])
      + match SectionOf(last)
        case Source => EntryLines(last)
        case Tests => TestLines(last)
        case Other => [last.path]
  }

  function HeadOf(section: Section): seq<string> {
    match section
    case Source => ["## Source files", ""]
    case Tests => ["## Tests", ""]
    case Other => ["## Other files", "", "```text"]
  }

  function FootOf(section: Section): seq<string> { if section.Other? then ["```"] else [] }

  function SectionLines(files: seq<File>, section: Section): seq<string> {
    if files == [] then [] else HeadOf(section) + Entries(files) + FootOf(section)
  }

  function Preamble(name: string): seq<string> {
    ["# Repository Map: " + name, "", GENERATED_MARK, "", NOTICE, ""]
  }

  function MapLines(name: string, files: seq<File>): seq<string> {
    var sorted := Sort(files, ByPath);
    Preamble(name) + LegendLines(sorted) + SectionLines(In(sorted, Source), Source)
    + SectionLines(In(sorted, Tests), Tests) + SectionLines(In(sorted, Other), Other)
  }

  // ---------------------------------------------------------------- reading

  /** Where the reader is: the lines so far, the heading it is under, whether the line
      under it has been seen, and whether it is among the other files. */
  datatype Reader = Reader(files: seq<string>, heading: string, said: bool, inOtherFiles: bool, inFence: bool)

  const START := Reader([], "", false, false, false)

  function TrimPrefix(s: string, prefix: string): string { if prefix <= s then s[|prefix|..] else s }

  predicate IsATestCount(line: string) {
    var words := Fields(TrimPrefix(TrimSpace(line), "- "));
    |words| == 2 && (words[1] == "tests" || words[1] == "test") && AllDigits(words[0])
  }

  function AddToLast(files: seq<string>, more: string): seq<string>
    requires files != []
  {
    files[..|files| - 1] + [files[|files| - 1] + more]
  }

  predicate Ready(reader: Reader) { reader.heading != "" ==> reader.files != [] }

  function ReadLine(reader: Reader, raw: string): (after: Reader)
    requires Ready(reader)
    ensures Ready(after)
  {
    var line := TrimRight(raw, {'\r'});
    if "### " <= line then
      var heading := TrimSpace(line[4..]);
      reader.(heading := heading, said := false, files := reader.files + ["- " + heading])
    else if "## " <= line then
      reader.(heading := "", inOtherFiles := TrimSpace(line) == "## Other files")
    else if reader.inOtherFiles && "```" <= line then reader.(inFence := !reader.inFence)
    else if reader.inOtherFiles && reader.inFence && TrimSpace(line) != "" then
      reader.(files := reader.files + ["- " + TrimSpace(line)])
    else if reader.heading != "" && IsATestCount(line) then
      reader.(files := AddToLast(reader.files, " (" + TrimPrefix(TrimSpace(line), "- ") + ")"), said := true)
    else if reader.heading != "" && !reader.said && TrimSpace(line) != "" then
      var under := TrimSpace(line);
      if "- `" <= under || "- and " <= under then reader.(said := true)
      else reader.(said := true, files := AddToLast(reader.files, " \U{2014} " + TrimPrefix(under, "- ")))
    else reader
  }

  function ReadAll(reader: Reader, lines: seq<string>): (after: Reader)
    requires Ready(reader)
    ensures Ready(after)
    decreases |lines|
  {
    if lines == [] then reader else ReadAll(ReadLine(reader, lines[0]), lines[1..])
  }

  function FileLines(text: string): seq<string> { ReadAll(START, Lines(text)).files }

  lemma {:induction false} ReadAllOfAppend(reader: Reader, a: seq<string>, b: seq<string>)
    requires Ready(reader)
    ensures ReadAll(reader, a + b) == ReadAll(ReadAll(reader, a), b)
    decreases |a|
  {
    hide ReadLine;
    if a == [] {
      assert a + b == b;
    } else {
      assert (a + b)[0] == a[0] && (a + b)[1..] == a[1..] + b;
      ReadAllOfAppend(ReadLine(reader, a[0]), a[1..], b);
    }
  }

  // ---------------------------------------------------------------- the program's loops

  lemma {:induction false} WrittenOfAppend(a: seq<string>, b: seq<string>)
    ensures Written(a + b) == Written(a) + Written(b)
  {
    if a == [] {
      assert a + b == b;
    } else {
      assert (a + b)[0] == a[0] && (a + b)[1..] == a[1..] + b;
      WrittenOfAppend(a[1..], b);
    }
  }

  lemma WrittenOfOne(line: string)
    ensures Written([line]) == line + "\n"
  {
    assert [line][1..] == [];
  }

  /** One more line on what has been written. */
  lemma OneMoreLine(lines: seq<string>, line: string)
    ensures Written(lines + [line]) == Written(lines) + line + "\n"
  {
    WrittenOfAppend(lines, [line]);
    WrittenOfOne(line);
  }

  /** One line written to the builder, which held these lines after what came before. */
  method WriteLine(text: string, line: string, ghost before: string, ghost lines: seq<string>)
      returns (longer: string)
    requires text == before + Written(lines)
    ensures longer == text + line + "\n" && longer == before + Written(lines + [line])
  {
    OneMoreLine(lines, line);
    longer := text + line + "\n";
  }

  method PrintHeading(out: string, file: File) returns (text: string)
    ensures text == out + Written(["### " + file.path] + FirstLines(file))
  {
    hide Written;
    WrittenOfNothing();
    var heading := "### " + file.path;
    text := WriteLine(out, heading, out, []);
    assert [] + [heading] == [heading] && [heading] + [] == [heading];
    if file.firstLine != "" {
      text := WriteLine(text, file.firstLine, out, [heading]);
    }
  }

  method PrintEntry(out: string, file: File) returns (text: string)
    ensures text == out + Written(EntryLines(file))
  {
    hide Written, NameLine, FirstLines;
    ghost var top := ["### " + file.path] + FirstLines(file);
    text := PrintHeading(out, file);
    assert top + NameLines(file.names[..0]) == top;
    for i := 0 to |file.names|
      invariant text == out + Written(top + NameLines(file.names[..i]))
    {
      var line := PrintName(file.names[i]);
      text := WriteLine(text, line, out, top + NameLines(file.names[..i]));
      assert top + NameLines(file.names[..i + 1]) == top + NameLines(file.names[..i]) + [line];
    }
    assert file.names[..|file.names|] == file.names;
    text := PrintMore(text, file, out, top + NameLines(file.names));
    assert EntryLines(file) == top + NameLines(file.names) + MoreLines(file) + [""];
  }

  method PrintMore(out: string, file: File, ghost before: string, ghost lines: seq<string>) returns (text: string)
    requires out == before + Written(lines)
    ensures text == before + Written(lines + MoreLines(file) + [""])
  {
    hide Written, Itoa;
    text := out;
    assert lines + [] == lines;
    if file.more > 0 {
      text := WriteLine(text, "- and " + Itoa(file.more) + " more", before, lines);
      assert MoreLines(file) == ["- and " + Itoa(file.more) + " more"];
    } else if file.names == [] {
      text := WriteLine(text, "- no names read", before, lines);
      assert MoreLines(file) == ["- no names read"];
    } else {
      assert MoreLines(file) == [];
    }
    text := WriteLine(text, "", before, lines + MoreLines(file));
  }

  method PrintName(name: Name) returns (line: string)
    ensures line == NameLine(name)
  {
    var indent := "- ";
    if name.kind == "method" {
      indent := "  - ";
    }
    var shown := "`" + name.signature + "`";
    if name.kind in {"class", "type", "const"} {
      shown := shown + (" (" + name.kind + ")");
    }
    if name.says != "" {
      shown := shown + (" \U{2192} " + name.says);
    }
    line := indent + shown;
  }

  method PrintTest(out: string, file: File) returns (text: string)
    ensures text == out + Written(TestLines(file))
  {
    hide Written, Itoa, FirstLines;
    ghost var top := ["### " + file.path] + FirstLines(file);
    text := PrintHeading(out, file);
    var noun := "tests";
    if file.tests == 1 {
      noun := "test";
    }
    var count := "- " + (Itoa(file.tests) + " " + noun);
    text := WriteLine(text, count, out, top);
    text := WriteLine(text, "", out, top + [count]);
    assert TestLines(file) == top + [count] + [""];
  }

  /** The top folders in the order they are met, and how many files each holds. */
  method CountRoots(files: seq<File>) returns (roots: seq<string>, counts: map<string, nat>)
    ensures roots == RootsOf(files)
    ensures forall root | root in roots :: root in counts && counts[root] == CountOf(files, root)
  {
    hide RootOf;
    counts, roots := map[], [];
    for i := 0 to |files|
      invariant roots == RootsOf(files[..i])
      invariant forall root :: root in counts <==> root in roots
      invariant forall root | root in counts :: counts[root] == CountOf(files[..i], root) > 0
      invariant forall root | root !in counts :: CountOf(files[..i], root) == 0
    {
      assert files[..i + 1][..i] == files[..i];
      var root := RootOf(files[i].path);
      if root !in counts {
        roots := roots + [root];
      }
      counts := counts[root := (if root in counts then counts[root] else 0) + 1];
    }
    assert files[..|files|] == files;
  }

  /** One line per top folder with its count. */
  method PrintLegend(out: string, files: seq<File>) returns (text: string)
    ensures text == out + Written(LegendLines(files))
  {
    hide Written, RootLine, RootOf, RootsOf, CountOf;
    var roots, counts := CountRoots(files);
    var sorted := Sort(roots, Less);
    assert multiset(sorted) == multiset(roots);
    hide Sort;
    ghost var head := ["## Roots", ""];
    text := out + Written(["## Roots", ""]);
    assert head + RootLines(files, sorted[..0]) == head;
    for i := 0 to |sorted|
      invariant text == out + Written(head + RootLines(files, sorted[..i]))
    {
      var root := sorted[i];
      assert root in multiset(sorted) && root in multiset(roots);
      ARootLine(files, root);
      text := WriteLine(text, "- `" + root + "` - " + Itoa(counts[root]) + " files", out,
                        head + RootLines(files, sorted[..i]));
      assert head + RootLines(files, sorted[..i + 1]) == head + RootLines(files, sorted[..i]) + [RootLine(files, root)];
    }
    assert sorted[..|sorted|] == sorted;
    text := WriteLine(text, "", out, head + RootLines(files, sorted));
  }

  lemma ARootLine(files: seq<File>, root: string)
    ensures RootLine(files, root) == "- `" + root + "` - " + Itoa(CountOf(files, root)) + " files"
  {
  }

  method PrintEntries(out: string, files: seq<File>) returns (text: string)
    ensures text == out + Written(Entries(files))
  {
    hide Written, EntryLines, TestLines;
    text := out;
    ghost var lines: seq<string> := [];
    assert Written(lines) == "" by { WrittenOfNothing(); }
    for i := 0 to |files|
      invariant lines == Entries(files[..i]) && text == out + Written(lines)
    {
      var file := files[i];
      assert files[..i + 1][..i] == files[..i];
      match SectionOf(file) {
        case Source =>
          text := PrintEntry(text, file);
          WrittenOfAppend(lines, EntryLines(file));
        case Tests =>
          text := PrintTest(text, file);
          WrittenOfAppend(lines, TestLines(file));
        case Other =>
          text := text + (file.path + "\n");
          OneMoreLine(lines, file.path);
      }
      lines := Entries(files[..i + 1]);
    }
    assert files[..|files|] == files;
  }

  lemma WrittenOfNothing()
    ensures Written([]) == ""
  {
  }

  /** The files of each kind, in the order they come. */
  method Split(files: seq<File>) returns (source: seq<File>, tests: seq<File>, other: seq<File>)
    ensures source == In(files, Source) && tests == In(files, Tests) && other == In(files, Other)
  {
    source, tests, other := [], [], [];
    for i := 0 to |files|
      invariant source == In(files[..i], Source) && tests == In(files[..i], Tests) && other == In(files[..i], Other)
    {
      assert files[..i + 1][..i] == files[..i];
      if files[i].isCode && files[i].isTest {
        tests := tests + [files[i]];
      } else if files[i].isCode {
        source := source + [files[i]];
      } else {
        other := other + [files[i]];
      }
    }
    assert files[..|files|] == files;
  }

  method PrintSection(out: string, files: seq<File>, section: Section) returns (text: string)
    ensures text == out + Written(SectionLines(files, section))
  {
    hide Written, Entries, HeadOf, FootOf;
    if files == [] {
      WrittenOfNothing();
      return out;
    }
    text := out + Written(HeadOf(section));
    text := PrintEntries(text, files);
    text := text + Written(FootOf(section));
    WrittenOfAppend(HeadOf(section), Entries(files));
    WrittenOfAppend(HeadOf(section) + Entries(files), FootOf(section));
  }

  method Print(name: string, files: seq<File>) returns (text: string)
    ensures text == Written(MapLines(name, files))
  {
    hide Written, SectionLines, LegendLines, In, Sort, Preamble;
    var sorted := Sort(files, ByPath);
    text := Written(Preamble(name));
    text := PrintLegend(text, sorted);
    var source, tests, other := Split(sorted);
    text := PrintSection(text, source, Source);
    text := PrintSection(text, tests, Tests);
    text := PrintSection(text, other, Other);
    ghost var a := Preamble(name) + LegendLines(sorted);
    ghost var b := a + SectionLines(source, Source);
    ghost var c := b + SectionLines(tests, Tests);
    WrittenOfAppend(Preamble(name), LegendLines(sorted));
    WrittenOfAppend(a, SectionLines(source, Source));
    WrittenOfAppend(b, SectionLines(tests, Tests));
    WrittenOfAppend(c, SectionLines(other, Other));
  }

  method FileLinesOf(text: string) returns (files: seq<string>)
    ensures files == FileLines(text)
  {
    hide Fields, TrimSpace, TrimRight, Lines;
    var heading, said, inOtherFiles, inFence := "", false, false, false;
    var lines := Lines(text);
    files := [];
    for i := 0 to |lines|
      invariant Ready(Reader(files, heading, said, inOtherFiles, inFence))
      invariant ReadAll(Reader(files, heading, said, inOtherFiles, inFence), lines[i..]) == ReadAll(START, lines)
    {
      var line := TrimRight(lines[i], {'\r'});
      assert lines[i..][0] == lines[i] && lines[i..][1..] == lines[i + 1..];
      if "### " <= line {
        heading, said := TrimSpace(line[4..]), false;
        files := files + ["- " + heading];
      } else if "## " <= line {
        heading, inOtherFiles := "", TrimSpace(line) == "## Other files";
      } else if inOtherFiles && "```" <= line {
        inFence := !inFence;
      } else if inOtherFiles && inFence && TrimSpace(line) != "" {
        files := files + ["- " + TrimSpace(line)];
      } else if heading != "" && IsATestCount(line) {
        files := AddToLast(files, " (" + TrimPrefix(TrimSpace(line), "- ") + ")");
        said := true;
      } else if heading != "" && !said && TrimSpace(line) != "" {
        said := true;
        var under := TrimSpace(line);
        if !("- `" <= under) && !("- and " <= under) {
          files := AddToLast(files, " \U{2014} " + TrimPrefix(under, "- "));
        }
      }
    }
  }

  // ---------------------------------------------------------------- reading what was printed

  predicate Trimmed(s: string) {
    s != "" && !IsSpace(s[0]) && !IsSpace(s[|s| - 1])
  }

  predicate HeadingShaped(line: string) { "### " <= line || "## " <= line }

  predicate FenceShaped(line: string) { "```" <= line }

  predicate PlainName(name: Name) { OneLine(name.kind) && OneLine(name.signature) && OneLine(name.says) }

  /** A file in order but for what its first line looks like: its path, first line and
      names are single lines, the path has no space at its ends, and the path of one
      that is listed plainly is not shaped as a heading or a fence. */
  predicate Ordinary(file: File) {
    && OneLine(file.path) && Trimmed(file.path) && OneLine(file.firstLine)
    && (forall k | 0 <= k < |file.names| :: PlainName(file.names[k]))
    && (SectionOf(file).Other? ==> !HeadingShaped(file.path) && !FenceShaped(file.path))
  }

  /** Code whose first line is shaped as a heading. */
  predicate ReadsAsAHeading(file: File) {
    !SectionOf(file).Other? && HeadingShaped(file.firstLine)
  }

  predicate Plain(file: File) { Ordinary(file) && !ReadsAsAHeading(file) }

  predicate AllOrdinary(files: seq<File>) {
    forall k | 0 <= k < |files| :: Ordinary(files[k])
  }

  predicate AllPlain(files: seq<File>) {
    forall k | 0 <= k < |files| :: Plain(files[k])
  }

  /** What a first line that is not blank adds to its file's line. */
  function Said(firstLine: string): string {
    var under := TrimSpace(TrimRight(firstLine, {'\r'}));
    if IsATestCount(TrimRight(firstLine, {'\r'})) then " (" + TrimPrefix(under, "- ") + ")"
    else if under == "" || "- `" <= under || "- and " <= under then ""
    else " \U{2014} " + TrimPrefix(under, "- ")
  }

  predicate Blank(firstLine: string) { TrimSpace(TrimRight(firstLine, {'\r'})) == "" }

  /** The one line the reader should list for a file. */
  function ListedAs(file: File): string {
    "- " + file.path +
    match SectionOf(file)
    case Source =>
      if !Blank(file.firstLine) then Said(file.firstLine)
      else if file.names == [] && file.more == 0 then " \U{2014} no names read"
      else ""
    case Tests =>
      (if Blank(file.firstLine) then "" else Said(file.firstLine))
      + (" (" + CountText(file) + ")")
    case Other => ""
  }

  function ListedAll(files: seq<File>): seq<string> {
    seq(|files|, k requires 0 <= k < |files| => ListedAs(files[k]))
  }

  lemma TrimmedIsKept(s: string)
    requires Trimmed(s)
    ensures TrimSpace(s) == s && TrimRight(s, {'\r'}) == s
  {
  }

  lemma {:induction false} FirstWordBegins(s: string)
    requires s != "" && !IsSpace(s[0])
    ensures Fields(s) != [] && Fields(s)[0] != "" && Fields(s)[0][0] == s[0]
  {
  }

  /** Only a line that begins with a digit, after its mark, can be a test count. */
  lemma CountsBeginWithADigit(line: string)
    requires var rest := TrimPrefix(TrimSpace(line), "- "); rest != "" && !IsSpace(rest[0]) && !('0' <= rest[0] <= '9')
    ensures !IsATestCount(line)
  {
    FirstWordBegins(TrimPrefix(TrimSpace(line), "- "));
  }

  lemma TwoWords(first: string, second: string)
    requires IsWord(first) && IsWord(second)
    ensures Fields(first + " " + second) == [first, second]
  {
    var words := [first, second];
    FieldsOfJoin(words);
    assert words[1..] == [second] && Join(words, " ") == first + " " + second;
  }

  lemma DigitsAreAWord(n: nat)
    ensures IsWord(Itoa(n)) && AllDigits(Itoa(n))
  {
  }

  lemma CountLinesAreCounts(file: File)
    ensures var line := CountLine(file);
      && TrimRight(line, {'\r'}) == line && TrimSpace(line) == line && IsATestCount(line)
      && TrimPrefix(line, "- ") == CountText(file) && !HeadingShaped(line)
  {
    hide Itoa, Fields, TrimSpace, TrimRight, IsWord;
    var number, noun := Itoa(file.tests), if file.tests == 1 then "test" else "tests";
    var line := CountLine(file);
    DigitsAreAWord(file.tests);
    NounsAreWords();
    TwoWords(number, noun);
    assert line == "- " + (number + " " + noun) && line[2..] == number + " " + noun;
    assert line[|line| - 1] == noun[|noun| - 1];
    TrimmedIsKept(line);
  }

  /** A line of two words, marked as an item or not, is a test count exactly when the first
      is a number and the second says test or tests; and no other line is one. */
  lemma WhatIsATestCount(first: string, second: string, line: string)
    requires IsWord(first) && IsWord(second) && first != "-"
    ensures IsATestCount(first + " " + second) <==> AllDigits(first) && (second == "test" || second == "tests")
    ensures IsATestCount("- " + (first + " " + second)) <==> AllDigits(first) && (second == "test" || second == "tests")
    ensures |Fields(TrimPrefix(TrimSpace(line), "- "))| != 2 ==> !IsATestCount(line)
  {
    hide Fields, TrimSpace;
    var both := first + " " + second;
    TwoWords(first, second);
    TwoWordsAreTrimmed(first, second);
    assert ("- " + both)[2..] == both;
    assert !("- " <= both) by {
      assert both[0] == '-' ==> |first| > 1 && both[1] == first[1];
    }
  }

  lemma TwoWordsAreTrimmed(first: string, second: string)
    requires IsWord(first) && IsWord(second)
    ensures TrimSpace(first + " " + second) == first + " " + second
    ensures TrimSpace("- " + (first + " " + second)) == "- " + (first + " " + second)
  {
    hide TrimSpace;
    var both := first + " " + second;
    assert both[0] == first[0] && both[|both| - 1] == second[|second| - 1];
    TrimmedIsKept(both);
    TrimmedIsKept("- " + both);
  }

  lemma NounsAreWords()
    ensures IsWord("test") && IsWord("tests")
  {
  }

  lemma QuietLine(reader: Reader, line: string)
    requires reader.heading == "" && !reader.inOtherFiles && !HeadingShaped(line)
    ensures ReadLine(reader, line) == reader
  {
    TrimRightIsAPrefix(line, {'\r'});
  }

  lemma {:induction false} QuietLines(reader: Reader, lines: seq<string>)
    requires reader.heading == "" && !reader.inOtherFiles
    requires forall k | 0 <= k < |lines| :: !HeadingShaped(lines[k])
    ensures ReadAll(reader, lines) == reader
  {
    hide HeadingShaped, ReadLine;
    if lines != [] {
      QuietLine(reader, lines[0]);
      QuietLines(reader, lines[1..]);
    }
  }

  lemma ReadHeading(reader: Reader, path: string)
    requires Ready(reader) && Trimmed(path)
    ensures ReadLine(reader, "### " + path)
         == reader.(heading := path, said := false, files := reader.files + ["- " + path])
  {
    hide TrimSpace, TrimRight;
    var line := "### " + path;
    assert line[4..] == path && line[0] == '#' && line[|line| - 1] == path[|path| - 1];
    TrimmedIsKept(path);
    TrimmedIsKept(line);
  }

  /** Under a heading, among the source files or the tests. */
  predicate Under(reader: Reader) { reader.heading != "" && reader.files != [] && !reader.inOtherFiles }

  /** The first line under a heading. */
  lemma ReadFirstLine(reader: Reader, line: string)
    requires Under(reader) && !reader.said && !HeadingShaped(line)
    ensures ReadLine(reader, line) ==
      if Blank(line) then reader else reader.(said := true, files := AddToLast(reader.files, Said(line)))
  {
    hide TrimSpace, TrimRight;
    TrimRightIsAPrefix(line, {'\r'});
    assert reader.files[|reader.files| - 1] + "" == reader.files[|reader.files| - 1];
    assert AddToLast(reader.files, "") == reader.files;
    if Blank(line) {
      BlankIsNoCount(TrimRight(line, {'\r'}));
    }
  }

  lemma BlankIsNoCount(line: string)
    requires TrimSpace(line) == ""
    ensures !IsATestCount(line)
  {
  }

  /** A line that says nothing about its file: a name, a count of more names, or a
      blank line. */
  predicate SaysNothing(line: string) {
    var under := Below(line);
    !HeadingShaped(line) && (under == "" || "- `" <= under || "- and " <= under)
  }

  function Below(line: string): string { TrimSpace(TrimRight(line, {'\r'})) }

  lemma ReadNothing(reader: Reader, line: string)
    requires Under(reader) && SaysNothing(line)
    ensures ReadLine(reader, line) == reader.(said := reader.said || Below(line) != "")
  {
    hide TrimSpace, TrimRight, IsATestCount;
    TrimRightIsAPrefix(line, {'\r'});
    if Below(line) == "" {
      BlankIsNoCount(TrimRight(line, {'\r'}));
    } else {
      CountsBeginWithADigit(TrimRight(line, {'\r'}));
    }
  }

  lemma {:induction false} ReadNothings(reader: Reader, lines: seq<string>)
    requires Under(reader) && forall k | 0 <= k < |lines| :: SaysNothing(lines[k]) && Below(lines[k]) != ""
    ensures ReadAll(reader, lines) == reader.(said := reader.said || lines != [])
    decreases |lines|
  {
    hide SaysNothing, ReadLine, Below;
    if lines != [] {
      ReadNothing(reader, lines[0]);
      ReadNothings(reader.(said := true), lines[1..]);
    }
  }

  /** Trimming never reaches past a character that is not a space. */
  lemma {:induction false} TrimmingKeepsTheCore(before: string, core: string, after: string)
    requires AllSpace(before) && Trimmed(core)
    ensures core <= TrimSpace(before + core + after)
    decreases |before| + |after|
  {
    var s := before + core + after;
    if before != "" {
      assert s[1..] == before[1..] + core + after;
      TrimmingKeepsTheCore(before[1..], core, after);
    } else if IsSpace(s[|s| - 1]) {
      assert after != "" && s[..|s| - 1] == before + core + after[..|after| - 1];
      TrimmingKeepsTheCore(before, core, after[..|after| - 1]);
    }
  }

  lemma BelowKeepsTheCore(before: string, core: string, after: string)
    requires AllSpace(before) && Trimmed(core)
    ensures core <= Below(before + core + after)
  {
    hide TrimSpace, TrimRight;
    var whole := before + core;
    var s := TrimRight(whole + after, {'\r'});
    TrimRightKeepsTheEnd(before, core, after);
    assert s == before + core + s[|whole|..];
    TrimmingKeepsTheCore(before, core, s[|whole|..]);
  }

  lemma {:induction false} TrimRightKeepsTheEnd(before: string, core: string, after: string)
    requires Trimmed(core)
    ensures before + core <= TrimRight(before + core + after, {'\r'})
  {
    var s := before + core + after;
    if s[|s| - 1] == '\r' {
      assert after != "" && s[..|s| - 1] == before + core + after[..|after| - 1];
      TrimRightKeepsTheEnd(before, core, after[..|after| - 1]);
    }
  }

  lemma NamesAreOneLine(name: Name)
    requires PlainName(name)
    ensures OneLine(NameLine(name))
  {
  }

  lemma NamesSayNothing(name: Name)
    ensures SaysNothing(NameLine(name)) && Below(NameLine(name)) != ""
  {
    hide Below, OneLine;
    var before, core := if name.kind == "method" then "  " else "", "- `" + name.signature + "`";
    var after := (if name.kind in {"class", "type", "const"} then " (" + name.kind + ")" else "")
      + (if name.says != "" then " \U{2192} " + name.says else "");
    var line := NameLine(name);
    assert line == before + core + after;
    BelowKeepsTheCore(before, core, after);
    assert line[0] == (if name.kind == "method" then ' ' else '-');
    assert Below(line)[..|core|] == core && core[..3] == "- `";
    assert Below(line)[..3] == "- `";
  }

  lemma MoreSaysNothing(more: nat)
    ensures var line := "- and " + Itoa(more) + " more"; SaysNothing(line) && Below(line) != "" && OneLine(line)
  {
    hide Below;
    var core := "- and " + Itoa(more) + " more";
    assert core == "" + core + "";
    BelowKeepsTheCore("", core, "");
    assert "- and " <= core;
  }

  // ---------------------------------------------------------------- one line for each file

  lemma ReadPathAndFirstLine(reader: Reader, file: File)
    requires Ready(reader) && !reader.inOtherFiles && Plain(file) && !SectionOf(file).Other?
    ensures ReadAll(reader, ["### " + file.path] + FirstLines(file)) ==
      Reader(reader.files + ["- " + file.path + (if Blank(file.firstLine) then "" else Said(file.firstLine))],
             file.path, !Blank(file.firstLine), false, reader.inFence)
  {
    hide ReadLine, HeadingShaped, Said, Trimmed;
    ReadHeading(reader, file.path);
    assert file.path != "" by { NotEmpty(file.path); }
    var under := reader.(heading := file.path, said := false, files := reader.files + ["- " + file.path]);
    var lines := ["### " + file.path] + FirstLines(file);
    assert lines[0] == "### " + file.path && lines[1..] == FirstLines(file);
    if file.firstLine != "" {
      ReadFirstLine(under, file.firstLine);
      assert [file.firstLine][1..] == [];
      assert ReadAll(under, [file.firstLine]) == ReadLine(under, file.firstLine);
      assert AddToLast(under.files, Said(file.firstLine)) == reader.files + ["- " + file.path + Said(file.firstLine)];
    } else {
      assert Blank("");
      assert ReadAll(under, []) == under;
    }
    assert "- " + file.path + "" == "- " + file.path;
  }

  lemma NotEmpty(s: string)
    requires Trimmed(s)
    ensures s != ""
  {
  }

  /** A file's line so far, when only its path and first line are read. */
  function Begun(file: File): string {
    "- " + file.path + (if Blank(file.firstLine) then "" else Said(file.firstLine))
  }

  lemma ReadTest(reader: Reader, file: File)
    requires Ready(reader) && !reader.inOtherFiles && Plain(file) && SectionOf(file).Tests?
    ensures var after := ReadAll(reader, TestLines(file));
      after.files == reader.files + [ListedAs(file)] && !after.inOtherFiles && after.inFence == reader.inFence
  {
    hide ReadLine, Said, Blank, Plain, CountText, IsATestCount, HeadingShaped;
    var top := ["### " + file.path] + FirstLines(file);
    var under := ReadAll(reader, top);
    ReadPathAndFirstLine(reader, file);
    PathIsNotEmpty(file);
    var count := CountLine(file);
    ReadCount(under, file);
    var counted := ReadLine(under, count);
    EmptySaysNothing();
    ReadNothing(counted, "");
    ReadAllOfAppend(reader, top, [count, ""]);
    assert TestLines(file) == top + [count, ""];
    assert [count, ""][1..] == [""] && [""][1..] == [];
    assert ListedAs(file) == Begun(file) + (" (" + CountText(file) + ")");
  }

  lemma PathIsNotEmpty(file: File)
    requires Plain(file)
    ensures file.path != "" && Trimmed(file.path)
  {
  }

  lemma EmptySaysNothing()
    ensures SaysNothing("") && Below("") == ""
  {
  }

  lemma ReadCount(reader: Reader, file: File)
    requires Under(reader)
    ensures ReadLine(reader, CountLine(file)) == reader.(said := true, files := AddToLast(reader.files,
      " (" + CountText(file) + ")"))
  {
    hide TrimSpace, TrimRight, IsATestCount, CountText;
    CountLinesAreCounts(file);
    assert !("### " <= CountLine(file)) && !("## " <= CountLine(file));
  }

  lemma ReadNames(reader: Reader, names: seq<Name>)
    requires Under(reader)
    ensures ReadAll(reader, NameLines(names)) == reader.(said := reader.said || names != [])
  {
    hide NameLine, SaysNothing, Below, ReadAll;
    var lines := NameLines(names);
    forall k | 0 <= k < |lines| ensures SaysNothing(lines[k]) && Below(lines[k]) != "" {
      NamesSayNothing(names[k]);
    }
    ReadNothings(reader, lines);
  }

  lemma ReadNoNames(reader: Reader)
    requires Under(reader)
    ensures ReadLine(reader, "- no names read") ==
      if reader.said then reader
      else reader.(said := true, files := AddToLast(reader.files, " \U{2014} no names read"))
  {
    hide TrimSpace, TrimRight, IsATestCount;
    var line := "- no names read";
    TrimmedIsKept(line);
    CountsBeginWithADigit(line);
    assert line[2..] == "no names read" && line[0] == '-' && line[2] == 'n';
    assert !("- `" <= line) && !("- and " <= line) && !("### " <= line) && !("## " <= line);
    assert TrimPrefix(line, "- ") == "no names read";
    assert " \U{2014} " + "no names read" == " \U{2014} no names read";
  }

  lemma ReadMore(reader: Reader, file: File)
    requires Under(reader)
    ensures var after := ReadAll(reader, MoreLines(file) + [""]);
      && !after.inOtherFiles && after.inFence == reader.inFence
      && after.files == (if file.names == [] && file.more == 0 && !reader.said
                         then AddToLast(reader.files, " \U{2014} no names read") else reader.files)
  {
    hide ReadLine, Itoa, SaysNothing, Below;
    var more := MoreLines(file);
    EmptySaysNothing();
    if file.more > 0 {
      var line := "- and " + Itoa(file.more) + " more";
      MoreSaysNothing(file.more);
      ReadNothing(reader, line);
      ReadNothing(ReadLine(reader, line), "");
      assert more + [""] == [line, ""] && [line, ""][1..] == [""];
    } else if file.names == [] {
      ReadNoNames(reader);
      ReadNothing(ReadLine(reader, "- no names read"), "");
      assert more + [""] == ["- no names read", ""] && ["- no names read", ""][1..] == [""];
    } else {
      ReadNothing(reader, "");
      assert more + [""] == [""];
    }
    assert [""][1..] == [];
  }

  lemma ReadSource(reader: Reader, file: File)
    requires Ready(reader) && !reader.inOtherFiles && Plain(file) && SectionOf(file).Source?
    ensures var after := ReadAll(reader, EntryLines(file));
      after.files == reader.files + [ListedAs(file)] && !after.inOtherFiles && after.inFence == reader.inFence
  {
    hide ReadLine, Said, Blank, HeadingShaped, ReadAll, MoreLines, NameLines;
    var top := ["### " + file.path] + FirstLines(file);
    var under := ReadAll(reader, top);
    ReadPathAndFirstLine(reader, file);
    PathIsNotEmpty(file);
    var names := NameLines(file.names);
    ReadNames(under, file.names);
    ReadAllOfAppend(reader, top, names);
    ReadMore(ReadAll(under, names), file);
    ReadAllOfAppend(reader, top + names, MoreLines(file) + [""]);
    assert EntryLines(file) == top + names + (MoreLines(file) + [""]);
    assert AddToLast(under.files, " \U{2014} no names read") == reader.files + [Begun(file) + " \U{2014} no names read"];
    EndsOfSourceLines(file);
  }

  lemma EndsOfSourceLines(file: File)
    requires SectionOf(file).Source?
    ensures ListedAs(file) == Begun(file) +
      if file.names == [] && file.more == 0 && Blank(file.firstLine) then " \U{2014} no names read" else ""
  {
    hide Said, Blank;
  }

  lemma ReadOther(reader: Reader, file: File)
    requires Ready(reader) && reader.inOtherFiles && reader.inFence && Plain(file) && SectionOf(file).Other?
    ensures ReadLine(reader, file.path) == reader.(files := reader.files + [ListedAs(file)])
  {
    hide TrimSpace, TrimRight;
    TrimmedIsKept(file.path);
    assert "- " + file.path + "" == "- " + file.path;
  }

  /** Where the reader should be among a section's entries. */
  predicate Among(reader: Reader, section: Section) {
    Ready(reader) && reader.inOtherFiles == section.Other? && reader.inFence == section.Other?
  }

  predicate AllOf(files: seq<File>, section: Section) {
    forall k | 0 <= k < |files| :: SectionOf(files[k]) == section
  }

  lemma {:induction false} ReadEntries(reader: Reader, files: seq<File>, section: Section)
    requires Among(reader, section) && AllPlain(files) && AllOf(files, section)
    ensures var after := ReadAll(reader, Entries(files));
      after.files == reader.files + ListedAll(files) && Among(after, section)
  {
    hide ReadLine, Plain, EntryLines, TestLines, ListedAs;
    if files == [] {
      assert reader.files + [] == reader.files;
    } else {
      var front, file := files[..|files| - 1], files[|files| - 1];
      ReadEntries(reader, front, section);
      var before := ReadAll(reader, Entries(front));
      assert SectionOf(file) == section && Plain(file);
      match section {
        case Source =>
          ReadSource(before, file);
          ReadAllOfAppend(reader, Entries(front), EntryLines(file));
        case Tests =>
          ReadTest(before, file);
          ReadAllOfAppend(reader, Entries(front), TestLines(file));
        case Other =>
          ReadOther(before, file);
          ReadAllOfAppend(reader, Entries(front), [file.path]);
          assert [file.path][1..] == [];
      }
      assert ListedAll(files) == ListedAll(front) + [ListedAs(file)];
    }
  }

  lemma ReadSectionHeading(reader: Reader, section: Section)
    requires Ready(reader)
    ensures ReadLine(reader, HeadOf(section)[0]) == reader.(heading := "", inOtherFiles := section.Other?)
  {
    hide TrimSpace, TrimRight;
    var heading := HeadOf(section)[0];
    TrimmedIsKept(heading);
    assert heading[3] == (match section case Source => 'S' case Tests => 'T' case Other => 'O');
  }

  lemma ReadHead(reader: Reader, section: Section)
    requires Ready(reader) && !reader.inOtherFiles && !reader.inFence
    ensures var after := ReadAll(reader, HeadOf(section)); after.files == reader.files && Among(after, section)
  {
    hide TrimSpace, TrimRight;
    var head := HeadOf(section);
    ReadSectionHeading(reader, section);
    var first := ReadLine(reader, head[0]);
    EmptyStaysEmpty();
    assert ReadLine(first, "") == first;
    if section.Other? {
      TrimmedIsKept("```text");
      ReadAllOfThree(reader, head[0], "", "```text");
    } else {
      ReadAllOfTwo(reader, head[0], "");
    }
  }

  lemma ReadAllOfTwo(reader: Reader, a: string, b: string)
    requires Ready(reader)
    ensures ReadAll(reader, [a, b]) == ReadLine(ReadLine(reader, a), b)
  {
    hide ReadLine;
    assert [a, b][1..] == [b] && [b][1..] == [];
    ReadNoLines(ReadLine(ReadLine(reader, a), b));
  }

  lemma ReadAllOfThree(reader: Reader, a: string, b: string, c: string)
    requires Ready(reader)
    ensures ReadAll(reader, [a, b, c]) == ReadLine(ReadLine(ReadLine(reader, a), b), c)
  {
    hide ReadLine;
    assert [a, b, c][1..] == [b, c];
    ReadAllOfTwo(ReadLine(reader, a), b, c);
  }

  lemma EmptyStaysEmpty()
    ensures TrimRight("", {'\r'}) == ""
  {
  }

  /** A whole section adds its files' lines, and leaves the reader out of the fence. */
  lemma ReadSection(reader: Reader, files: seq<File>, section: Section)
    requires Ready(reader) && !reader.inOtherFiles && !reader.inFence
    requires AllPlain(files) && AllOf(files, section)
    ensures var after := ReadAll(reader, SectionLines(files, section));
      after.files == reader.files + ListedAll(files) && !after.inFence && (!section.Other? ==> !after.inOtherFiles)
  {
    hide ReadLine, HeadOf, Entries, ReadAll, AllPlain, AllOf;
    if files == [] {
      assert reader.files + ListedAll(files) == reader.files;
      ReadNoLines(reader);
    } else {
      ReadHead(reader, section);
      var headed := ReadAll(reader, HeadOf(section));
      ReadEntries(headed, files, section);
      var entered := ReadAll(headed, Entries(files));
      ReadAllOfAppend(reader, HeadOf(section), Entries(files));
      ReadFoot(entered, section);
      ReadAllOfAppend(reader, HeadOf(section) + Entries(files), FootOf(section));
    }
  }

  lemma ReadNoLines(reader: Reader)
    requires Ready(reader)
    ensures ReadAll(reader, []) == reader
  {
  }

  lemma ReadFoot(reader: Reader, section: Section)
    requires Among(reader, section)
    ensures ReadAll(reader, FootOf(section)) == reader.(inFence := false)
  {
    hide TrimSpace, TrimRight;
    TrimmedIsKept("```");
    assert ["```"][1..] == [];
  }

  /** Nothing before the first section is a file. */
  lemma ReadOpening(name: string, files: seq<File>)
    ensures ReadAll(START, Preamble(name) + LegendLines(files)) == START
  {
    hide ReadAll, Preamble, LegendLines, HeadingShaped;
    OpeningIsQuiet(name);
    QuietLines(START, Preamble(name));
    ReadLegend(files);
    ReadAllOfAppend(START, Preamble(name), LegendLines(files));
  }

  lemma ReadLegend(files: seq<File>)
    ensures ReadAll(START, LegendLines(files)) == START
  {
    hide RootLine, ReadAll, Sort, HeadingShaped;
    var roots := Sort(RootsOf(files), Less);
    var rest := [""] + RootLines(files, roots) + [""];
    assert LegendLines(files) == ["## Roots"] + rest;
    ReadRootsHeading();
    ReadAllOfAppend(START, ["## Roots"], rest);
    EmptyIsQuiet();
    forall k | 0 <= k < |rest| ensures !HeadingShaped(rest[k]) {
      if 1 <= k < |rest| - 1 {
        RootLinesAreQuiet(files, roots[k - 1]);
      }
    }
    QuietLines(START, rest);
  }

  lemma EmptyIsQuiet()
    ensures !HeadingShaped("")
  {
  }

  lemma ReadRootsHeading()
    ensures ReadAll(START, ["## Roots"]) == START
  {
    hide TrimSpace, TrimRight;
    TrimmedIsKept("## Roots");
    assert ["## Roots"][1..] == [];
    assert "## Roots"[3] != "## Other files"[3];
  }

  lemma OpeningIsQuiet(name: string)
    ensures forall k | 0 <= k < |Preamble(name)| :: !HeadingShaped(Preamble(name)[k])
  {
    assert ("# Repository Map: " + name)[1] == ' ';
    assert NOTICE[0] == 'T' && GENERATED_MARK[0] == '<';
  }

  lemma RootLinesAreQuiet(files: seq<File>, root: string)
    ensures !HeadingShaped(RootLine(files, root))
  {
    assert RootLine(files, root)[0] == '-';
  }

  // ---------------------------------------------------------------- every line is one line

  lemma {:induction false} LinesOfWritten(lines: seq<string>)
    requires AllOneLine(lines)
    ensures Lines(Written(lines)) == lines + [""]
  {
    if lines == [] {
      assert lines + [""] == [""];
    } else {
      LinesOfWritten(lines[1..]);
      LinesOfFirst(lines[0], Written(lines[1..]));
      assert lines + [""] == [lines[0]] + (lines[1..] + [""]);
    }
  }

  lemma {:induction false} EntriesAreOneLine(files: seq<File>)
    requires AllOrdinary(files)
    ensures AllOneLine(Entries(files))
  {
    hide NameLine, CountLine, Ordinary;
    if files != [] {
      var file := files[|files| - 1];
      EntriesAreOneLine(files[..|files| - 1]);
      EntryIsOneLine(file);
    }
  }

  lemma EntryIsOneLine(file: File)
    requires Ordinary(file)
    ensures AllOneLine(EntryLines(file)) && AllOneLine(TestLines(file)) && OneLine(file.path)
  {
    hide NameLine, Itoa;
    forall k | 0 <= k < |file.names| ensures OneLine(NameLine(file.names[k])) {
      NamesAreOneLine(file.names[k]);
    }
    assert OneLine("### " + file.path);
    assert OneLine("- and " + Itoa(file.more) + " more");
    assert OneLine(CountLine(file));
    assert OneLine("- no names read");
  }

  lemma OpeningIsOneLine(name: string, files: seq<File>)
    requires OneLine(name) && AllOrdinary(files)
    ensures AllOneLine(Preamble(name)) && AllOneLine(LegendLines(files))
  {
    hide Sort, Cut, RootLine, Ordinary, Join;
    NoticeIsOneLine();
    var roots := Sort(RootsOf(files), Less);
    assert multiset(roots) == multiset(RootsOf(files));
    RootsAreOneLine(files);
    forall k | 0 <= k < |roots| ensures OneLine(RootLine(files, roots[k])) {
      assert roots[k] in multiset(roots);
      assert roots[k] in RootsOf(files);
      RootLineIsOneLine(files, roots[k]);
    }
  }

  lemma NoticeIsOneLine()
    ensures OneLine(NOTICE) && OneLine(GENERATED_MARK)
  {
    hide Join, OneLine;
    NoticeBegins();
    NoticeEnds();
    MarkIsOneLine();
    JoinedIsOneLine(NOTICE_BEGINS + NOTICE_ENDS);
  }

  lemma MarkIsOneLine()
    ensures OneLine(GENERATED_MARK)
  {
  }

  lemma NoticeBegins()
    ensures AllOneLine(NOTICE_BEGINS)
  {
    assert OneLine("This file is written by") && OneLine("Nerd Genie at the end of");
    assert OneLine("every task of a job here.") && OneLine("Do not edit it by hand;");
    assert OneLine("remove the mark above to");
  }

  lemma NoticeEnds()
    ensures AllOneLine(NOTICE_ENDS)
  {
    assert OneLine("keep your own. Find a") && OneLine("file's functions with");
    assert OneLine("`read REPO_MAP.md <path>`") && OneLine("before searching or");
    assert OneLine("reading for them.");
  }

  lemma {:induction false} JoinedIsOneLine(parts: seq<string>)
    requires AllOneLine(parts)
    ensures OneLine(Join(parts, " "))
  {
    if |parts| > 1 {
      JoinedIsOneLine(parts[1..]);
    }
  }

  lemma RootLineIsOneLine(files: seq<File>, root: string)
    requires OneLine(root)
    ensures OneLine(RootLine(files, root))
  {
    hide CountOf;
    var digits := Itoa(CountOf(files, root));
    assert OneLine(digits);
  }

  lemma {:induction false} RootsAreOneLine(files: seq<File>)
    requires AllOrdinary(files)
    ensures forall root | root in RootsOf(files) :: OneLine(root)
  {
    hide Cut, Trimmed;
    if files != [] {
      RootsAreOneLine(files[..|files| - 1]);
      CutSplits(files[|files| - 1].path, '/');
      assert Ordinary(files[|files| - 1]);
    }
  }

  lemma {:induction false} InIsOrdinary(files: seq<File>, section: Section)
    requires AllOrdinary(files)
    ensures AllOrdinary(In(files, section)) && AllOf(In(files, section), section)
    ensures forall f | f in In(files, section) :: f in files
  {
    hide Ordinary;
    if files != [] {
      InIsOrdinary(files[..|files| - 1], section);
    }
  }

  // ---------------------------------------------------------------- the round trip

  /** A file of one kind after another, each kind in the order of its paths. */
  function Listing(files: seq<File>): seq<File> {
    var sorted := Sort(files, ByPath);
    In(sorted, Source) + In(sorted, Tests) + In(sorted, Other)
  }

  lemma SortedIsOrdinary(files: seq<File>)
    requires AllOrdinary(files)
    ensures AllOrdinary(Sort(files, ByPath))
  {
    hide Ordinary, Sort;
    var sorted := Sort(files, ByPath);
    forall k | 0 <= k < |sorted| ensures Ordinary(sorted[k]) {
      assert sorted[k] in multiset(sorted);
      assert sorted[k] in files;
    }
  }

  lemma MapIsOneLine(name: string, files: seq<File>)
    requires OneLine(name) && AllOrdinary(files)
    ensures AllOneLine(MapLines(name, files))
  {
    hide Sort, In, Entries, Preamble, LegendLines, AllOf, OneLine, AllOrdinary;
    var sorted := Sort(files, ByPath);
    SortedIsOrdinary(files);
    OpeningIsOneLine(name, sorted);
    SectionIsOneLine(sorted, Source);
    SectionIsOneLine(sorted, Tests);
    SectionIsOneLine(sorted, Other);
  }

  lemma SectionIsOneLine(files: seq<File>, section: Section)
    requires AllOrdinary(files)
    ensures AllOneLine(SectionLines(In(files, section), section))
  {
    hide In, Entries, AllOrdinary;
    InIsOrdinary(files, section);
    EntriesAreOneLine(In(files, section));
    assert AllOneLine(HeadOf(section)) && AllOneLine(FootOf(section));
  }

  lemma ReadThree(opening: seq<string>, source: seq<File>, tests: seq<File>, other: seq<File>)
    requires ReadAll(START, opening) == START
    requires AllPlain(source) && AllPlain(tests) && AllPlain(other)
    requires AllOf(source, Source) && AllOf(tests, Tests) && AllOf(other, Other)
    ensures var after := ReadAll(START, opening + SectionLines(source, Source) + SectionLines(tests, Tests)
                                        + SectionLines(other, Other));
      after.files == ListedAll(source) + ListedAll(tests) + ListedAll(other) && !after.inFence
  {
    hide SectionLines, ReadAll, ReadLine, AllPlain, AllOf, ListedAs;
    var a := opening + SectionLines(source, Source);
    var b := a + SectionLines(tests, Tests);
    ReadSection(START, source, Source);
    ReadAllOfAppend(START, opening, SectionLines(source, Source));
    ReadSection(ReadAll(START, a), tests, Tests);
    ReadAllOfAppend(START, a, SectionLines(tests, Tests));
    ReadSection(ReadAll(START, b), other, Other);
    ReadAllOfAppend(START, b, SectionLines(other, Other));
    assert [] + ListedAll(source) == ListedAll(source);
  }

  lemma LastLineIsNothing(reader: Reader)
    requires Ready(reader) && !reader.inFence
    ensures ReadAll(reader, [""]) == reader
  {
    hide IsATestCount;
    assert [""][1..] == [];
    BlankIsNoCount("");
  }

  lemma {:induction false} KeptInOrder(files: seq<File>, section: Section)
    requires InOrder(files, ByPath)
    ensures InOrder(In(files, section), ByPath) && AllOf(In(files, section), section)
    ensures forall f | f in In(files, section) :: f in files
  {
    hide Less;
    if files != [] {
      var front, last := files[..|files| - 1], files[|files| - 1];
      KeptInOrder(front, section);
      var kept := In(front, section);
      forall k | 0 <= k < |kept| ensures !ByPath(last, kept[k]) {
        assert kept[k] in kept;
        var j :| 0 <= j < |front| && front[j] == kept[k];
        assert files[j] == kept[k];
      }
    }
  }

  lemma {:induction false} KeptAsOften(files: seq<File>, section: Section, f: File)
    ensures multiset(In(files, section))[f] == if SectionOf(f) == section then multiset(files)[f] else 0
  {
    hide SectionOf;
    if files != [] {
      var front, last := files[..|files| - 1], files[|files| - 1];
      KeptAsOften(front, section, f);
      assert files == front + [last];
    }
  }

  /** Every file of the folder is listed once for each time it is there, in its own
      section, and each section is in the order of its paths. */
  lemma TheListingIsTheFolder(files: seq<File>)
    ensures multiset(Listing(files)) == multiset(files)
    ensures forall section | section in {Source, Tests, Other} ::
      InOrder(In(Sort(files, ByPath), section), ByPath) && AllOf(In(Sort(files, ByPath), section), section)
  {
    hide Sort, ByPath, In, SectionOf;
    var sorted := Sort(files, ByPath);
    PathsAreAnOrder();
    SortPutsInOrder(files, ByPath);
    forall section | section in {Source, Tests, Other}
      ensures InOrder(In(sorted, section), ByPath) && AllOf(In(sorted, section), section)
    {
      KeptInOrder(sorted, section);
    }
    forall f ensures multiset(Listing(files))[f] == multiset(files)[f] {
      KeptAsOften(sorted, Source, f);
      KeptAsOften(sorted, Tests, f);
      KeptAsOften(sorted, Other, f);
    }
  }

  /** What the reader lists for a map of plain files: exactly one line for each, with
      its path first, the source files, then the tests, then the others. */
  lemma EveryFileHasOneLine(name: string, files: seq<File>)
    requires OneLine(name) && AllPlain(files)
    ensures FileLines(Written(MapLines(name, files))) == ListedAll(Listing(files))
  {
    hide Sort, In, SectionLines, Preamble, LegendLines, ReadAll, ReadLine, AllPlain, AllOrdinary, AllOf, Written, Lines,
         ListedAs;
    var sorted := Sort(files, ByPath);
    var source, tests, other := In(sorted, Source), In(sorted, Tests), In(sorted, Other);
    PlainInEachSection(files);
    MapIsRead(name, files);
    ReadOpening(name, sorted);
    ReadThree(Preamble(name) + LegendLines(sorted), source, tests, other);
    LastLineIsNothing(ReadAll(START, MapLines(name, files)));
    assert ListedAll(Listing(files)) == ListedAll(source) + ListedAll(tests) + ListedAll(other);
  }

  lemma MapIsRead(name: string, files: seq<File>)
    requires OneLine(name) && AllOrdinary(files)
    ensures FileLines(Written(MapLines(name, files))) == ReadAll(ReadAll(START, MapLines(name, files)), [""]).files
  {
    hide Sort, MapLines, ReadAll, ReadLine, AllOrdinary, Written, Lines, OneLine;
    MapIsOneLine(name, files);
    LinesOfWritten(MapLines(name, files));
    ReadAllOfAppend(START, MapLines(name, files), [""]);
  }

  lemma OfASection(files: seq<File>, section: Section)
    ensures forall f | f in In(Sort(files, ByPath), section) :: f in files && SectionOf(f) == section
    ensures forall f | f in files && SectionOf(f) == section :: f in In(Sort(files, ByPath), section)
  {
    hide Sort, In, SectionOf;
    var sorted := Sort(files, ByPath);
    forall f ensures f in In(sorted, section) <==> f in files && SectionOf(f) == section {
      KeptAsOften(sorted, section, f);
      assert f in In(sorted, section) <==> multiset(In(sorted, section))[f] > 0;
      assert f in sorted <==> multiset(sorted)[f] > 0;
    }
  }

  lemma PlainInEachSection(files: seq<File>)
    requires AllPlain(files)
    ensures AllOrdinary(files)
    ensures forall section | section in {Source, Tests, Other} ::
      AllPlain(In(Sort(files, ByPath), section)) && AllOf(In(Sort(files, ByPath), section), section)
  {
    hide Sort, In, SectionOf, Ordinary, ReadsAsAHeading;
    forall section | section in {Source, Tests, Other}
      ensures AllPlain(In(Sort(files, ByPath), section)) && AllOf(In(Sort(files, ByPath), section), section)
    {
      OfASection(files, section);
      var kept := In(Sort(files, ByPath), section);
      forall k | 0 <= k < |kept| ensures Plain(kept[k]) && SectionOf(kept[k]) == section {
        assert kept[k] in kept;
        var j :| 0 <= j < |files| && files[j] == kept[k];
        assert Plain(files[j]);
      }
    }
  }

  // ---------------------------------------------------------------- and when it does not

  function EntryOf(file: File): seq<string> {
    match SectionOf(file)
    case Source => EntryLines(file)
    case Tests => TestLines(file)
    case Other => [file.path]
  }

  lemma {:induction false} EntriesOfAppend(a: seq<File>, b: seq<File>)
    ensures Entries(a + b) == Entries(a) + Entries(b)
  {
    hide EntryLines, TestLines;
    if b == [] {
      assert a + b == a;
    } else {
      var front, last := b[..|b| - 1], b[|b| - 1];
      assert (a + b)[..|a + b| - 1] == a + front;
      EntriesOfAppend(a, front);
    }
  }

  lemma EntriesOfOne(file: File)
    ensures Entries([file]) == EntryOf(file)
  {
    hide EntryLines, TestLines;
    assert [file][..0] == [] && Entries([]) == [];
    assert [] + EntryOf(file) == EntryOf(file);
  }

  lemma EntriesAround(before: seq<File>, file: File, after: seq<File>)
    ensures Entries(before + ([file] + after)) == Entries(before) + (EntryOf(file) + Entries(after))
  {
    hide Entries, EntryOf;
    EntriesOfAppend(before, [file] + after);
    EntriesOfAppend([file], after);
    EntriesOfOne(file);
  }

  /** A line of the listing that nothing will be added to. */
  predicate Fixed(reader: Reader, at: nat, line: string) {
    at < |reader.files| && reader.files[at] == line && (at + 1 < |reader.files| || reader.heading == "")
  }

  lemma FixedStays(reader: Reader, raw: string, at: nat, line: string)
    requires Ready(reader) && Fixed(reader, at, line)
    ensures Fixed(ReadLine(reader, raw), at, line)
  {
    hide TrimSpace, TrimRight, IsATestCount, TrimPrefix;
  }

  lemma {:induction false} FixedForGood(reader: Reader, lines: seq<string>, at: nat, line: string)
    requires Ready(reader) && Fixed(reader, at, line)
    ensures Fixed(ReadAll(reader, lines), at, line)
    decreases |lines|
  {
    hide ReadLine, Fixed;
    if lines != [] {
      FixedStays(reader, lines[0], at, line);
      FixedForGood(ReadLine(reader, lines[0]), lines[1..], at, line);
    }
  }

  lemma {:induction false} TrimRightStops(s: string, off: set<char>, n: nat)
    requires 0 < n <= |s| && s[n - 1] !in off
    ensures s[..n] <= TrimRight(s, off)
  {
    if s[|s| - 1] in off {
      assert s[..|s| - 1][..n] == s[..n];
      TrimRightStops(s[..|s| - 1], off, n);
    }
  }

  /** The entry of such a file: its path, and then a heading. */
  lemma ReadAHeadingForAFirstLine(reader: Reader, file: File)
    requires Ready(reader) && !reader.inOtherFiles && Trimmed(file.path) && HeadingShaped(file.firstLine)
    ensures Fixed(ReadAll(reader, ["### " + file.path, file.firstLine]), |reader.files|, "- " + file.path)
  {
    hide TrimSpace, Trimmed, IsATestCount;
    ReadHeading(reader, file.path);
    ReadAllOfTwo(reader, "### " + file.path, file.firstLine);
    var first := file.firstLine;
    if "### " <= first {
      TrimRightStops(first, {'\r'}, 4);
      assert first[..4] == "### ";
    } else {
      TrimRightStops(first, {'\r'}, 3);
      assert first[..3] == "## ";
      TrimRightIsAPrefix(first, {'\r'});
    }
  }

  lemma EntryBegins(file: File)
    requires !SectionOf(file).Other? && file.firstLine != ""
    ensures |EntryOf(file)| >= 2 && EntryOf(file)[..2] == ["### " + file.path, file.firstLine]
  {
    hide NameLines, MoreLines, CountLine;
  }

  /** A section with such a file in it leaves the line of the first one at its path,
      whatever comes after. */
  lemma AHeadingIsFixed(reader: Reader, files: seq<File>, section: Section, j: nat)
    requires Ready(reader) && !reader.inOtherFiles && !reader.inFence && !section.Other?
    requires AllOrdinary(files) && AllOf(files, section) && j < |files| && ReadsAsAHeading(files[j])
    requires AllPlain(files[..j])
    ensures Fixed(ReadAll(reader, SectionLines(files, section)), |reader.files| + j, "- " + files[j].path)
  {
    hide ReadLine, Entries, ReadAll, EntryOf, Fixed, HeadOf, Ordinary, Plain, HeadingShaped, SectionOf;
    ReadHead(reader, section);
    var headed := ReadAll(reader, HeadOf(section));
    assert AllOf(files[..j], section);
    ReadEntries(headed, files[..j], section);
    var before := ReadAll(headed, Entries(files[..j]));
    var file := files[j];
    assert Trimmed(file.path) by { OrdinaryPaths(file); }
    assert file.firstLine != "" by { HeadingsAreNotEmpty(file.firstLine); }
    ReadAHeadingForAFirstLine(before, file);
    EntryBegins(file);
    var begun, rest := ["### " + file.path, file.firstLine], EntryOf(file)[2..] + Entries(files[j + 1..]);
    FixedForGood(ReadAll(before, begun), rest, |reader.files| + j, "- " + file.path);
    ReadAllOfAppend(before, begun, rest);
    EntriesAround(files[..j], file, files[j + 1..]);
    assert files == files[..j] + ([file] + files[j + 1..]);
    assert EntryOf(file) + Entries(files[j + 1..]) == begun + rest;
    ReadAllOfAppend(headed, Entries(files[..j]), begun + rest);
    ReadAllOfAppend(reader, HeadOf(section), Entries(files));
    assert SectionLines(files, section) == HeadOf(section) + Entries(files);
  }

  lemma OrdinaryPaths(file: File)
    requires Ordinary(file)
    ensures Trimmed(file.path)
  {
  }

  lemma HeadingsAreNotEmpty(line: string)
    requires HeadingShaped(line)
    ensures line != ""
  {
  }

  /** Such a file should be listed with its first line, or its count, after its path. */
  lemma ListedWithMore(file: File)
    requires ReadsAsAHeading(file)
    ensures ListedAs(file) != "- " + file.path
  {
    hide CountText, TrimPrefix;
    var line := TrimRight(file.firstLine, {'\r'});
    HeadingsSaySomething(file.firstLine);
    assert |ListedAs(file)| > |"- " + file.path|;
  }

  lemma HeadingsSaySomething(first: string)
    requires HeadingShaped(first)
    ensures !Blank(first) && Said(first) != ""
  {
    hide TrimSpace, TrimRight, IsATestCount;
    var line := TrimRight(first, {'\r'});
    TrimRightStops(first, {'\r'}, 2);
    assert first[..2] == "##" && line[..2] == "##";
    var after := line[2..];
    assert line == "" + "##" + after;
    TrimmingKeepsTheCore("", "##", after);
    assert TrimSpace(line)[0] == '#';
    CountsBeginWithADigit(line);
  }

  lemma {:induction false} FirstThatReadsSo(files: seq<File>) returns (j: nat)
    requires AllOrdinary(files) && !AllPlain(files)
    ensures j < |files| && ReadsAsAHeading(files[j]) && AllPlain(files[..j])
  {
    hide Ordinary, ReadsAsAHeading;
    if Plain(files[0]) {
      var rest := files[1..];
      assert forall k | 0 < k < |files| :: files[k] == rest[k - 1];
      j := FirstThatReadsSo(rest);
      assert files[..j + 1] == [files[0]] + rest[..j];
      j := j + 1;
    } else {
      j := 0;
    }
  }

  lemma ReadInParts(opening: seq<string>, a: seq<string>, b: seq<string>, c: seq<string>)
    requires ReadAll(START, opening) == START
    ensures ReadAll(START, opening + a + b + c) == ReadAll(ReadAll(ReadAll(START, a), b), c)
  {
    hide ReadAll;
    ReadAllOfAppend(START, opening, a);
    ReadAllOfAppend(START, opening + a, b);
    ReadAllOfAppend(START, opening + a + b, c);
  }

  lemma OrdinaryInEachSection(files: seq<File>)
    requires AllOrdinary(files)
    ensures forall section | section in {Source, Tests, Other} ::
      AllOrdinary(In(Sort(files, ByPath), section)) && AllOf(In(Sort(files, ByPath), section), section)
  {
    hide Sort, In, SectionOf, Ordinary;
    forall section | section in {Source, Tests, Other}
      ensures AllOrdinary(In(Sort(files, ByPath), section)) && AllOf(In(Sort(files, ByPath), section), section)
    {
      OfASection(files, section);
      var kept := In(Sort(files, ByPath), section);
      forall k | 0 <= k < |kept| ensures Ordinary(kept[k]) && SectionOf(kept[k]) == section {
        assert kept[k] in kept;
        var j :| 0 <= j < |files| && files[j] == kept[k];
        assert Ordinary(files[j]);
      }
    }
  }

  /** All are plain when the code is. */
  lemma PlainWhenTheCodeIs(files: seq<File>)
    requires AllOrdinary(files)
    requires AllPlain(In(Sort(files, ByPath), Source)) && AllPlain(In(Sort(files, ByPath), Tests))
    ensures AllPlain(files)
  {
    hide Sort, In, Ordinary;
    OfASection(files, Source);
    OfASection(files, Tests);
    forall k | 0 <= k < |files| ensures Plain(files[k]) {
      assert files[k] in files;
      if !SectionOf(files[k]).Other? {
        var kept := In(Sort(files, ByPath), SectionOf(files[k]));
        assert files[k] in kept;
        var j :| 0 <= j < |kept| && kept[j] == files[k];
        assert Plain(kept[j]);
      }
    }
  }

  lemma ListedAt(source: seq<File>, tests: seq<File>, other: seq<File>, j: nat)
    ensures var listed := ListedAll(source + tests + other);
      && (j < |source| ==> listed[j] == ListedAs(source[j]))
      && (j < |tests| ==> listed[|source| + j] == ListedAs(tests[j]))
  {
    hide ListedAs;
  }

  /** A map with such a file in it is not listed as it should be: the line of the first
      one is its path and no more. */
  lemma AHeadingSpoilsTheListing(name: string, files: seq<File>)
    requires OneLine(name) && AllOrdinary(files) && !AllPlain(files)
    ensures FileLines(Written(MapLines(name, files))) != ListedAll(Listing(files))
  {
    hide Sort, In, SectionLines, Preamble, LegendLines, ReadAll, ReadLine, Written, Lines, ListedAs, AllPlain, AllOf,
         AllOrdinary, FileLines, ListedAll, Fixed, ReadsAsAHeading;
    var sorted := Sort(files, ByPath);
    var source, tests, other := In(sorted, Source), In(sorted, Tests), In(sorted, Other);
    OrdinaryInEachSection(files);
    MapIsRead(name, files);
    ReadOpening(name, sorted);
    var a, b, c := SectionLines(source, Source), SectionLines(tests, Tests), SectionLines(other, Other);
    ReadInParts(Preamble(name) + LegendLines(sorted), a, b, c);
    var first := ReadAll(START, a);
    var j, at, spoiled := 0, 0, sorted;
    if !AllPlain(source) {
      j := FirstThatReadsSo(source);
      at, spoiled := j, source;
      AHeadingIsFixed(START, source, Source, j);
      FixedForGood(first, b, at, "- " + source[j].path);
    } else {
      if AllPlain(tests) {
        PlainWhenTheCodeIs(files);
      }
      ReadSection(START, source, Source);
      j := FirstThatReadsSo(tests);
      at, spoiled := |source| + j, tests;
      ListedLength(source);
      AHeadingIsFixed(first, tests, Tests, j);
    }
    var line := "- " + spoiled[j].path;
    FixedForGood(ReadAll(first, b), c, at, line);
    FixedForGood(ReadAll(ReadAll(first, b), c), [""], at, line);
    FixedIsThere(ReadAll(ReadAll(ReadAll(first, b), c), [""]), at, line);
    ListedAt(source, tests, other, j);
    ListedWithMore(spoiled[j]);
  }

  lemma ListedLength(files: seq<File>)
    ensures |[] + ListedAll(files)| == |files|
  {
  }

  lemma FixedIsThere(reader: Reader, at: nat, line: string)
    requires Fixed(reader, at, line)
    ensures at < |reader.files| && reader.files[at] == line
  {
  }

  /** For files otherwise in order, reading the printed map lists exactly one line for
      each, as it should be listed, exactly when the first line of no source file or
      test is shaped as a heading. */
  lemma ListedExactlyWhenNoHeading(name: string, files: seq<File>)
    requires OneLine(name) && AllOrdinary(files)
    ensures FileLines(Written(MapLines(name, files))) == ListedAll(Listing(files))
            <==> forall k | 0 <= k < |files| :: !ReadsAsAHeading(files[k])
  {
    hide FileLines, Written, MapLines, ListedAll, Listing, Ordinary, ReadsAsAHeading;
    if AllPlain(files) {
      EveryFileHasOneLine(name, files);
    } else {
      AHeadingSpoilsTheListing(name, files);
    }
  }

  /** One file is enough, with a heading of either kind for its first line. */
  lemma OneFileReadAsAHeading(first: string)
    requires first in ["### b", "## b"]
    ensures var files := [File("a", true, false, first, [], 0, 0)];
      AllOrdinary(files) && FileLines(Written(MapLines("m", files))) != ListedAll(Listing(files))
  {
    hide FileLines, Written, MapLines, ListedAll, Listing;
    var files := [File("a", true, false, first, [], 0, 0)];
    assert ReadsAsAHeading(files[0]);
    ListedExactlyWhenNoHeading("m", files);
  }

  /** A third-level heading for a first line becomes a file of its own in the listing. */
  lemma AHeadingShapedFirstLineIsAnotherFile(reader: Reader, file: File, other: string)
    requires Ready(reader) && !reader.inOtherFiles && SectionOf(file).Source?
    requires Trimmed(file.path) && Trimmed(other) && file.firstLine == "### " + other
    ensures |ReadAll(reader, EntryLines(file)).files| == |reader.files| + 2
  {
    hide ReadLine, Trimmed, ReadAll, MoreLines, NameLines;
    NotEmpty(file.path);
    NotEmpty(other);
    ReadHeading(reader, file.path);
    var first := ReadLine(reader, "### " + file.path);
    ReadHeading(first, other);
    ReadAllOfTwo(reader, "### " + file.path, file.firstLine);
    var top, names := ["### " + file.path, file.firstLine], NameLines(file.names);
    ReadNames(ReadAll(reader, top), file.names);
    ReadAllOfAppend(reader, top, names);
    ReadMore(ReadAll(reader, top + names), file);
    ReadAllOfAppend(reader, top + names, MoreLines(file) + [""]);
    assert EntryLines(file) == top + names + (MoreLines(file) + [""]);
  }
}
