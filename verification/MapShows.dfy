/** What a printed map shows: each file under its own heading with every name read in it,
    and the number of files in each top folder. */
module MapShows {
  import opened Sorting
  import opened Text
  import opened Wire
  import opened CodeMap

  // ---------------------------------------------------------------- every entry is there

  lemma {:induction false} InKeeps(files: seq<File>, section: Section, file: File)
    requires file in files && SectionOf(file) == section
    ensures file in In(files, section)
  {
    var front, last := files[..|files| - 1], files[|files| - 1];
    assert files == front + [last];
    if file in front {
      InKeeps(front, section, file);
    }
  }

  /** These lines stand together in the others. */
  predicate StandAt(lines: seq<string>, at: nat, some: seq<string>) {
    at + |some| <= |lines| && lines[at..at + |some|] == some
  }

  lemma EntriesHold(files: seq<File>, file: File) returns (at: nat)
    requires file in files
    ensures StandAt(Entries(files), at, EntryOf(file))
  {
    hide Entries, EntryOf;
    var k :| 0 <= k < |files| && files[k] == file;
    assert files == files[..k] + ([file] + files[k + 1..]);
    EntriesAround(files[..k], file, files[k + 1..]);
    at := |Entries(files[..k])|;
    StandsBetween(Entries(files[..k]), EntryOf(file), Entries(files[k + 1..]));
  }

  lemma StandsInside(before: seq<string>, lines: seq<string>, after: seq<string>, at: nat, some: seq<string>)
    requires StandAt(lines, at, some)
    ensures StandAt(before + lines + after, |before| + at, some)
  {
  }

  lemma StandsBetween(before: seq<string>, some: seq<string>, after: seq<string>)
    ensures StandAt(before + (some + after), |before|, some)
  {
  }

  lemma SectionHolds(files: seq<File>, section: Section, file: File) returns (at: nat)
    requires file in files
    ensures StandAt(SectionLines(files, section), at, EntryOf(file))
  {
    hide Entries, EntryOf, HeadOf, FootOf, StandAt;
    at := EntriesHold(files, file);
    StandsInside(HeadOf(section), Entries(files), FootOf(section), at, EntryOf(file));
    at := |HeadOf(section)| + at;
  }

  /** Whatever the folder, the lines of each file stand together in the map. */
  lemma TheMapHolds(name: string, files: seq<File>, file: File) returns (at: nat)
    requires file in files
    ensures StandAt(MapLines(name, files), at, EntryOf(file))
  {
    hide SectionLines, EntryOf, Preamble, LegendLines, In, Sort, StandAt, SectionOf;
    var sorted, section := Sort(files, ByPath), SectionOf(file);
    assert file in multiset(files) && multiset(sorted) == multiset(files);
    InKeeps(sorted, section, file);
    at := SectionHolds(In(sorted, section), section, file);
    var top := Preamble(name) + LegendLines(sorted);
    var source, tests := SectionLines(In(sorted, Source), Source), SectionLines(In(sorted, Tests), Tests);
    var other, own := SectionLines(In(sorted, Other), Other), SectionLines(In(sorted, section), section);
    var before := match section case Source => top case Tests => top + source case Other => top + source + tests;
    var after := match section case Source => tests + other case Tests => other case Other => [];
    assert MapLines(name, files) == top + source + tests + other;
    assert before + own + after == top + source + tests + other;
    StandsInside(before, own, after, at, EntryOf(file));
    at := |before| + at;
  }

  // ---------------------------------------------------------------- what an entry shows

  lemma StandsEach(lines: seq<string>, at: nat, some: seq<string>, k: nat)
    requires StandAt(lines, at, some) && k < |some|
    ensures at + k < |lines| && lines[at + k] == some[k]
  {
    assert lines[at..at + |some|][k] == lines[at + k];
  }

  /** A source file's heading, its first line when it has one, a line for every name read
      in it, and how many are left out, or that none was read. */
  lemma ASourceFileIsShown(name: string, files: seq<File>, file: File) returns (at: nat)
    requires file in files && file.isCode && !file.isTest
    ensures var lines := MapLines(name, files); var first := if file.firstLine == "" then 0 else 1;
      && at + first + |file.names| + 1 < |lines| && lines[at] == "### " + file.path
      && (file.firstLine != "" ==> lines[at + 1] == file.firstLine)
      && (forall k | 0 <= k < |file.names| :: NameIsShown(lines[at + 1 + first + k], file.names[k]))
      && lines[at + 1 + first + |file.names|] ==
           (if file.more > 0 then "- and " + Itoa(file.more) + " more"
            else if file.names == [] then "- no names read" else "")
  {
    hide MapLines, StandAt, Itoa, NameLine, NameIsShown, EntryOf, FirstLines;
    at := TheMapHolds(name, files, file);
    var entry, first := EntryOf(file), |FirstLines(file)|;
    EntryOfSource(file);
    StandsEach(MapLines(name, files), at, entry, 0);
    StandsEach(MapLines(name, files), at, entry, 1);
    StandsEach(MapLines(name, files), at, entry, 1 + first + |file.names|);
    forall k | 0 <= k < |file.names|
      ensures at + 1 + first + k < |MapLines(name, files)|
      ensures NameIsShown(MapLines(name, files)[at + 1 + first + k], file.names[k])
    {
      StandsEach(MapLines(name, files), at, entry, 1 + first + k);
      NameLineShows(file.names[k]);
    }
  }

  /** The signature between two marks, indented for a method, its kind when it is a class,
      a type or a constant, and what it says when it says something. */
  predicate NameIsShown(line: string, one: Name) {
    line == (if one.kind == "method" then "  " else "") + "- `" + one.signature + "`"
            + (if one.kind == "class" || one.kind == "type" || one.kind == "const" then " (" + one.kind + ")" else "")
            + (if one.says == "" then "" else " \U{2192} " + one.says)
  }

  lemma NameLineShows(one: Name)
    ensures NameIsShown(NameLine(one), one)
  {
    assert "  " + "- " == "  - " && "" + "- " == "- ";
  }

  lemma EntryOfSource(file: File)
    requires file.isCode && !file.isTest
    ensures var entry, first := EntryOf(file), |FirstLines(file)|;
      && first == (if file.firstLine == "" then 0 else 1) && 1 + first + |file.names| < |entry|
      && |entry| > 1 && entry[0] == "### " + file.path && (first == 1 ==> entry[1] == file.firstLine)
      && (forall k | 0 <= k < |file.names| :: entry[1 + first + k] == NameLine(file.names[k]))
      && entry[1 + first + |file.names|] ==
           (if file.more > 0 then "- and " + Itoa(file.more) + " more"
            else if file.names == [] then "- no names read" else "")
  {
    hide NameLine, Itoa;
  }

  /** A test file's heading, its first line when it has one, and how many tests it has. */
  lemma ATestFileIsShown(name: string, files: seq<File>, file: File) returns (at: nat)
    requires file in files && file.isCode && file.isTest
    ensures var lines := MapLines(name, files); var first := if file.firstLine == "" then 0 else 1;
      && at + first + 1 < |lines| && lines[at] == "### " + file.path
      && (file.firstLine != "" ==> lines[at + 1] == file.firstLine)
      && lines[at + 1 + first] == "- " + (Itoa(file.tests) + " " + if file.tests == 1 then "test" else "tests")
  {
    hide MapLines, StandAt, Itoa;
    at := TheMapHolds(name, files, file);
    StandsEach(MapLines(name, files), at, EntryOf(file), 0);
    StandsEach(MapLines(name, files), at, EntryOf(file), 1);
    StandsEach(MapLines(name, files), at, EntryOf(file), 1 + |FirstLines(file)|);
  }

  // ---------------------------------------------------------------- the legend

  /** The path is in this top folder, or in none and this is how none is written. */
  predicate IsUnder(path: string, root: string) {
    if '/' in path
    then root != "" && root <= path && root[|root| - 1] == '/' && '/' !in root[..|root| - 1]
    else root == "./"
  }

  function HowMany(files: seq<File>, root: string): nat {
    if files == [] then 0 else (if IsUnder(files[0].path, root) then 1 else 0) + HowMany(files[1..], root)
  }

  function InAll(files: seq<File>, roots: seq<string>): nat {
    if roots == [] then 0 else HowMany(files, roots[0]) + InAll(files, roots[1..])
  }

  predicate AllDiffer(roots: seq<string>) {
    forall i, j | 0 <= i < j < |roots| :: roots[i] != roots[j]
  }

  lemma RootIsUnder(path: string, root: string)
    ensures RootOf(path) == root <==> IsUnder(path, root)
  {
    CutSplits(path, '/');
    if '/' in path {
      var (top, rest) := Cut(path, '/').value;
      assert path == top + "/" + rest;
      if IsUnder(path, root) {
        var other := root[..|root| - 1];
        assert root == other + "/";
        OneTop(path, other, top);
      } else {
        assert path[..|top| + 1] == top + "/";
        assert (top + "/")[..|top|] == top;
      }
    }
  }

  lemma OneTop(path: string, a: string, b: string)
    requires '/' !in a && '/' !in b && a + "/" <= path && b + "/" <= path
    ensures a == b
  {
    assert path[|a|] == (a + "/")[|a|] == '/' && path[|b|] == (b + "/")[|b|] == '/';
    assert forall k | 0 <= k < |a| :: path[k] == (a + "/")[k] == a[k] != '/';
    assert forall k | 0 <= k < |b| :: path[k] == (b + "/")[k] == b[k] != '/';
    assert |a| == |b|;
  }

  lemma {:induction false} HowManyOfBoth(a: seq<File>, b: seq<File>, root: string)
    ensures HowMany(a + b, root) == HowMany(a, root) + HowMany(b, root)
  {
    hide IsUnder;
    if a == [] {
      assert a + b == b;
    } else {
      assert (a + b)[1..] == a[1..] + b;
      HowManyOfBoth(a[1..], b, root);
    }
  }

  lemma {:induction false} CountIsHowMany(files: seq<File>, root: string)
    ensures CountOf(files, root) == HowMany(files, root)
  {
    hide IsUnder, RootOf;
    if files != [] {
      var front, last := files[..|files| - 1], files[|files| - 1];
      CountIsHowMany(front, root);
      HowManyOfBoth(front, [last], root);
      RootIsUnder(last.path, root);
      assert files == front + [last] && [last][1..] == [];
    }
  }

  lemma TakeOneOff<T>(x: T, a: multiset<T>, b: multiset<T>)
    requires multiset{x} + a == multiset{x} + b
    ensures a == b
  {
    assert a == (multiset{x} + a) - multiset{x} && b == (multiset{x} + b) - multiset{x};
  }

  lemma OneTakenOut(b: seq<File>, k: nat, root: string)
    requires k < |b|
    ensures multiset(b) == multiset{b[k]} + multiset(b[..k] + b[k + 1..])
    ensures HowMany(b, root) == HowMany([b[k]], root) + HowMany(b[..k] + b[k + 1..], root)
  {
    hide HowMany;
    assert b == b[..k] + ([b[k]] + b[k + 1..]);
    HowManyOfBoth(b[..k], [b[k]] + b[k + 1..], root);
    HowManyOfBoth([b[k]], b[k + 1..], root);
    HowManyOfBoth(b[..k], b[k + 1..], root);
  }

  lemma {:induction false} AnyOrderIsAsMany(a: seq<File>, b: seq<File>, root: string)
    requires multiset(a) == multiset(b)
    ensures HowMany(a, root) == HowMany(b, root)
  {
    hide HowMany;
    if a == [] {
      assert |multiset(b)| == 0;
      assert b == [];
    } else {
      assert a[0] in multiset(b);
      var k :| 0 <= k < |b| && b[k] == a[0];
      OneTakenOut(a, 0, root);
      OneTakenOut(b, k, root);
      assert a[..0] + a[0 + 1..] == a[1..];
      TakeOneOff(a[0], multiset(a[1..]), multiset(b[..k] + b[k + 1..]));
      AnyOrderIsAsMany(a[1..], b[..k] + b[k + 1..], root);
    }
  }

  lemma {:induction false} RootsAreAll(files: seq<File>, file: File)
    ensures AllDiffer(RootsOf(files))
    ensures file in files ==> RootOf(file.path) in RootsOf(files)
    ensures forall root | root in RootsOf(files) :: CountOf(files, root) > 0
  {
    hide RootOf;
    if files != [] {
      var front, last := files[..|files| - 1], files[|files| - 1];
      RootsAreAll(front, file);
      assert files == front + [last];
    }
  }

  /** A file counts under its own top folder and no other. */
  lemma {:induction false} OneFileInAll(file: File, roots: seq<string>)
    requires AllDiffer(roots)
    ensures InAll([file], roots) == if RootOf(file.path) in roots then 1 else 0
  {
    hide IsUnder, RootOf;
    if roots != [] {
      assert roots == [roots[0]] + roots[1..];
      assert forall k | 0 < k < |roots| :: roots[k] != roots[0];
      OneFileInAll(file, roots[1..]);
      RootIsUnder(file.path, roots[0]);
      assert [file][1..] == [] && HowMany([], roots[0]) == 0;
      assert HowMany([file], roots[0]) == if IsUnder(file.path, roots[0]) then 1 else 0;
      assert roots[0] !in roots[1..];
    }
  }

  lemma {:induction false} InAllOfBoth(a: seq<File>, b: seq<File>, roots: seq<string>)
    ensures InAll(a + b, roots) == InAll(a, roots) + InAll(b, roots)
  {
    if roots != [] {
      HowManyOfBoth(a, b, roots[0]);
      InAllOfBoth(a, b, roots[1..]);
    }
  }

  lemma {:induction false} AllAreInAll(files: seq<File>, roots: seq<string>)
    requires AllDiffer(roots) && forall file | file in files :: RootOf(file.path) in roots
    ensures InAll(files, roots) == |files|
  {
    hide RootOf, HowMany;
    if files == [] {
      NoneInAll(roots);
    } else {
      AllAreInAll(files[1..], roots);
      OneFileInAll(files[0], roots);
      assert files == [files[0]] + files[1..];
      InAllOfBoth([files[0]], files[1..], roots);
    }
  }

  lemma {:induction false} NoneInAll(roots: seq<string>)
    ensures InAll([], roots) == 0
  {
    if roots != [] {
      NoneInAll(roots[1..]);
    }
  }

  lemma SameRootsOnce(a: seq<string>, b: seq<string>)
    requires multiset(a) == multiset(b) && AllDiffer(b)
    ensures AllDiffer(a) && forall root :: root in a <==> root in b
  {
    assert forall root :: root in a <==> root in multiset(a);
    assert forall root :: root in b <==> root in multiset(b);
    forall i, j | 0 <= i < j < |a| ensures a[i] != a[j] {
      OnceEach(b, a[i]);
      TwiceThere(a, i, j);
    }
  }

  lemma {:induction false} OnceEach(b: seq<string>, root: string)
    requires AllDiffer(b)
    ensures multiset(b)[root] <= 1
  {
    if b != [] {
      assert b == [b[0]] + b[1..];
      OnceEach(b[1..], root);
      assert b[0] !in b[1..];
    }
  }

  lemma TwiceThere(a: seq<string>, i: nat, j: nat)
    requires i < j < |a|
    ensures a[i] == a[j] ==> multiset(a)[a[i]] >= 2
  {
    assert a == a[..j] + a[j..];
    assert a[i] in a[..j] && a[j] in a[j..];
    assert a[..j][i] == a[i] && a[j..][0] == a[j];
  }

  /** The legend has one line for each top folder that holds a file, in order, with how
      many of the files it holds; and the numbers add up to all of them. */
  lemma TheLegendCountsTheFiles(name: string, files: seq<File>) returns (roots: seq<string>)
    ensures AllDiffer(roots) && InOrder(roots, Less) && InAll(files, roots) == |files|
    ensures forall k | 0 <= k < |roots| :: HowMany(files, roots[k]) > 0
    ensures var lines, top := MapLines(name, files), |Preamble(name)|;
      && top + 2 + |roots| < |lines| && lines[top] == "## Roots" && lines[top + 1] == ""
      && forall k | 0 <= k < |roots| ::
           lines[top + 2 + k] == "- `" + roots[k] + "` - " + Itoa(HowMany(files, roots[k])) + " files"
  {
    hide RootOf, Preamble, SectionLines, In, Itoa, Less, Sort, HowMany, IsUnder;
    var sorted := Sort(files, ByPath);
    assert multiset(sorted) == multiset(files);
    roots := Sort(RootsOf(sorted), Less);
    RootsAreInOrder(sorted);
    assert multiset(roots) == multiset(RootsOf(sorted));
    LegendIsThere(name, files, sorted);
    forall file ensures AllDiffer(RootsOf(sorted)) && (file in files ==> RootOf(file.path) in RootsOf(sorted)) {
      assert file in files <==> file in multiset(files);
      assert file in sorted <==> file in multiset(sorted);
      RootsAreAll(sorted, file);
    }
    SameRootsOnce(roots, RootsOf(sorted));
    AllAreInAll(files, roots);
    forall k | 0 <= k < |roots| ensures CountOf(sorted, roots[k]) == HowMany(files, roots[k]) > 0 {
      assert roots[k] in RootsOf(sorted);
      SomeAreThere(sorted, roots[k]);
      CountIsHowMany(sorted, roots[k]);
      AnyOrderIsAsMany(sorted, files, roots[k]);
    }
  }

  lemma SomeAreThere(files: seq<File>, root: string)
    ensures root in RootsOf(files) ==> CountOf(files, root) > 0
  {
    hide RootOf, RootsOf, CountOf;
    if files != [] {
      RootsAreAll(files, files[0]);
    } else {
      assert RootsOf(files) == [] by { NoRoots(); }
    }
  }

  lemma NoRoots()
    ensures RootsOf([]) == []
  {
  }

  lemma RootsAreInOrder(files: seq<File>)
    ensures InOrder(Sort(RootsOf(files), Less), Less)
  {
    hide Less, RootsOf;
    PathsAreAnOrder();
    SortPutsInOrder(RootsOf(files), Less);
  }

  lemma LegendIsThere(name: string, files: seq<File>, sorted: seq<File>)
    requires sorted == Sort(files, ByPath)
    ensures var roots := Sort(RootsOf(sorted), Less);
      var lines, top := MapLines(name, files), |Preamble(name)|;
      && top + 2 + |roots| < |lines| && lines[top] == "## Roots" && lines[top + 1] == ""
      && forall k | 0 <= k < |roots| ::
           lines[top + 2 + k] == "- `" + roots[k] + "` - " + Itoa(CountOf(sorted, roots[k])) + " files"
  {
    hide Preamble, SectionLines, In, Itoa, Less, Sort, RootsOf, RootOf, CountOf, ByPath;
    var legend := LegendLines(sorted);
    var rest := SectionLines(In(sorted, Source), Source) + SectionLines(In(sorted, Tests), Tests)
                + SectionLines(In(sorted, Other), Other);
    LinesInside(Preamble(name), legend, rest);
    assert MapLines(name, files) == Preamble(name) + legend + rest;
    var roots := Sort(RootsOf(sorted), Less);
    assert legend[0] == "## Roots" && legend[1] == "";
    forall k | 0 <= k < |roots| ensures legend[2 + k] == RootLine(sorted, roots[k]) {
      assert RootLines(sorted, roots)[k] == RootLine(sorted, roots[k]);
    }
  }

  lemma LinesInside(before: seq<string>, lines: seq<string>, after: seq<string>)
    ensures forall k | 0 <= k < |lines| :: (before + lines + after)[|before| + k] == lines[k]
  {
  }
}
