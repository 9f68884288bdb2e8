/** The string operations the program leans on: the replacer the vault and the
    data marker share, occurrences, and lines.

    A string is a sequence of characters. Package `context` reads one as a byte,
    the screens as a rune; nothing here depends on which.
 */
module Text {

  datatype Option<+T> = None | Some(value: T)

  datatype Result<+T, +E> = Ok(value: T) | Err(error: E)

  // ---------------------------------------------------------------- occurrences

  predicate OccursAt(s: string, at: nat, needle: string) {
    at + |needle| <= |s| && s[at..at + |needle|] == needle
  }

  /** Every place the needle occurs, overlapping ones included. */
  function Occurrences(s: string, needle: string): set<nat> {
    set at: nat | at <= |s| && OccursAt(s, at, needle)
  }

  /** The needle occurs somewhere in the text. */
  predicate Holds(s: string, needle: string) {
    needle <= s || (s != "" && Holds(s[1..], needle))
  }

  lemma {:induction false} HoldsWhenItOccurs(s: string, needle: string, at: nat)
    requires OccursAt(s, at, needle)
    ensures Holds(s, needle)
  {
    if at > 0 {
      assert s[1..][at - 1..at - 1 + |needle|] == s[at..at + |needle|];
      HoldsWhenItOccurs(s[1..], needle, at - 1);
    }
  }

  /** Two texts free of the needle stay free when joined, if the first ends in a
      character the needle does not hold. */
  lemma {:induction false} FreeAcross(front: string, rest: string, needle: string)
    requires front != "" && needle != "" && front[|front| - 1] !in needle
    requires !Holds(front, needle) && !Holds(rest, needle)
    ensures !Holds(front + rest, needle)
  {
    var whole := front + rest;
    assert whole[..|front|] == front && whole[1..] == front[1..] + rest;
    if |front| > 1 {
      FreeAcross(front[1..], rest, needle);
    } else {
      assert whole[1..] == rest;
    }
    if needle <= whole {
      assert false;
    }
  }

  // ---------------------------------------------------------------- the replacer

  predicate NoneEmpty(needles: seq<string>) {
    forall k | 0 <= k < |needles| :: needles[k] != ""
  }

  predicate NoneHolds(needles: seq<string>, c: char) {
    forall k | 0 <= k < |needles| :: c !in needles[k]
  }

  /** How much of the front of the text the first needle in the list that matches
      there takes, or nothing. */
  function MatchAt(needles: seq<string>, s: string): (taken: nat)
    ensures taken <= |s|
  {
    if needles == [] then 0
    else if needles[0] <= s then |needles[0]|
    else MatchAt(needles[1..], s)
  }

  /** One scan from the left: at every place the first needle in the list that
      matches is replaced, and what is written is never looked at again. One
      needle is Go's `strings.ReplaceAll`, several are its `strings.NewReplacer`. */
  function Replace(needles: seq<string>, marker: string, s: string): string
    decreases |s|
  {
    if s == "" then ""
    else
      var taken := MatchAt(needles, s);
      if taken > 0 then marker + Replace(needles, marker, s[taken..])
      else [s[0]] + Replace(needles, marker, s[1..])
  }

  lemma {:induction false} MatchesWhenAPrefix(needles: seq<string>, needle: string, s: string)
    requires NoneEmpty(needles) && needle in needles && needle <= s
    ensures MatchAt(needles, s) > 0
  {
    if needles[0] <= s {
      assert needles[0] != "";
    } else {
      assert needle in needles[1..];
      MatchesWhenAPrefix(needles[1..], needle, s);
    }
  }

  lemma PrefixStopsAt(needle: string, a: string, c: char, b: string)
    requires c !in needle
    ensures needle <= a + [c] + b <==> needle <= a
  {
    var whole := a + [c] + b;
    assert whole[..|a|] == a && whole[|a|] == c;
    if needle <= whole && |needle| <= |a| {
      assert whole[..|needle|] == a[..|needle|];
    }
  }

  /** Text that follows a character no needle holds changes no match before it. */
  lemma {:induction false} MatchStopsAt(needles: seq<string>, a: string, c: char, b: string)
    requires NoneHolds(needles, c)
    ensures MatchAt(needles, a + [c] + b) == MatchAt(needles, a)
  {
    if needles != [] {
      PrefixStopsAt(needles[0], a, c, b);
      MatchStopsAt(needles[1..], a, c, b);
    }
  }

  /** A character no needle holds cuts the scan in two. */
  lemma {:induction false} ReplaceSplitsAt(needles: seq<string>, marker: string, a: string, c: char, b: string)
    requires NoneHolds(needles, c)
    ensures Replace(needles, marker, a + [c] + b)
            == Replace(needles, marker, a) + [c] + Replace(needles, marker, b)
    decreases |a|
  {
    var whole := a + [c] + b;
    MatchStopsAt(needles, a, c, b);
    if a == "" {
      assert whole == [c] + b && whole[1..] == b;
    } else {
      var taken := MatchAt(needles, a);
      var step := if taken > 0 then taken else 1;
      assert whole[step..] == a[step..] + [c] + b;
      ReplaceSplitsAt(needles, marker, a[step..], c, b);
      Regroup(if taken > 0 then marker else [a[0]], Replace(needles, marker, a[step..]), [c], Replace(needles, marker, b));
    }
  }

  lemma Regroup(a: string, b: string, c: string, d: string)
    ensures a + (b + c + d) == (a + b) + c + d
  {
  }

  lemma ReplaceHead(needles: seq<string>, marker: string, s: string)
    requires s != "" && marker != ""
    ensures MatchAt(needles, s) > 0 ==> Replace(needles, marker, s) != "" && Replace(needles, marker, s)[0] == marker[0]
  {
  }

  /** The front of the result, up to the first marker, is the front of the text. */
  lemma {:induction false} FrontIsLiteral(needles: seq<string>, marker: string, s: string, front: string)
    requires marker != "" && marker[0] !in front
    requires front <= Replace(needles, marker, s)
    ensures front <= s
    decreases |s|
  {
    if front != "" {
      assert front[0] == Replace(needles, marker, s)[0];
      ReplaceHead(needles, marker, s);
      var rest := Replace(needles, marker, s[1..]);
      assert ([s[0]] + rest)[1..] == rest;
      assert front[1..] <= rest;
      FrontIsLiteral(needles, marker, s[1..], front[1..]);
      assert s == [s[0]] + s[1..];
    }
  }

  /** No part of the needle can lie across an end of the marker, and the needle
      is not inside it. */
  predicate CannotTouch(needle: string, marker: string) {
    && needle != "" && |marker| >= 2
    && marker[0] !in needle && marker[|marker| - 1] !in needle
    && !Holds(marker, needle)
  }

  predicate NoneTouches(needles: seq<string>, marker: string) {
    forall k | 0 <= k < |needles| :: CannotTouch(needles[k], marker)
  }

  /** The replacer leaves no needle behind, joins between what it kept and what
      it wrote included. */
  lemma {:induction false} ReplaceLeavesNone(needles: seq<string>, marker: string, s: string, needle: string)
    requires NoneTouches(needles, marker) && needle in needles
    ensures !Holds(Replace(needles, marker, s), needle)
    decreases |s|
  {
    if s != "" {
      var taken := MatchAt(needles, s);
      if taken > 0 {
        var rest := Replace(needles, marker, s[taken..]);
        ReplaceLeavesNone(needles, marker, s[taken..], needle);
        FreeAcross(marker, rest, needle);
      } else {
        var rest := Replace(needles, marker, s[1..]);
        ReplaceLeavesNone(needles, marker, s[1..], needle);
        assert ([s[0]] + rest)[1..] == rest;
        if needle <= Replace(needles, marker, s) {
          FrontIsLiteral(needles, marker, s, needle);
          MatchesWhenAPrefix(needles, needle, s);
          assert false;
        }
      }
    }
  }

  predicate NoneOccurs(needles: seq<string>, s: string) {
    forall k | 0 <= k < |needles| :: !Holds(s, needles[k])
  }

  lemma {:induction false} FreeTextMatchesNothing(needles: seq<string>, s: string)
    requires NoneOccurs(needles, s)
    ensures MatchAt(needles, s) == 0
  {
    if needles != [] {
      assert !Holds(s, needles[0]);
      forall k | 0 <= k < |needles[1..]| ensures !Holds(s, needles[1..][k]) {
        assert !Holds(s, needles[k + 1]);
      }
      FreeTextMatchesNothing(needles[1..], s);
    }
  }

  /** Text that holds no needle comes through as it was. */
  lemma {:induction false} ReplaceKeepsFreeText(needles: seq<string>, marker: string, s: string)
    requires NoneOccurs(needles, s)
    ensures Replace(needles, marker, s) == s
    decreases |s|
  {
    if s != "" {
      FreeTextMatchesNothing(needles, s);
      forall k | 0 <= k < |needles| ensures !Holds(s[1..], needles[k]) {
        assert !Holds(s, needles[k]);
      }
      ReplaceKeepsFreeText(needles, marker, s[1..]);
    }
  }

  lemma {:induction false} PiecesHoldNoMore(s: string, from: nat, to: nat, needle: string)
    requires from <= to <= |s| && Holds(s[from..to], needle)
    ensures Holds(s, needle)
    decreases |s| - from
  {
    if needle <= s[from..to] {
      assert s[from..from + |needle|] == s[from..to][..|needle|];
      HoldsWhenItOccurs(s, needle, from);
    } else if from < to {
      assert s[from..to][1..] == s[from + 1..to];
      PiecesHoldNoMore(s, from + 1, to, needle);
    }
  }

  /** A piece of text that holds no needle holds none either. */
  lemma {:induction false} PiecesAreFree(needles: seq<string>, s: string, from: nat, to: nat)
    requires from <= to <= |s| && NoneOccurs(needles, s)
    ensures NoneOccurs(needles, s[from..to])
  {
    forall k | 0 <= k < |needles| ensures !Holds(s[from..to], needles[k]) {
      if Holds(s[from..to], needles[k]) {
        PiecesHoldNoMore(s, from, to, needles[k]);
      }
    }
  }

  // ---------------------------------------------------------------- lines

  /** Go's `strings.Join`. */
  function Join(parts: seq<string>, sep: string): string {
    if parts == [] then ""
    else if |parts| == 1 then parts[0]
    else parts[0] + sep + Join(parts[1..], sep)
  }

  /** Go's `strings.Split` on the newline. */
  function Lines(s: string): (lines: seq<string>)
    ensures |lines| >= 1
    ensures forall k | 0 <= k < |lines| :: '\n' !in lines[k]
  {
    if s == "" then [""]
    else if s[0] == '\n' then [""] + Lines(s[1..])
    else var rest := Lines(s[1..]); [[s[0]] + rest[0]] + rest[1..]
  }

  predicate OneLine(s: string) { '\n' !in s }

  predicate AllOneLine(lines: seq<string>) {
    forall k | 0 <= k < |lines| :: OneLine(lines[k])
  }

  lemma {:induction false} JoinOfLines(s: string)
    ensures Join(Lines(s), "\n") == s
  {
    if s != "" {
      JoinOfLines(s[1..]);
      var rest := Lines(s[1..]);
      if s[0] == '\n' {
        assert Lines(s)[1..] == rest;
      } else {
        assert Lines(s)[1..] == rest[1..];
        assert Join(Lines(s), "\n") == [s[0]] + Join(rest, "\n");
      }
    }
  }

  /** Reading one line off the front. */
  lemma {:induction false} LinesOfFirst(first: string, rest: string)
    requires OneLine(first)
    ensures Lines(first + "\n" + rest) == [first] + Lines(rest)
  {
    var s := first + "\n" + rest;
    if first == "" {
      assert s[1..] == rest;
    } else {
      assert s[1..] == first[1..] + "\n" + rest;
      LinesOfFirst(first[1..], rest);
      assert [s[0]] + first[1..] == first;
    }
  }

  lemma {:induction false} LinesOfOne(line: string)
    requires OneLine(line)
    ensures Lines(line) == [line]
  {
    if line != "" {
      LinesOfOne(line[1..]);
      assert [line[0]] + line[1..] == line;
    }
  }

  /** Splitting undoes joining when no part holds a newline. */
  lemma {:induction false} LinesOfJoin(lines: seq<string>)
    requires lines != [] && AllOneLine(lines)
    ensures Lines(Join(lines, "\n")) == lines
  {
    if |lines| == 1 {
      LinesOfOne(lines[0]);
    } else {
      LinesOfJoin(lines[1..]);
      LinesOfFirst(lines[0], Join(lines[1..], "\n"));
    }
  }

  lemma {:induction false} JoinOfAppend(a: seq<string>, b: seq<string>, sep: string)
    requires a != [] && b != []
    ensures Join(a + b, sep) == Join(a, sep) + sep + Join(b, sep)
  {
    if |a| == 1 {
      assert (a + b)[1..] == b;
    } else {
      assert (a + b)[1..] == a[1..] + b;
      JoinOfAppend(a[1..], b, sep);
    }
  }

  /** A needle with no newline in it is replaced line by line. */
  lemma {:induction false} ReplaceLineByLine(needles: seq<string>, marker: string, lines: seq<string>)
    requires NoneHolds(needles, '\n')
    ensures Replace(needles, marker, Join(lines, "\n"))
            == Join(ReplacedLines(needles, marker, lines), "\n")
  {
    if |lines| > 1 {
      var rest := Join(lines[1..], "\n");
      assert Join(lines, "\n") == lines[0] + ['\n'] + rest;
      ReplaceSplitsAt(needles, marker, lines[0], '\n', rest);
      ReplaceLineByLine(needles, marker, lines[1..]);
      assert ReplacedLines(needles, marker, lines)[1..] == ReplacedLines(needles, marker, lines[1..]);
    }
  }

  function ReplacedLines(needles: seq<string>, marker: string, lines: seq<string>): seq<string> {
    seq(|lines|, k requires 0 <= k < |lines| => Replace(needles, marker, lines[k]))
  }

  // ---------------------------------------------------------------- trimming

  /** Go's `strings.TrimRight` with a set of characters to take off. */
  function TrimRight(s: string, off: set<char>): string {
    if s != "" && s[|s| - 1] in off then TrimRight(s[..|s| - 1], off) else s
  }

  lemma {:induction false} TrimRightIsAPrefix(s: string, off: set<char>)
    ensures TrimRight(s, off) <= s
  {
    if s != "" && s[|s| - 1] in off {
      TrimRightIsAPrefix(s[..|s| - 1], off);
    }
  }

  /** Only characters of the set are taken off, and all of them at the end. */
  lemma {:induction false} TrimRightTakesOnly(s: string, off: set<char>)
    ensures var kept := TrimRight(s, off);
      && kept <= s && (forall k | |kept| <= k < |s| :: s[k] in off)
      && (kept != "" ==> kept[|kept| - 1] !in off)
  {
    if s != "" && s[|s| - 1] in off {
      TrimRightTakesOnly(s[..|s| - 1], off);
    }
  }

  /** What `unicode.IsSpace` says is a space. */
  predicate IsSpace(c: char) {
    var code := c as int;
    9 <= code <= 13 || code == 32 || code == 0x85 || code == 0xA0 || code == 0x1680 || 0x2000 <= code <= 0x200A
    || code == 0x2028 || code == 0x2029 || code == 0x202F || code == 0x205F || code == 0x3000
  }

  /** Every one of them: the tab to the carriage return, the space, next line, no-break
      space, Ogham space, the spaces from the en quad to the hair space, the line and the
      paragraph separator, and the narrow, the mathematical and the ideographic space. */
  lemma TheSpaces(c: char)
    ensures IsSpace(c) <==> c in {
      '\U{9}', '\n', '\U{B}', '\U{C}', '\r', ' ', '\U{85}', '\U{A0}', '\U{1680}', '\U{2000}', '\U{2001}', '\U{2002}',
      '\U{2003}', '\U{2004}', '\U{2005}', '\U{2006}', '\U{2007}', '\U{2008}', '\U{2009}', '\U{200A}', '\U{2028}', '\U{2029}',
      '\U{202F}', '\U{205F}', '\U{3000}'}
  {
  }

  predicate AllSpace(s: string) {
    forall k | 0 <= k < |s| :: IsSpace(s[k])
  }

  // ---------------------------------------------------------------- numbers

  function Digit(n: nat): char
    requires n < 10
  {
    ('0' as int + n) as char
  }

  /** Go's `strconv.Itoa` of a number that is not negative. */
  function Itoa(n: nat): (digits: string)
    ensures digits != ""
    ensures forall k | 0 <= k < |digits| :: '0' <= digits[k] <= '9'
  {
    if n < 10 then [Digit(n)] else Itoa(n / 10) + [Digit(n % 10)]
  }
}
