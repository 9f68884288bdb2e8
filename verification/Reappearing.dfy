/** When a needle can be found in text it was replaced in: across an end of the
    marker that was written for it, inside the marker, or around it. */
module Reappearing {
  import opened Text

  ghost predicate Reappears(needles: seq<string>, marker: string, needle: string) {
    exists raw: string :: Holds(Replace(needles, marker, raw), needle)
  }

  // ---------------------------------------------------------------- the texts to try

  /** The texts whose replacement may begin with what is given: each character of it
      as it stands, each marker of it made of one of the needles. */
  function Behind(needles: seq<string>, marker: string, t: string): set<string>
    requires marker != ""
    decreases |t|
  {
    if t == "" then {""}
    else
      (set r | r in Behind(needles, marker, t[1..]) :: [t[0]] + r)
      + (if marker <= t then set m, r | m in needles && r in Behind(needles, marker, t[|marker|..]) :: m + r
         else if t <= marker then set m | m in needles
         else {})
  }

  /** The same with the needle beginning inside a marker. */
  function BehindFrom(needles: seq<string>, marker: string, needle: string, k: nat): set<string>
    requires marker != "" && needles != [] && k < |marker|
  {
    if marker[k..] <= needle
    then set r | r in Behind(needles, marker, needle[|marker| - k..]) :: needles[0] + r
    else {}
  }

  /** Finitely many texts: if any text at all brings the needle back, one of these
      does. */
  function Trials(needles: seq<string>, marker: string, needle: string): set<string>
    requires marker != "" && needles != []
  {
    {needles[0]} + Behind(needles, marker, needle)
    + set k, r | 0 < k < |marker| && r in BehindFrom(needles, marker, needle, k) :: r
  }

  predicate MayReappear(needles: seq<string>, marker: string, needle: string)
    requires marker != "" && needles != []
  {
    exists r | r in Trials(needles, marker, needle) :: Holds(Replace(needles, marker, r), needle)
  }

  // ---------------------------------------------------------------- they are enough

  lemma {:induction false} MatchIsANeedle(needles: seq<string>, s: string)
    requires MatchAt(needles, s) > 0
    ensures s[..MatchAt(needles, s)] in needles
  {
    if needles[0] <= s {
      assert s[..MatchAt(needles, s)] == needles[0];
    } else {
      MatchIsANeedle(needles[1..], s);
    }
  }

  /** A beginning of a text that holds its first match has that match too. */
  lemma {:induction false} MatchInABeginning(needles: seq<string>, raw: string, r: string)
    requires NoneEmpty(needles) && r <= raw && MatchAt(needles, raw) <= |r|
    ensures MatchAt(needles, r) == MatchAt(needles, raw)
  {
    if needles != [] {
      if needles[0] <= raw {
        assert r[..|needles[0]|] == raw[..|needles[0]|];
      } else {
        MatchInABeginning(needles[1..], raw, r);
      }
    }
  }

  lemma ReplaceAtAMatch(needles: seq<string>, marker: string, m: string, rest: string)
    requires m != "" && MatchAt(needles, m + rest) == |m|
    ensures Replace(needles, marker, m + rest) == marker + Replace(needles, marker, rest)
  {
    assert (m + rest)[|m|..] == rest;
  }

  lemma ReplaceAtACharacter(needles: seq<string>, marker: string, c: char, rest: string)
    requires MatchAt(needles, [c] + rest) == 0
    ensures Replace(needles, marker, [c] + rest) == [c] + Replace(needles, marker, rest)
  {
    assert ([c] + rest)[1..] == rest;
  }

  /** What lies behind the beginning of any replaced text is among the texts to try,
      and does as well as the whole. */
  lemma {:induction false} SomeTextBehind(needles: seq<string>, marker: string, raw: string, t: string) returns (r: string)
    requires marker != "" && NoneEmpty(needles) && t <= Replace(needles, marker, raw)
    ensures r in Behind(needles, marker, t) && r <= raw && t <= Replace(needles, marker, r)
    decreases |raw|
  {
    hide MatchAt;
    if t == "" {
      r := "";
    } else {
      var taken := MatchAt(needles, raw);
      if taken > 0 {
        r := TextBehindAMarker(needles, marker, raw, t);
      } else {
        var rest := SomeTextBehind(needles, marker, raw[1..], Tail(needles, marker, raw, t));
        r := [t[0]] + rest;
        assert raw == [raw[0]] + raw[1..];
        MatchInABeginning(needles, raw, r);
        ReplaceAtACharacter(needles, marker, t[0], rest);
        assert t == [t[0]] + t[1..];
      }
    }
  }

  /** What is left to account for after a character that stays. */
  function Tail(needles: seq<string>, marker: string, raw: string, t: string): (tail: string)
    requires t != "" && t <= Replace(needles, marker, raw) && MatchAt(needles, raw) == 0
    ensures raw != "" && t[0] == raw[0] && tail == t[1..] && tail <= Replace(needles, marker, raw[1..])
  {
    assert Replace(needles, marker, raw)[1..] == Replace(needles, marker, raw[1..]);
    t[1..]
  }

  lemma {:induction false} TextBehindAMarker(needles: seq<string>, marker: string, raw: string, t: string) returns (r: string)
    requires marker != "" && NoneEmpty(needles) && t != "" && t <= Replace(needles, marker, raw)
    requires MatchAt(needles, raw) > 0
    ensures r in Behind(needles, marker, t) && r <= raw && t <= Replace(needles, marker, r)
    decreases |raw|, 0
  {
    hide MatchAt;
    var taken := MatchAt(needles, raw);
    var m, rest := raw[..taken], raw[taken..];
    MatchIsANeedle(needles, raw);
    assert raw == m + rest;
    var out := marker + Replace(needles, marker, rest);
    assert Replace(needles, marker, raw) == out;
    if marker <= t {
      assert t[|marker|..] <= out[|marker|..];
      var behind := SomeTextBehind(needles, marker, rest, t[|marker|..]);
      r := m + behind;
      MatchInABeginning(needles, raw, r);
      ReplaceAtAMatch(needles, marker, m, behind);
      assert t == marker + t[|marker|..];
    } else {
      assert t == out[..|t|] && |t| < |marker| by { ShorterThanTheFront(marker, Replace(needles, marker, rest), t); }
      assert t <= marker;
      r := m;
      MatchInABeginning(needles, raw, m);
      assert m + "" == m;
      ReplaceAtAMatch(needles, marker, m, "");
    }
  }

  lemma ShorterThanTheFront(front: string, rest: string, t: string)
    requires t <= front + rest && !(front <= t)
    ensures t == (front + rest)[..|t|] && |t| < |front|
  {
    var whole := front + rest;
    assert whole[..|front|] == front && whole[..|t|] == t;
    OneOfTwoBeginnings(whole, |front|, |t|);
  }

  lemma OneOfTwoBeginnings(s: string, m: nat, n: nat)
    requires m <= |s| && n <= |s|
    ensures m <= n ==> s[..m] <= s[..n]
  {
  }

  lemma {:induction false} WhereItOccurs(s: string, needle: string) returns (at: nat)
    requires Holds(s, needle)
    ensures OccursAt(s, at, needle)
  {
    if needle <= s {
      at := 0;
    } else {
      var rest := WhereItOccurs(s[1..], needle);
      at := rest + 1;
      assert s[at..at + |needle|] == s[1..][rest..rest + |needle|];
    }
  }

  lemma FirstNeedleMatches(needles: seq<string>, marker: string, rest: string)
    requires NoneEmpty(needles) && needles != []
    ensures Replace(needles, marker, needles[0] + rest) == marker + Replace(needles, marker, rest)
  {
    ReplaceAtAMatch(needles, marker, needles[0], rest);
  }

  /** An occurrence that begins inside the marker at the front of the result. */
  lemma TrialForTheFront(needles: seq<string>, marker: string, needle: string, k: nat, rest: string)
    requires marker != "" && NoneEmpty(needles) && needles != [] && needle != "" && 0 < k < |marker|
    requires OccursAt(marker + Replace(needles, marker, rest), k, needle)
    ensures MayReappear(needles, marker, needle)
  {
    hide Behind, Replace, MatchAt, Holds;
    var out := marker + Replace(needles, marker, rest);
    if |needle| <= |marker| - k {
      assert marker[k..k + |needle|] == needle;
      FirstNeedleMatches(needles, marker, "");
      assert needles[0] + "" == needles[0];
      ReplaceOfNothing(needles, marker);
      HoldsWhenItOccurs(marker + "", needle, k);
      assert needles[0] in Trials(needles, marker, needle);
    } else {
      var n := |marker| - k;
      assert needle[..n] == marker[k..];
      assert needle[n..] == out[|marker|..k + |needle|] && out[|marker|..] == Replace(needles, marker, rest);
      assert needle[n..] <= Replace(needles, marker, rest);
      var r := SomeTextBehind(needles, marker, rest, needle[n..]);
      FirstNeedleMatches(needles, marker, r);
      var again := marker + Replace(needles, marker, r);
      assert again[k..k + |needle|] == marker[k..] + needle[n..] == needle;
      HoldsWhenItOccurs(again, needle, k);
      assert needles[0] + r in BehindFrom(needles, marker, needle, k);
      assert needles[0] + r in Trials(needles, marker, needle);
    }
  }

  lemma ReplaceOfNothing(needles: seq<string>, marker: string)
    ensures Replace(needles, marker, "") == ""
  {
  }

  lemma {:induction false} SomeTrialShowsIt(needles: seq<string>, marker: string, needle: string, raw: string, at: nat)
    requires marker != "" && NoneEmpty(needles) && needles != [] && needle != ""
    requires OccursAt(Replace(needles, marker, raw), at, needle)
    ensures MayReappear(needles, marker, needle)
    decreases |raw|
  {
    hide MatchAt, Trials, Behind, MayReappear;
    var out := Replace(needles, marker, raw);
    if at == 0 {
      BeginsWithIt(needles, marker, needle, raw);
    } else {
      var taken := MatchAt(needles, raw);
      if taken == 0 {
        assert out == [raw[0]] + Replace(needles, marker, raw[1..]);
        assert out[1..][at - 1..at - 1 + |needle|] == out[at..at + |needle|];
        SomeTrialShowsIt(needles, marker, needle, raw[1..], at - 1);
      } else {
        assert out == marker + Replace(needles, marker, raw[taken..]);
        if at < |marker| {
          TrialForTheFront(needles, marker, needle, at, raw[taken..]);
        } else {
          var rest := Replace(needles, marker, raw[taken..]);
          var from := at - |marker|;
          assert rest[from..from + |needle|] == out[at..at + |needle|];
          SomeTrialShowsIt(needles, marker, needle, raw[taken..], from);
        }
      }
    }
  }

  lemma BeginsWithIt(needles: seq<string>, marker: string, needle: string, raw: string)
    requires marker != "" && NoneEmpty(needles) && needles != [] && needle <= Replace(needles, marker, raw)
    ensures MayReappear(needles, marker, needle)
  {
    hide MatchAt, Behind, Replace;
    var r := SomeTextBehind(needles, marker, raw, needle);
    assert r in Trials(needles, marker, needle);
  }

  /** A needle can be found in some replaced text exactly when one of the finitely
      many texts to try shows it. */
  lemma ReappearsExactlyWhen(needles: seq<string>, marker: string, needle: string)
    requires marker != "" && NoneEmpty(needles) && needles != [] && needle != ""
    ensures Reappears(needles, marker, needle) <==> MayReappear(needles, marker, needle)
  {
    hide Trials, Replace, Holds;
    if Reappears(needles, marker, needle) {
      var raw :| Holds(Replace(needles, marker, raw), needle);
      var at := WhereItOccurs(Replace(needles, marker, raw), needle);
      SomeTrialShowsIt(needles, marker, needle, raw, at);
    }
  }

  // ---------------------------------------------------------------- one needle

  /** The needle and a marker written at this place of it, before its beginning when
      negative, agree wherever both are. */
  predicate Agree(needle: string, marker: string, o: int) {
    forall i | 0 <= i < |needle| && o <= i < o + |marker| :: needle[i] == marker[i - o]
  }

  /** The scan gets to a needle that follows the first characters of one. */
  predicate ScanGetsTo(needle: string, o: nat)
    requires o <= |needle|
  {
    forall j | 0 <= j < o :: !OccursAt(needle[..o] + needle, j, needle)
  }

  predicate CanLieAcross(needle: string, marker: string) {
    exists o | -|marker| < o < |needle| :: Agree(needle, marker, o) && (o <= 0 || ScanGetsTo(needle, o))
  }

  lemma OneNeedleMatches(needle: string, s: string)
    ensures MatchAt([needle], s) == if needle <= s then |needle| else 0
  {
    assert [needle][1..] == [];
  }

  lemma OneStep(needle: string, marker: string, raw: string)
    requires needle != ""
    ensures raw == "" ==> Replace([needle], marker, raw) == ""
    ensures needle <= raw ==> Replace([needle], marker, raw) == marker + Replace([needle], marker, raw[|needle|..])
    ensures raw != "" && !(needle <= raw)
            ==> Replace([needle], marker, raw) == [raw[0]] + Replace([needle], marker, raw[1..])
  {
    OneNeedleMatches(needle, raw);
  }

  /** Whether it occurs at a place depends on no more of the text than it covers. */
  lemma OccursInABeginning(front: string, whole: string, j: nat, needle: string)
    requires front <= whole
    ensures OccursAt(front, j, needle) ==> OccursAt(whole, j, needle)
    ensures j + |needle| <= |front| && OccursAt(whole, j, needle) ==> OccursAt(front, j, needle)
  {
    assert j + |needle| <= |front| ==> front[j..j + |needle|] == whole[j..j + |needle|];
  }

  lemma OccursInTheRest(s: string, j: nat, needle: string)
    requires s != ""
    ensures OccursAt(s, j + 1, needle) <==> OccursAt(s[1..], j, needle)
  {
    assert j + 1 + |needle| <= |s| ==> s[1..][j..j + |needle|] == s[j + 1..j + 1 + |needle|];
  }

  /** Characters at which the needle does not begin are kept. */
  lemma {:induction false} KeptUpTo(needle: string, marker: string, front: string, rest: string)
    requires needle != "" && forall j | 0 <= j < |front| :: !OccursAt(front + rest, j, needle)
    ensures Replace([needle], marker, front + rest) == front + Replace([needle], marker, rest)
    decreases |front|
  {
    var whole := front + rest;
    if front == "" {
      assert whole == rest;
    } else {
      assert !OccursAt(whole, 0, needle);
      OneNeedleMatches(needle, whole);
      assert whole[1..] == front[1..] + rest;
      forall j | 0 <= j < |front| - 1 ensures !OccursAt(front[1..] + rest, j, needle) {
        OccursInTheRest(whole, j, needle);
      }
      KeptUpTo(needle, marker, front[1..], rest);
    }
  }

  /** Text shorter than the needle is kept. */
  lemma ShortTextIsKept(needle: string, marker: string, text: string)
    requires |text| < |needle|
    ensures Replace([needle], marker, text) == text
  {
    KeptUpTo(needle, marker, text, "");
    assert text + "" == text;
  }

  lemma LiesAcrossOne(needle: string, marker: string, o: int)
    requires needle != "" && -|marker| < o < |needle| && Agree(needle, marker, o) && (o <= 0 || ScanGetsTo(needle, o))
    ensures Reappears([needle], marker, needle)
  {
    hide Replace;
    var front := if o > 0 then needle[..o] else "";
    var after := if o + |marker| < |needle| then needle[o + |marker|..] else "";
    var raw := front + (needle + after);
    ShortTextIsKept(needle, marker, after);
    OneNeedleMatches(needle, needle + after);
    ReplaceAtAMatch([needle], marker, needle, after);
    forall j | 0 <= j < |front| ensures !OccursAt(raw, j, needle) {
      var near := needle[..o] + needle;
      assert raw[..|near|] == near;
      OccursInABeginning(near, raw, j, needle);
    }
    KeptUpTo(needle, marker, front, needle + after);
    var out := front + (marker + after);
    assert Replace([needle], marker, needle + after) == marker + after;
    assert Replace([needle], marker, raw) == out;
    var at := if o > 0 then 0 else -o;
    assert out[at..at + |needle|] == needle;
    HoldsWhenItOccurs(out, needle, at);
  }

  /** Where the first marker is that a beginning of the result runs into: up to there
      it is the text itself, and the needle begins nowhere before. */
  lemma {:induction false} FirstMarker(needle: string, marker: string, raw: string, t: string) returns (o: nat)
    requires needle != "" && marker != "" && t <= Replace([needle], marker, raw)
    ensures o <= |t| && o <= |raw| && raw[..o] == t[..o] && forall j | 0 <= j < o :: !OccursAt(raw, j, needle)
    ensures o < |t| ==> needle <= raw[o..] && forall i | o <= i < |t| && i < o + |marker| :: t[i] == marker[i - o]
    decreases |raw|
  {
    hide Replace, OccursAt;
    OneStep(needle, marker, raw);
    if t == "" {
      o := 0;
    } else if needle <= raw {
      o := 0;
      BeginningAgrees(marker, Replace([needle], marker, raw[|needle|..]), t);
    } else {
      var rest := FirstMarker(needle, marker, raw[1..], t[1..]);
      o := rest + 1;
      OneFurther(needle, marker, raw, t, rest);
    }
  }

  lemma BeginningAgrees(front: string, rest: string, t: string)
    requires t <= front + rest
    ensures forall i | 0 <= i < |t| && i < |front| :: t[i] == front[i]
  {
  }

  lemma OneFurther(needle: string, marker: string, raw: string, t: string, rest: nat)
    requires raw != "" && t != "" && raw[0] == t[0] && !(needle <= raw)
    requires rest < |t| && rest < |raw| && raw[1..][..rest] == t[1..][..rest]
    requires forall j | 0 <= j < rest :: !OccursAt(raw[1..], j, needle)
    requires rest < |t| - 1 ==>
      needle <= raw[1..][rest..] && forall i | rest <= i < |t| - 1 && i < rest + |marker| :: t[1..][i] == marker[i - rest]
    ensures var o := rest + 1;
      && raw[..o] == t[..o] && (forall j | 0 <= j < o :: !OccursAt(raw, j, needle))
      && (o < |t| ==> needle <= raw[o..] && forall i | o <= i < |t| && i < o + |marker| :: t[i] == marker[i - o])
  {
    var o := rest + 1;
    forall j | 0 <= j < o ensures !OccursAt(raw, j, needle) {
      if j > 0 {
        OccursInTheRest(raw, j - 1, needle);
      }
    }
    assert raw[..o] == [raw[0]] + raw[1..][..rest] && t[..o] == [t[0]] + t[1..][..rest];
    assert raw[o..] == raw[1..][rest..];
    forall i | o <= i < |t| && i < o + |marker| ensures t[i] == marker[i - o] {
      assert t[i] == t[1..][i - 1];
    }
  }

  lemma BeginsAcross(needle: string, marker: string, raw: string)
    requires needle != "" && marker != "" && needle <= Replace([needle], marker, raw)
    ensures CanLieAcross(needle, marker)
  {
    hide Replace;
    var o := FirstMarker(needle, marker, raw, needle);
    assert o == |needle| ==> OccursAt(raw, 0, needle);
    var near := needle[..o] + needle;
    assert raw[o..][..|needle|] == needle;
    assert raw[..o + |needle|] == near;
    forall j | 0 <= j < o ensures !OccursAt(near, j, needle) {
      OccursInABeginning(near, raw, j, needle);
    }
    assert Agree(needle, marker, o);
  }

  lemma {:induction false} SomewhereAcross(needle: string, marker: string, raw: string, at: nat)
    requires needle != "" && marker != "" && OccursAt(Replace([needle], marker, raw), at, needle)
    ensures CanLieAcross(needle, marker)
    decreases |raw|
  {
    hide CanLieAcross, Replace;
    var out := Replace([needle], marker, raw);
    OneStep(needle, marker, raw);
    if at == 0 {
      BeginsAcross(needle, marker, raw);
    } else if needle <= raw {
      var rest := Replace([needle], marker, raw[|needle|..]);
      if at < |marker| {
        InsideTheFront(needle, marker, rest, at);
      } else {
        assert rest[at - |marker|..at - |marker| + |needle|] == out[at..at + |needle|];
        SomewhereAcross(needle, marker, raw[|needle|..], at - |marker|);
      }
    } else {
      assert out[1..] == Replace([needle], marker, raw[1..]);
      OccursInTheRest(out, at - 1, needle);
      SomewhereAcross(needle, marker, raw[1..], at - 1);
    }
  }

  lemma InsideTheFront(needle: string, marker: string, rest: string, at: nat)
    requires needle != "" && at < |marker| && OccursAt(marker + rest, at, needle)
    ensures CanLieAcross(needle, marker)
  {
    var out := marker + rest;
    var o: int := 0 - at;
    forall i | 0 <= i < |needle| && o <= i < o + |marker| ensures needle[i] == marker[i - o] {
      assert needle[i] == out[at..at + |needle|][i];
    }
    assert Agree(needle, marker, o);
  }

  /** One needle, whatever it is: it can be found again exactly when it agrees with
      the marker at some place the scan can leave one. */
  lemma OneNeedleReappearsExactlyWhen(needle: string, marker: string)
    requires needle != "" && marker != ""
    ensures Reappears([needle], marker, needle) <==> CanLieAcross(needle, marker)
  {
    hide Replace, Holds;
    if Reappears([needle], marker, needle) {
      var raw :| Holds(Replace([needle], marker, raw), needle);
      var at := WhereItOccurs(Replace([needle], marker, raw), needle);
      SomewhereAcross(needle, marker, raw, at);
    }
    if CanLieAcross(needle, marker) {
      var o :| -|marker| < o < |needle| && Agree(needle, marker, o) && (o <= 0 || ScanGetsTo(needle, o));
      LiesAcrossOne(needle, marker, o);
    }
  }
}
