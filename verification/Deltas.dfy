/** Streaming a reply to the screens without letting a secret out in pieces. */
module Deltas {
  import opened Text
  import opened Reappearing

  const MARKER := "[redacted]"
  const HOLD_BACK_RUNES := 64
  const DELTA_COALESCE := 30
  const MIN_REDACTED_VALUE_LENGTH := 6
  const BLANK := {' ', '\t', '\r', '\n'}

  /** The vault's pass over the values it holds, which it keeps longest first. */
  function Redact(secrets: seq<string>, text: string): string {
    Replace(secrets, MARKER, text)
  }

  predicate LongestFirst(secrets: seq<string>) {
    NoneEmpty(secrets) && forall i, j | 0 <= i < j < |secrets| :: |secrets[i]| >= |secrets[j]|
  }

  /** The values the vault blacks out: none shorter than six, longest first. */
  predicate VaultKeeps(secrets: seq<string>) {
    LongestFirst(secrets) && forall k | 0 <= k < |secrets| :: |secrets[k]| >= MIN_REDACTED_VALUE_LENGTH
  }

  /** The text with its last runes taken off. */
  function HeldBack(text: string): string {
    if |text| <= HOLD_BACK_RUNES then "" else text[..|text| - HOLD_BACK_RUNES]
  }

  method WithoutTail(text: string) returns (kept: string)
    ensures kept == HeldBack(text)
  {
    if |text| <= HOLD_BACK_RUNES {
      return "";
    }
    kept := text;
    for taken := 0 to HOLD_BACK_RUNES
      invariant kept == text[..|text| - taken]
    {
      kept := kept[..|kept| - 1];
    }
  }

  // ---------------------------------------------------------------- when holding back is enough

  /** A secret cut short shows nothing the secret whole would not: what is shown of
      any of its beginnings is the beginning of the marker. */
  predicate Steady(secrets: seq<string>) {
    forall k, n | 0 <= k < |secrets| && 0 <= n < |secrets[k]| :: HeldBack(Redact(secrets, secrets[k][..n])) <= MARKER
  }

  predicate CutShort(needles: seq<string>, raw: string) {
    exists k | 0 <= k < |needles| :: |needles[k]| > |raw| && raw == needles[k][..|raw|]
  }

  lemma PrefixOfMore(needle: string, raw: string, more: string)
    ensures |needle| <= |raw| ==> (needle <= raw + more <==> needle <= raw)
    ensures |needle| > |raw| && needle <= raw + more ==> raw == needle[..|raw|]
  {
    var whole := raw + more;
    assert whole[..|raw|] == raw;
    if |needle| <= |raw| {
      assert whole[..|needle|] == raw[..|needle|];
    } else if needle <= whole {
      assert needle[..|raw|] == whole[..|raw|];
    }
  }

  /** More text changes the match at the front only by completing a needle that
      was cut short. */
  lemma {:induction false} MoreTextMatchesTheSame(needles: seq<string>, raw: string, more: string)
    ensures MatchAt(needles, raw + more) == MatchAt(needles, raw) || (MatchAt(needles, raw + more) > 0 && CutShort(needles, raw))
  {
    if needles != [] {
      PrefixOfMore(needles[0], raw, more);
      MoreTextMatchesTheSame(needles[1..], raw, more);
      if CutShort(needles[1..], raw) {
        var k :| 0 <= k < |needles[1..]| && |needles[1..][k]| > |raw| && raw == needles[1..][k][..|raw|];
        assert raw == needles[k + 1][..|raw|];
      }
    }
  }

  lemma HeldBackOfJoined(front: string, rest: string, later: string)
    requires HeldBack(rest) <= later
    ensures HeldBack(front + rest) <= front + later
  {
    var all := front + rest;
    if |rest| >= HOLD_BACK_RUNES {
      assert all[..|all| - HOLD_BACK_RUNES] == front + rest[..|rest| - HOLD_BACK_RUNES];
    } else if |all| > HOLD_BACK_RUNES {
      assert all[..|all| - HOLD_BACK_RUNES] == front[..|all| - HOLD_BACK_RUNES];
    }
  }

  /** For steady secrets, every text so far and every continuation: what may be
      shown now is the beginning of what the whole reply will read. */
  lemma {:induction false} HoldingBackIsEnough(secrets: seq<string>, raw: string, more: string)
    requires Steady(secrets)
    ensures HeldBack(Redact(secrets, raw)) <= Redact(secrets, raw + more)
    decreases |raw|
  {
    if raw != "" {
      var taken, whole := MatchAt(secrets, raw), raw + more;
      MoreTextMatchesTheSame(secrets, raw, more);
      if MatchAt(secrets, whole) == taken {
        var step := if taken > 0 then taken else 1;
        var front := if taken > 0 then MARKER else [raw[0]];
        assert whole[step..] == raw[step..] + more;
        HoldingBackIsEnough(secrets, raw[step..], more);
        HeldBackOfJoined(front, Redact(secrets, raw[step..]), Redact(secrets, whole[step..]));
      } else {
        var k :| 0 <= k < |secrets| && |secrets[k]| > |raw| && raw == secrets[k][..|raw|];
        assert HeldBack(Redact(secrets, secrets[k][..|raw|])) <= MARKER;
        assert Redact(secrets, whole) == MARKER + Redact(secrets, whole[MatchAt(secrets, whole)..]);
      }
    }
  }

  lemma {:induction false} LongestMatchesItself(secrets: seq<string>, k: nat)
    requires LongestFirst(secrets) && k < |secrets|
    ensures MatchAt(secrets, secrets[k]) == |secrets[k]|
  {
    var secret := secrets[k];
    if k > 0 {
      if secrets[0] <= secret {
        assert |secrets[0]| >= |secret|;
      } else {
        assert secrets[1..][k - 1] == secret;
        LongestMatchesItself(secrets[1..], k - 1);
      }
    }
  }

  /** And no others will do: a secret that is not steady is a reply that shows what
      its whole text does not begin with. */
  lemma UnsteadySecretsAreShownWrongly(secrets: seq<string>, k: nat, n: nat)
    requires LongestFirst(secrets) && k < |secrets| && n < |secrets[k]|
    requires !(HeldBack(Redact(secrets, secrets[k][..n])) <= MARKER)
    ensures var raw, more := secrets[k][..n], secrets[k][n..]; !(HeldBack(Redact(secrets, raw)) <= Redact(secrets, raw + more))
  {
    LongestMatchesItself(secrets, k);
    assert secrets[k][..n] + secrets[k][n..] == secrets[k];
    assert secrets[k][|secrets[k]|..] == "";
    assert Replace(secrets, MARKER, "") == "" && MARKER + "" == MARKER;
    assert Redact(secrets, secrets[k]) == MARKER;
  }

  ghost predicate ShownIsAlwaysTheBeginning(secrets: seq<string>) {
    forall raw: string, more: string :: HeldBack(Redact(secrets, raw)) <= Redact(secrets, raw + more)
  }

  /** Holding back sixty-four runes is enough exactly for steady secrets. */
  lemma HoldingBackIsEnoughExactlyWhenSteady(secrets: seq<string>)
    requires LongestFirst(secrets)
    ensures ShownIsAlwaysTheBeginning(secrets) <==> Steady(secrets)
  {
    hide Replace, HeldBack;
    if Steady(secrets) {
      forall raw: string, more: string ensures HeldBack(Redact(secrets, raw)) <= Redact(secrets, raw + more) {
        HoldingBackIsEnough(secrets, raw, more);
      }
    } else {
      var k, n :| 0 <= k < |secrets| && 0 <= n < |secrets[k]| && !(HeldBack(Redact(secrets, secrets[k][..n])) <= MARKER);
      UnsteadySecretsAreShownWrongly(secrets, k, n);
    }
  }

  predicate InsideAnother(secrets: seq<string>, k: nat)
    requires k < |secrets| && secrets[k] != ""
  {
    exists j | 0 <= j < |secrets| :: Holds(secrets[k][..|secrets[k]| - 1], secrets[j])
  }

  /** The secrets the hold-back is sized for: at most sixty-four runes each, and
      none with another in it before its last rune. */
  lemma ShortSecretsAreSteady(secrets: seq<string>)
    requires NoneEmpty(secrets)
    requires forall k | 0 <= k < |secrets| :: |secrets[k]| <= HOLD_BACK_RUNES && !InsideAnother(secrets, k)
    ensures Steady(secrets)
  {
    forall k, n | 0 <= k < |secrets| && 0 <= n < |secrets[k]| ensures HeldBack(Redact(secrets, secrets[k][..n])) <= MARKER {
      var most := secrets[k][..|secrets[k]| - 1];
      assert !InsideAnother(secrets, k);
      PiecesAreFree(secrets, most, 0, n);
      assert most[0..n] == secrets[k][..n];
      ReplaceKeepsFreeText(secrets, MARKER, secrets[k][..n]);
    }
  }

  lemma {:induction false} HoldsNeedsRoom(s: string, needle: string)
    requires Holds(s, needle)
    ensures |needle| <= |s|
  {
    if !(needle <= s) {
      HoldsNeedsRoom(s[1..], needle);
    }
  }

  /** One secret of at most sixty-four runes, whatever it is. */
  lemma OneShortSecretIsSteady(secret: string)
    requires 0 < |secret| <= HOLD_BACK_RUNES
    ensures Steady([secret])
  {
    if Holds(secret[..|secret| - 1], secret) {
      HoldsNeedsRoom(secret[..|secret| - 1], secret);
    }
    ShortSecretsAreSteady([secret]);
  }

  function Repeated(s: string, times: nat): string {
    if times == 0 then "" else s + Repeated(s, times - 1)
  }

  lemma {:induction false} RepeatedRedacts(longer: string, secret: string, times: nat)
    requires secret != "" && |longer| > |Repeated(secret, times)|
    ensures Redact([longer, secret], Repeated(secret, times)) == Repeated(MARKER, times)
  {
    if times > 0 {
      var all, rest := Repeated(secret, times), Repeated(secret, times - 1);
      assert all[|secret|..] == rest && all[..|secret|] == secret;
      assert [longer, secret][1..] == [secret] && MatchAt([secret], all) == |secret|;
      RepeatedRedacts(longer, secret, times - 1);
    }
  }

  lemma {:induction false} RepeatedLength(s: string, times: nat)
    ensures |Repeated(s, times)| == |s| * times
  {
    if times > 0 {
      RepeatedLength(s, times - 1);
    }
  }

  /** Short secrets are not all steady: a secret of sixty-one runes made of ten
      copies of a shorter one is redacted ten times over before it is complete,
      and once it is complete all of that is withdrawn. */
  lemma ASecretInsideAnotherIsNotSteady()
    ensures var shorter := "abcdef"; var longer := Repeated(shorter, 10) + "g";
      LongestFirst([longer, shorter]) && |longer| <= HOLD_BACK_RUNES && !Steady([longer, shorter])
  {
    var shorter := "abcdef";
    var copies := Repeated(shorter, 10);
    var longer := copies + "g";
    RepeatedLength(shorter, 10);
    RepeatedLength(MARKER, 10);
    RepeatedRedacts(longer, shorter, 10);
    var secrets := [longer, shorter];
    assert secrets[0][..60] == copies;
    assert |HeldBack(Redact(secrets, secrets[0][..60]))| == 36;
  }

  // ---------------------------------------------------------------- what a screen shows

  datatype Envelope = Piece(text: string) | Reset

  /** The pieces since the last reset, put together. */
  function Told(sent: seq<Envelope>): string {
    if sent == [] then ""
    else
      match sent[|sent| - 1]
      case Reset => ""
      case Piece(text) => Told(sent[..|sent| - 1]) + text
  }

  /** What a screen shows: every piece is redacted once more as it is written. */
  function Displayed(secrets: seq<string>, sent: seq<Envelope>): string {
    if sent == [] then ""
    else
      match sent[|sent| - 1]
      case Reset => ""
      case Piece(text) => Displayed(secrets, sent[..|sent| - 1]) + Redact(secrets, text)
  }

  lemma ToldGrows(sent: seq<Envelope>, one: Envelope)
    ensures Told(sent + [one]) == match one case Reset => "" case Piece(text) => Told(sent) + text
  {
    assert (sent + [one])[..|sent|] == sent;
  }

  /** Every piece is what the second pass makes of it. */
  predicate PiecesKept(secrets: seq<string>, sent: seq<Envelope>) {
    forall k | 0 <= k < |sent| && sent[k].Piece? :: Redact(secrets, sent[k].text) == sent[k].text
  }

  lemma KeptGrows(secrets: seq<string>, sent: seq<Envelope>, one: Envelope)
    requires one.Piece? ==> Redact(secrets, one.text) == one.text
    ensures PiecesKept(secrets, sent) ==> PiecesKept(secrets, sent + [one])
  {
    assert forall k | 0 <= k < |sent| :: (sent + [one])[k] == sent[k];
  }

  lemma {:induction false} KeptPiecesAreShownAsSent(secrets: seq<string>, sent: seq<Envelope>)
    requires PiecesKept(secrets, sent)
    ensures Displayed(secrets, sent) == Told(sent)
  {
    if sent != [] && sent[|sent| - 1].Piece? {
      KeptPiecesAreShownAsSent(secrets, sent[..|sent| - 1]);
    }
  }

  /** No secret but the marker's own words can be found in text that was redacted:
      finitely many texts are tried for each. */
  predicate OnlyTheMarkerReappears(secrets: seq<string>) {
    forall k | 0 <= k < |secrets| :: secrets[k] == MARKER || !MayReappear(secrets, MARKER, secrets[k])
  }

  /** A secret that reads as the marker changes nothing. */
  lemma {:induction false} OnlyMarkersAreKept(secrets: seq<string>, text: string)
    requires NoneEmpty(secrets) && forall k | 0 <= k < |secrets| :: Holds(text, secrets[k]) ==> secrets[k] == MARKER
    ensures Redact(secrets, text) == text
    decreases |text|
  {
    if text != "" {
      var taken := MatchAt(secrets, text);
      var step := if taken > 0 then taken else 1;
      if taken > 0 {
        MatchIsANeedle(secrets, text);
        var k :| 0 <= k < |secrets| && secrets[k] == text[..taken];
        assert text == text[..taken] + text[taken..];
      } else {
        assert text == [text[0]] + text[1..];
      }
      forall k | 0 <= k < |secrets| ensures Holds(text[step..], secrets[k]) ==> secrets[k] == MARKER {
        if Holds(text[step..], secrets[k]) {
          assert text[step..|text|] == text[step..];
          PiecesHoldNoMore(text, step, |text|, secrets[k]);
        }
      }
      OnlyMarkersAreKept(secrets, text[step..]);
    }
  }

  lemma PiecesOfRedactedTextAreKept(secrets: seq<string>, raw: string, from: nat, to: nat)
    requires NoneEmpty(secrets) && OnlyTheMarkerReappears(secrets) && from <= to <= |Redact(secrets, raw)|
    ensures Redact(secrets, Redact(secrets, raw)[from..to]) == Redact(secrets, raw)[from..to]
  {
    hide MayReappear, Replace;
    var piece := Redact(secrets, raw)[from..to];
    forall k | 0 <= k < |secrets| ensures Holds(piece, secrets[k]) ==> secrets[k] == MARKER {
      if Holds(piece, secrets[k]) {
        PiecesHoldNoMore(Redact(secrets, raw), from, to, secrets[k]);
        ReappearsExactlyWhen(secrets, MARKER, secrets[k]);
      }
    }
    OnlyMarkersAreKept(secrets, piece);
  }

  predicate AllPieces(sent: seq<Envelope>) {
    forall k | 0 <= k < |sent| :: sent[k].Piece?
  }

  lemma {:induction false} CutsAreKept(secrets: seq<string>, raw: string, sent: seq<Envelope>)
    requires NoneEmpty(secrets) && OnlyTheMarkerReappears(secrets)
    requires AllPieces(sent) && Told(sent) <= Redact(secrets, raw)
    ensures Displayed(secrets, sent) == Told(sent)
  {
    hide OnlyTheMarkerReappears, Replace;
    if sent != [] {
      var front, piece := sent[..|sent| - 1], sent[|sent| - 1].text;
      var redacted := Redact(secrets, raw);
      assert Told(sent) == Told(front) + piece;
      assert Told(front) == redacted[..|Told(front)|] && piece == redacted[|Told(front)|..|Told(sent)|];
      CutsAreKept(secrets, raw, front);
      PiecesOfRedactedTextAreKept(secrets, raw, |Told(front)|, |Told(sent)|);
    }
  }

  /** However the redaction of a reply is cut into pieces, the screens show it. */
  ghost predicate ShownAsTold(secrets: seq<string>) {
    forall raw, sent | AllPieces(sent) && Told(sent) == Redact(secrets, raw) :: Displayed(secrets, sent) == Told(sent)
  }

  function Singles(s: string): seq<Envelope> {
    seq(|s|, k requires 0 <= k < |s| => Piece([s[k]]))
  }

  lemma {:induction false} LongNeedlesMatchNothing(needles: seq<string>, s: string)
    requires forall k | 0 <= k < |needles| :: |needles[k]| > |s|
    ensures MatchAt(needles, s) == 0
  {
    if needles != [] {
      LongNeedlesMatchNothing(needles[1..], s);
    }
  }

  lemma {:induction false} SinglesAreShown(secrets: seq<string>, s: string)
    requires VaultKeeps(secrets)
    ensures AllPieces(Singles(s)) && Told(Singles(s)) == s && Displayed(secrets, Singles(s)) == s
  {
    if s != "" {
      var front, last := s[..|s| - 1], [s[|s| - 1]];
      SinglesAreShown(secrets, front);
      assert Singles(s)[..|s| - 1] == Singles(front);
      LongNeedlesMatchNothing(secrets, last);
      assert last + "" == last;
      ReplaceAtACharacter(secrets, MARKER, last[0], "");
      ReplaceOfNothing(secrets, MARKER);
      assert s == front + last;
    }
  }

  lemma {:induction false} JoinedStreams(secrets: seq<string>, a: seq<Envelope>, b: seq<Envelope>)
    requires AllPieces(b)
    ensures Told(a + b) == Told(a) + Told(b) && Displayed(secrets, a + b) == Displayed(secrets, a) + Displayed(secrets, b)
  {
    hide Replace, Told, Displayed;
    if b == [] {
      assert a + b == a;
      NothingSentShowsNothing(secrets);
    } else {
      var front, piece := b[..|b| - 1], b[|b| - 1];
      JoinedStreams(secrets, a, front);
      assert a + b == (a + front) + [piece] && b == front + [piece];
      StreamsGrow(secrets, a + front, piece);
      StreamsGrow(secrets, front, piece);
    }
  }

  lemma NothingSentShowsNothing(secrets: seq<string>)
    ensures Told([]) == "" && Displayed(secrets, []) == ""
  {
  }

  lemma StreamsGrow(secrets: seq<string>, sent: seq<Envelope>, piece: Envelope)
    requires piece.Piece?
    ensures Told(sent + [piece]) == Told(sent) + piece.text
    ensures Displayed(secrets, sent + [piece]) == Displayed(secrets, sent) + Redact(secrets, piece.text)
  {
    assert (sent + [piece])[..|sent|] == sent;
  }

  lemma SecretsBecomeMarkers(secrets: seq<string>, k: nat)
    requires LongestFirst(secrets) && k < |secrets|
    ensures Redact(secrets, secrets[k]) == MARKER
  {
    LongestMatchesItself(secrets, k);
    assert secrets[k][|secrets[k]|..] == "";
    assert Replace(secrets, MARKER, "") == "" && MARKER + "" == MARKER;
  }

  /** A stream of single characters around one secret. */
  lemma CutAround(secrets: seq<string>, k: nat, front: string, after: string) returns (sent: seq<Envelope>)
    requires VaultKeeps(secrets) && k < |secrets|
    ensures AllPieces(sent) && Told(sent) == front + secrets[k] + after
    ensures Displayed(secrets, sent) == front + MARKER + after
  {
    hide Replace, VaultKeeps;
    SinglesAreShown(secrets, front);
    SinglesAreShown(secrets, after);
    assert VaultKeeps(secrets) ==> LongestFirst(secrets) by { VaultKeepsLongestFirst(secrets); }
    SecretsBecomeMarkers(secrets, k);
    var first := Singles(front) + [Piece(secrets[k])];
    assert first[..|first| - 1] == Singles(front);
    JoinedStreams(secrets, first, Singles(after));
    sent := first + Singles(after);
  }

  lemma VaultKeepsLongestFirst(secrets: seq<string>)
    ensures VaultKeeps(secrets) ==> LongestFirst(secrets) && NoneEmpty(secrets)
  {
  }

  /** A secret that can reappear is a reply, cut so, that shows something else. */
  lemma AReappearingSecretShows(secrets: seq<string>, k: nat)
    requires VaultKeeps(secrets) && k < |secrets| && secrets[k] != MARKER && MayReappear(secrets, MARKER, secrets[k])
    ensures !ShownAsTold(secrets)
  {
    hide Replace, MayReappear, Holds, Told, Displayed, AllPieces;
    var secret := secrets[k];
    ReappearsExactlyWhen(secrets, MARKER, secret);
    var raw :| Holds(Replace(secrets, MARKER, raw), secret);
    var redacted := Redact(secrets, raw);
    var at := WhereItOccurs(redacted, secret);
    var front, after := redacted[..at], redacted[at + |secret|..];
    var sent := CutAround(secrets, k, front, after);
    assert redacted == front + secret + after;
    DifferentMiddles(front, MARKER, secret, after);
  }

  lemma DifferentMiddles(front: string, a: string, b: string, after: string)
    requires a != b
    ensures front + a + after != front + b + after
  {
    assert (front + a + after)[|front|..|front| + |a|] == a;
    assert (front + b + after)[|front|..|front| + |b|] == b;
  }

  /** What is displayed is what was told, for every reply and every way it is cut into
      pieces, exactly when no secret but the marker itself can reappear. */
  lemma ShownAsToldExactlyWhen(secrets: seq<string>)
    requires VaultKeeps(secrets)
    ensures ShownAsTold(secrets) <==> OnlyTheMarkerReappears(secrets)
  {
    hide MayReappear, Replace;
    if OnlyTheMarkerReappears(secrets) {
      forall raw, sent | AllPieces(sent) && Told(sent) == Redact(secrets, raw)
        ensures Displayed(secrets, sent) == Told(sent)
      {
        CutsAreKept(secrets, raw, sent);
      }
    } else {
      var k :| 0 <= k < |secrets| && secrets[k] != MARKER && MayReappear(secrets, MARKER, secrets[k]);
      AReappearingSecretShows(secrets, k);
    }
  }

  /** With one secret it comes to where the secret and a marker can lie across each
      other. */
  lemma OneSecretIsShownAsToldExactlyWhen(secret: string)
    requires |secret| >= MIN_REDACTED_VALUE_LENGTH
    ensures ShownAsTold([secret]) <==> secret == MARKER || !CanLieAcross(secret, MARKER)
  {
    hide MayReappear, CanLieAcross, Reappears;
    ShownAsToldExactlyWhen([secret]);
    ReappearsExactlyWhen([secret], MARKER, secret);
    OneNeedleReappearsExactlyWhen(secret, MARKER);
    assert [secret][0] == secret;
  }

  /** A square bracket in a secret does no harm of itself. */
  lemma ABracketInsideDoesNoHarm()
    ensures ShownAsTold(["p[ssword"])
  {
    var secret := "p[ssword";
    OneSecretIsShownAsToldExactlyWhen(secret);
    forall o | -|MARKER| < o < |secret| ensures !Agree(secret, MARKER, o) {
      if o <= 0 {
        assert secret[0] != MARKER[-o];
      } else if o == 1 {
        assert secret[2] != MARKER[1];
      } else {
        assert secret[o] != MARKER[0];
      }
    }
  }

  // ---------------------------------------------------------------- the streamer

  /** What has to be taken back before the visible text may be shown. */
  function Withdrawal(shown: string, visible: string): seq<Envelope> {
    if shown <= visible then [] else [Reset]
  }

  /** What waits to go out once it may. */
  function Pending(shown: string, gathered: string, visible: string): string {
    if shown <= visible then gathered + visible[|shown|..] else visible
  }

  function AsPiece(text: string): seq<Envelope> {
    if text == "" then [] else [Piece(text)]
  }

  /** What one step of the streamer does to what was sent, shown and gathered. A
      withdrawal that cannot be sent leaves everything; a piece that cannot be sent is
      let go of. */
  predicate Advanced(sent: seq<Envelope>, shown: string, gathered: string, lastFlush: Option<int>,
                     visible: string, due: bool, now: int, reached: bool,
                     sentNow: seq<Envelope>, shownNow: string, gatheredNow: string, lastFlushNow: Option<int>, ok: bool) {
    if !(shown <= visible) && !reached then
      !ok && sentNow == sent && shownNow == shown && gatheredNow == gathered && lastFlushNow == lastFlush
    else
      var pending := Pending(shown, gathered, visible);
      && shownNow == visible
      && gatheredNow == (if due then "" else pending)
      && lastFlushNow == (if due && pending != "" then Some(now) else lastFlush)
      && (ok <==> reached || !due || pending == "")
      && sentNow == sent + Withdrawal(shown, visible) + (if due && ok then AsPiece(pending) else [])
  }

  /** Whether something was taken back, or put out, between two moments. */
  ghost predicate ResetWasSent(sent: seq<Envelope>, sentNow: seq<Envelope>)
    requires sent <= sentNow
  {
    Reset in sentNow[|sent|..]
  }

  ghost predicate PieceWasSent(sent: seq<Envelope>, sentNow: seq<Envelope>)
    requires sent <= sentNow
  {
    exists text: string :: Piece(text) in sentNow[|sent|..]
  }

  lemma WhatAdvancedSends(sent: seq<Envelope>, shown: string, gathered: string, lastFlush: Option<int>,
                          visible: string, due: bool, now: int, reached: bool,
                          sentNow: seq<Envelope>, shownNow: string, gatheredNow: string, lastFlushNow: Option<int>, ok: bool)
    requires Advanced(sent, shown, gathered, lastFlush, visible, due, now, reached,
                      sentNow, shownNow, gatheredNow, lastFlushNow, ok)
    ensures sent <= sentNow && (reached ==> ok) && (ok && due ==> gatheredNow == "")
    ensures !due ==> !PieceWasSent(sent, sentNow)
    ensures ResetWasSent(sent, sentNow) <==> reached && !(shown <= visible)
    ensures !reached ==> sentNow == sent
    ensures Piece("") !in sentNow[|sent|..]
    ensures !reached && !(shown <= visible) ==>
      !ok && shownNow == shown && gatheredNow == gathered && lastFlushNow == lastFlush
    ensures PieceWasSent(sent, sentNow) ==> lastFlushNow == Some(now)
    ensures reached && !PieceWasSent(sent, sentNow) ==> lastFlushNow == lastFlush
  {
    hide ResetWasSent, PieceWasSent;
    var piece := if due && ok then Pending(shown, gathered, visible) else "";
    WhatGoesOut(sent, [], "");
    WhatGoesOut(sent, Withdrawal(shown, visible), piece);
    assert sent + [] + AsPiece("") == sent;
    assert AsPiece("") == [];
  }

  lemma WhatGoesOut(sent: seq<Envelope>, withdrawal: seq<Envelope>, piece: string)
    requires withdrawal == [] || withdrawal == [Reset]
    ensures var sentNow := sent + withdrawal + AsPiece(piece);
      && sent <= sentNow && (ResetWasSent(sent, sentNow) <==> withdrawal != []) && (PieceWasSent(sent, sentNow) <==> piece != "")
      && Piece("") !in sentNow[|sent|..]
  {
    hide AsPiece, PieceWasSent;
    var more := withdrawal + AsPiece(piece);
    Grouped(sent, withdrawal, AsPiece(piece));
    TheRest(sent, more);
    WhatIsThere(withdrawal, piece);
    if piece == "" {
      OnlyResets(sent, more);
    } else {
      WithAPiece(sent, more, piece);
    }
  }

  lemma Grouped(a: seq<Envelope>, b: seq<Envelope>, c: seq<Envelope>)
    ensures a + b + c == a + (b + c)
  {
  }

  lemma WhatIsThere(withdrawal: seq<Envelope>, piece: string)
    requires withdrawal == [] || withdrawal == [Reset]
    ensures var more := withdrawal + AsPiece(piece);
      && (Reset in more <==> withdrawal != []) && Piece("") !in more
      && (piece == "" ==> forall e | e in more :: e == Reset) && (piece != "" ==> Piece(piece) in more)
  {
  }

  lemma OnlyResets(sent: seq<Envelope>, more: seq<Envelope>)
    requires forall e | e in more :: e == Reset
    ensures !PieceWasSent(sent, sent + more)
  {
    TheRest(sent, more);
  }

  lemma WithAPiece(sent: seq<Envelope>, more: seq<Envelope>, text: string)
    requires Piece(text) in more
    ensures PieceWasSent(sent, sent + more)
  {
    TheRest(sent, more);
  }

  lemma TheRest(sent: seq<Envelope>, more: seq<Envelope>)
    ensures (sent + more)[|sent|..] == more
  {
  }

  predicate EndsIn(text: string, end: string) {
    |end| <= |text| && text[|text| - |end|..] == end
  }

  /** The first piece goes out at once, and later ones once the window has passed. */
  predicate IsDue(lastFlush: Option<int>, now: int) {
    lastFlush.None? || now - lastFlush.value >= DELTA_COALESCE
  }

  class ReplyInProgress {
    var raw: string
    var shown: string
    var gathered: string
    var lastFlush: Option<int>

    constructor ()
      ensures raw == shown == gathered == "" && lastFlush.None?
    {
      raw, shown, gathered, lastFlush := "", "", "", None;
    }
  }

  class Socket {
    const secrets: seq<string>
    /** The vault's second pass, over what looks like a secret. */
    const shapes: string -> string
    var streaming: ReplyInProgress?
    /** Everything handed to the screens, oldest first. */
    var sent: seq<Envelope>
    /** How much of it was sent before the reply in progress began, and whether
        something that should have followed could not be sent. */
    ghost var began: nat
    ghost var missed: bool

    /** The vault's redaction of a reply. */
    function Whole(raw: string): string { shapes(Redact(secrets, raw)) }

    /** The pass over shapes finds nothing. */
    ghost predicate NoShapes() {
      forall text :: shapes(text) == text
    }

    /** Secrets of which none can reappear, and nothing shaped like another. */
    ghost predicate Settled() {
      NoneEmpty(secrets) && OnlyTheMarkerReappears(secrets) && NoShapes()
    }

    /** What a screen attached since the reply began has been told, with what is
        gathered, is what was shown; and it is the redaction so far, held back. */
    ghost predicate Valid()
      reads this, streaming
    {
      && began <= |sent|
      && (Settled() ==> PiecesKept(secrets, sent[began..]))
      && (streaming != null ==> EndsIn(streaming.shown, streaming.gathered))
      && (streaming != null && !missed ==>
            && Told(sent[began..]) + streaming.gathered == streaming.shown
            && streaming.shown == HeldBack(Whole(streaming.raw)))
    }

    constructor (secrets: seq<string>, shapes: string -> string)
      ensures Valid() && streaming == null && sent == [] && this.secrets == secrets && this.shapes == shapes
    {
      this.secrets, this.shapes := secrets, shapes;
      streaming, sent, began, missed := null, [], 0, false;
    }

    /** Now that `visible` may be shown: what the screens were shown is withdrawn if
        it is not the beginning of that, and the rest is gathered. When the
        withdrawal cannot be sent nothing is gathered. */
    method Gather(reply: ReplyInProgress, visible: string, reached: bool) returns (gathered: bool)
      requires began <= |sent| && EndsIn(reply.shown, reply.gathered)
      modifies this`sent, reply
      ensures EndsIn(reply.shown, reply.gathered)
      ensures gathered <==> old(reply.shown) <= visible || reached
      ensures reply.raw == old(reply.raw) && reply.lastFlush == old(reply.lastFlush)
      ensures !gathered ==> sent == old(sent) && reply.shown == old(reply.shown) && reply.gathered == old(reply.gathered)
      ensures gathered ==>
        && sent == old(sent) + Withdrawal(old(reply.shown), visible)
        && reply.gathered == Pending(old(reply.shown), old(reply.gathered), visible) && reply.shown == visible
      ensures gathered && (Told(old(sent[began..])) + old(reply.gathered) == old(reply.shown) || !(old(reply.shown) <= visible))
              ==> Told(sent[began..]) + reply.gathered == visible
      ensures PiecesKept(secrets, old(sent[began..])) ==> PiecesKept(secrets, sent[began..])
    {
      if !(reply.shown <= visible) {
        if !reached {
          return false;
        }
        ToldGrows(sent[began..], Reset);
        KeptGrows(secrets, sent[began..], Reset);
        sent := sent + [Reset];
        assert sent[began..] == old(sent)[began..] + [Reset];
        reply.shown, reply.gathered := "", "";
      }
      reply.gathered := reply.gathered + visible[|reply.shown|..];
      reply.shown := visible;
      return true;
    }

    /** What has gathered goes out as one piece; it is let go of before it is sent,
        so a piece that cannot be sent is gone. */
    method FlushGathered(reply: ReplyInProgress, now: int, reached: bool) returns (flushed: bool)
      requires began <= |sent|
      modifies this`sent, reply
      ensures flushed <==> old(reply.gathered) == "" || reached
      ensures sent == old(sent) + if flushed then AsPiece(old(reply.gathered)) else []
      ensures reply.lastFlush == if old(reply.gathered) == "" then old(reply.lastFlush) else Some(now)
      ensures reply.raw == old(reply.raw) && reply.shown == old(reply.shown) && reply.gathered == ""
      ensures flushed ==> Told(sent[began..]) == Told(old(sent[began..])) + old(reply.gathered)
      ensures PiecesKept(secrets, old(sent[began..])) && Redact(secrets, old(reply.gathered)) == old(reply.gathered)
              ==> PiecesKept(secrets, sent[began..])
    {
      if reply.gathered == "" {
        return true;
      }
      var piece := reply.gathered;
      reply.gathered := "";
      reply.lastFlush := Some(now);
      if !reached {
        return false;
      }
      ToldGrows(sent[began..], Piece(piece));
      if Redact(secrets, piece) == piece {
        KeptGrows(secrets, sent[began..], Piece(piece));
      }
      sent := sent + [Piece(piece)];
      assert sent[began..] == old(sent[began..]) + [Piece(piece)];
      return true;
    }

    lemma GatheredIsKept(gathered: string, visible: string, raw: string)
      requires EndsIn(visible, gathered) && visible <= Whole(raw)
      ensures Settled() ==> Redact(secrets, gathered) == gathered
    {
      hide OnlyTheMarkerReappears, Replace;
      if Settled() {
        PiecesOfRedactedTextAreKept(secrets, raw, |visible| - |gathered|, |visible|);
        assert Redact(secrets, raw)[|visible| - |gathered|..|visible|] == gathered;
      }
    }

    /** Gathers what may be shown now, and sends it when it is due. */
    method Advance(reply: ReplyInProgress, visible: string, due: bool, now: int, reached: bool) returns (ok: bool)
      requires began <= |sent| && EndsIn(reply.shown, reply.gathered) && visible <= Whole(reply.raw)
      modifies this`sent, reply
      ensures EndsIn(reply.shown, reply.gathered) && reply.raw == old(reply.raw) && old(sent) <= sent
      ensures Advanced(old(sent), old(reply.shown), old(reply.gathered), old(reply.lastFlush), visible, due, now, reached,
                       sent, reply.shown, reply.gathered, reply.lastFlush, ok)
      ensures ok ==> reply.shown == visible
      ensures ok && (Told(old(sent[began..])) + old(reply.gathered) == old(reply.shown) || !(old(reply.shown) <= visible))
              ==> Told(sent[began..]) + reply.gathered == visible
      ensures Settled() && PiecesKept(secrets, old(sent[began..])) ==> PiecesKept(secrets, sent[began..])
    {
      hide PiecesKept, OnlyTheMarkerReappears, Replace, Told;
      ok := Gather(reply, visible, reached);
      if ok && due {
        GatheredIsKept(reply.gathered, visible, reply.raw);
        ok := FlushGathered(reply, now, reached);
      }
    }

    lemma NothingTold(envelopes: seq<Envelope>)
      ensures envelopes[|envelopes|..] == [] && Told([]) == "" && PiecesKept(secrets, [])
    {
    }

    method TheReplyInProgress() returns (reply: ReplyInProgress)
      requires Valid()
      modifies this`streaming, this`began, this`missed
      ensures streaming == reply && began <= |sent| && EndsIn(reply.shown, reply.gathered)
      ensures !missed ==> Told(sent[began..]) + reply.gathered == reply.shown
      ensures Settled() ==> PiecesKept(secrets, sent[began..])
      ensures old(streaming) == null ==> fresh(reply) && reply.raw == reply.shown == reply.gathered == ""
                                         && reply.lastFlush.None? && began == |sent| && !missed
      ensures old(streaming) != null ==> reply == old(streaming) && began == old(began) && missed == old(missed)
    {
      hide OnlyTheMarkerReappears, Replace;
      if streaming == null {
        streaming := new ReplyInProgress();
        began, missed := |sent|, false;
        NothingTold(sent);
      }
      return streaming;
    }

    /** One more piece of the reply. What can be shown now goes out when it is due;
        `reached` says whether the screens can be written to at all, and when they
        cannot, and something had to go out, the reply misses it. */
    method SendDelta(text: string, now: int, reached: bool) returns (ok: bool)
      requires Valid()
      modifies this, streaming
      ensures Valid() && streaming != null && old(sent) <= sent
      ensures old(streaming) == null ==> fresh(streaming) && streaming.raw == text && began == |old(sent)|
      ensures old(streaming) != null ==> streaming == old(streaming) && streaming.raw == old(streaming.raw) + text && began == old(began)
      ensures var visible := HeldBack(Whole(streaming.raw));
        if old(streaming) == null
        then Advanced(old(sent), "", "", None, visible, true, now, reached,
                      sent, streaming.shown, streaming.gathered, streaming.lastFlush, ok)
        else Advanced(old(sent), old(streaming.shown), old(streaming.gathered), old(streaming.lastFlush), visible,
                      IsDue(old(streaming.lastFlush), now), now, reached,
                      sent, streaming.shown, streaming.gathered, streaming.lastFlush, ok)
      ensures missed <==>
        !ok || (old(missed) && old(streaming) != null && old(streaming.shown) <= HeldBack(Whole(streaming.raw)))
      ensures reached && (old(streaming) == null
                          || (!old(missed) && (old(streaming.lastFlush).None? || now >= old(streaming.lastFlush).value + 30)))
        ==> streaming.gathered == "" && Told(sent[began..]) == HeldBack(Whole(streaming.raw))
      ensures PieceWasSent(old(sent), sent) ==> streaming.lastFlush == Some(now)
      ensures reached && !PieceWasSent(old(sent), sent) ==>
        streaming.lastFlush == if old(streaming) == null then None else old(streaming.lastFlush)
      ensures ResetWasSent(old(sent), sent) <==>
        reached && old(streaming) != null && !(old(streaming.shown) <= HeldBack(Whole(streaming.raw)))
      ensures !reached ==> sent == old(sent)
      ensures Piece("") !in sent[|old(sent)|..]
      ensures !reached && old(streaming) != null && !(old(streaming.shown) <= HeldBack(Whole(streaming.raw))) ==>
        && !ok && streaming.shown == old(streaming.shown) && streaming.gathered == old(streaming.gathered)
        && streaming.lastFlush == old(streaming.lastFlush)
      ensures old(streaming) != null && old(streaming.lastFlush).Some? && now < old(streaming.lastFlush).value + 30
        ==> !PieceWasSent(old(sent), sent)
    {
      hide PiecesKept, OnlyTheMarkerReappears, Replace, Told, Advanced, PieceWasSent, ResetWasSent, EndsIn;
      var reply := TheReplyInProgress();
      reply.raw := reply.raw + text;
      var visible := WithoutTail(shapes(Redact(secrets, reply.raw)));
      missed := missed && reply.shown <= visible;
      ghost var due, gathered, shown, flushed := IsDue(reply.lastFlush, now), reply.gathered, reply.shown, reply.lastFlush;
      ok := Advance(reply, visible, IsDue(reply.lastFlush, now), now, reached);
      WhatAdvancedSends(old(sent), shown, gathered, flushed, visible, due, now, reached,
                        sent, reply.shown, reply.gathered, reply.lastFlush, ok);
      missed := missed || !ok;
    }

    /** The end of the reply goes out without its trailing blank space, and what a
        screen attached since it began was told is then the whole of it. */
    method FinishDelta(now: int, reached: bool) returns (ok: bool)
      requires Valid()
      modifies this, streaming
      ensures Valid() && streaming == null && began == old(began) && old(sent) <= sent
      ensures old(streaming) == null ==> ok && sent == old(sent)
      ensures old(streaming) != null ==>
        var whole := TrimRight(Whole(old(streaming.raw)), BLANK);
        var pending := Pending(old(streaming.shown), old(streaming.gathered), whole);
        && (ok <==> reached || (old(streaming.shown) <= whole && pending == ""))
        && sent == old(sent) + (if ok then Withdrawal(old(streaming.shown), whole) + AsPiece(pending) else [])
        && (ResetWasSent(old(sent), sent) <==> reached && !(old(streaming.shown) <= whole))
        && (!reached ==> sent == old(sent)) && Piece("") !in sent[|old(sent)|..]
      ensures old(streaming) != null && ok && (!old(missed) || !(old(streaming.shown) <= TrimRight(Whole(old(streaming.raw)), BLANK))) ==>
        && Told(sent[began..]) == TrimRight(Whole(old(streaming.raw)), BLANK)
        && (Settled() ==> Displayed(secrets, sent[began..]) == TrimRight(Whole(old(streaming.raw)), BLANK))
    {
      hide PiecesKept, OnlyTheMarkerReappears, Replace, Told, TrimRight, Displayed;
      if streaming == null {
        return true;
      }
      var reply := streaming;
      streaming := null;
      var redacted := shapes(Redact(secrets, reply.raw));
      var whole := TrimRight(redacted, BLANK);
      TrimRightIsAPrefix(redacted, BLANK);
      ok := Advance(reply, whole, true, now, reached);
      WhatAdvancedSends(old(sent), old(streaming.shown), old(streaming.gathered), old(streaming.lastFlush), whole, true, now, reached,
                        sent, reply.shown, reply.gathered, reply.lastFlush, ok);
      if Settled() {
        KeptPiecesAreShownAsSent(secrets, sent[began..]);
      }
    }

    method ResetDelta(reached: bool) returns (ok: bool)
      requires Valid()
      modifies this
      ensures Valid() && streaming == null && ok == reached
      ensures sent == if reached then old(sent) + [Reset] else old(sent)
      ensures reached ==> Told(sent) == ""
    {
      hide OnlyTheMarkerReappears, Replace;
      streaming := null;
      if reached {
        KeptGrows(secrets, sent[began..], Reset);
        sent := sent + [Reset];
        assert sent[began..] == old(sent)[began..] + [Reset];
      }
      return reached;
    }

    method EndStreaming()
      requires Valid()
      modifies this`streaming
      ensures Valid() && streaming == null && sent == old(sent)
    {
      streaming := null;
    }

    /** However the reply goes on, what the screens were told so far is how the
        redaction of its whole text begins: as long as nothing was missed, for known
        values that are steady in text with nothing shaped like another secret. */
    lemma WhatWasToldStands(more: string)
      requires Valid() && streaming != null && !missed && Steady(secrets) && NoShapes()
      ensures Told(sent[began..]) <= streaming.shown <= Whole(streaming.raw + more)
    {
      HoldingBackIsEnough(secrets, streaming.raw, more);
    }
  }

  /** A reply that is one secret: the screens are told the marker, and shown what is
      left of it. */
  method AReplyOfOneSecret(secret: string) returns (socket: Socket)
    requires MIN_REDACTED_VALUE_LENGTH <= |secret|
    ensures socket.secrets == [secret] && socket.NoShapes()
    ensures Told(socket.sent) == MARKER && Displayed(socket.secrets, socket.sent) == Redact([secret], MARKER)
  {
    hide Replace, TrimRight, OnlyTheMarkerReappears, Told, Displayed, PiecesKept;
    socket := new Socket([secret], text => text);
    SecretsBecomeMarkers([secret], 0);
    assert [secret][0] == secret;
    assert socket.Whole(secret) == MARKER && HeldBack(MARKER) == "";
    OnePiece(socket.secrets, MARKER);
    var _ := socket.SendDelta(secret, 0, true);
    assert socket.sent == [] && socket.streaming.shown == "" && socket.streaming.gathered == "";
    var _ := socket.FinishDelta(1, true);
  }

  /** A reply that is not shown as it was told: its one word is the secret, and the
      marker for it is redacted once more on its way to the screen. */
  method ASecretInTheMarkerIsShownTwice() returns (socket: Socket)
    ensures VaultKeeps(socket.secrets) && socket.NoShapes() && Told(socket.sent) == "[redacted]"
    ensures Displayed(socket.secrets, socket.sent) == "[[redacted]ed]"
  {
    hide Replace, Told, Displayed;
    socket := AReplyOfOneSecret("redact");
    TheMarkerIsRedactedAgain();
  }

  lemma OnePiece(secrets: seq<string>, text: string)
    requires text != "" && text[|text| - 1] !in BLANK
    ensures TrimRight(text, BLANK) == text && Pending("", "", text) == text
    ensures Told([] + [] + AsPiece(text)) == text && Displayed(secrets, [] + [] + AsPiece(text)) == Redact(secrets, text)
  {
    hide Replace;
    assert [Piece(text)][..0] == [];
    assert [] + [] + AsPiece(text) == [Piece(text)];
    assert "" + text == text && "" + Redact(secrets, text) == Redact(secrets, text);
  }

  lemma TheMarkerIsRedactedAgain()
    ensures Redact(["redact"], MARKER) == "[[redacted]ed]"
  {
    hide Replace;
    var secret, after := "redact", "ed]";
    assert MARKER == "[" + (secret + after);
    OneNeedleMatches(secret, ['['] + (secret + after));
    assert (['['] + (secret + after))[0] != secret[0];
    OneNeedleMatches(secret, secret + after);
    ReplaceAtACharacter([secret], MARKER, '[', secret + after);
    ReplaceAtAMatch([secret], MARKER, secret, after);
    ShortTextIsKept(secret, MARKER, after);
    assert "[" + (MARKER + after) == "[[redacted]ed]";
  }
}
