/**
 Masking of registered secrets and token-shaped text. The registry is a set, so
 the replacements run in any order; a pattern masks any disjoint substrings.
 */
module Redaction {
  import opened Replacing

  const REDACTED := "[REDACTED]"

  // Substrings a pattern matched: text[start..end].
  datatype Span = Span(start: nat, end: nat)

  /** The matches lie in the text from `from` on, one after the other, none empty. */
  predicate AreMatches(text: string, spans: seq<Span>, from: nat)
    decreases |spans|
  {
    && from <= |text|
    && (spans != [] ==>
      from <= spans[0].start < spans[0].end <= |text| && AreMatches(text, spans[1..], spans[0].end))
  }

  function Gaps(text: string, spans: seq<Span>, from: nat): (gaps: seq<string>)
    requires AreMatches(text, spans, from)
    ensures gaps != []
    decreases |spans|
  {
    if spans == [] then [text[from..]]
    else [text[from..spans[0].start]] + Gaps(text, spans[1..], spans[0].end)
  }

  // Where a pattern matches in each text.
  type Pattern = pattern: string -> seq<Span> | forall text :: AreMatches(text, pattern(text), 0)
    witness (text: string) => []

  /** `pattern.sub`: every match becomes the marker. */
  function Substituted(text: string, pattern: Pattern): string
  {
    Join(Gaps(text, pattern(text), 0), REDACTED)
  }

  // What a substitution does, character by character

  /** How many characters the first `k` matches cover. */
  function Covered(spans: seq<Span>, k: nat): int
    requires k <= |spans|
  {
    if k == 0 then 0 else Covered(spans, k - 1) + spans[k - 1].end - spans[k - 1].start
  }

  /** How far the text after `k` matches has moved: each took its own length away and put ten characters in. */
  function Shift(spans: seq<Span>, k: nat): int
    requires k <= |spans|
  {
    10 * k - Covered(spans, k)
  }

  /** The `k`-th stretch between matches, counted from `from`. */
  function StretchStart(spans: seq<Span>, from: nat, k: nat): nat
    requires k <= |spans|
  {
    if k == 0 then from else spans[k - 1].end
  }

  function StretchEnd(text: string, spans: seq<Span>, k: nat): nat
    requires k <= |spans|
  {
    if k == |spans| then |text| else spans[k].start
  }

  predicate HoldsAt(text: string, part: string, at: int) {
    0 <= at && at + |part| <= |text| && text[at..at + |part|] == part
  }

  /** The marker stands where each match stood, moved by the matches before it. */
  predicate MarksEach(spans: seq<Span>, from: nat, result: string) {
    forall k :: 0 <= k < |spans| ==> HoldsAt(result, "[REDACTED]", spans[k].start - from + Shift(spans, k))
  }

  /** Each stretch between the matches is there, moved likewise. */
  predicate KeepsRest(text: string, spans: seq<Span>, from: nat, result: string) {
    forall k :: 0 <= k <= |spans| ==> KeepsStretch(text, spans, from, result, k)
  }

  predicate KeepsStretch(text: string, spans: seq<Span>, from: nat, result: string, k: nat)
    requires k <= |spans|
  {
    var start, end := StretchStart(spans, from, k), StretchEnd(text, spans, k);
    start <= end <= |text| && HoldsAt(result, text[start..end], start - from + Shift(spans, k))
  }

  /** `result` is `text` from `from` on with exactly the matches replaced by the marker. */
  predicate IsSubstitution(text: string, spans: seq<Span>, from: nat, result: string) {
    && |result| == |text| - from + Shift(spans, |spans|)
    && MarksEach(spans, from, result) && KeepsRest(text, spans, from, result)
  }

  lemma {:induction false} CoveredFirst(spans: seq<Span>, k: nat)
    requires spans != [] && k < |spans|
    ensures Covered(spans, k + 1) == spans[0].end - spans[0].start + Covered(spans[1..], k)
    decreases k
  {
    if k > 0 {
      CoveredFirst(spans, k - 1);
      assert spans[1..][k - 1] == spans[k];
    }
  }

  lemma {:induction false} HoldsBehind(front: string, back: string, part: string, at: int)
    requires HoldsAt(back, part, at)
    ensures HoldsAt(front + back, part, |front| + at)
  {
    assert (front + back)[|front| + at..|front| + at + |part|] == back[at..at + |part|];
  }

  lemma {:induction false} NoMatchKeepsAll(text: string, from: nat)
    requires from <= |text|
    ensures IsSubstitution(text, [], from, text[from..])
  {
    assert text[from..|text|] == text[from..];
    assert KeepsStretch(text, [], from, text[from..], 0);
  }

  lemma {:induction false} JoinFirst(gap: string, gaps: seq<string>, w: string)
    requires gaps != []
    ensures Join([gap] + gaps, w) == gap + w + Join(gaps, w)
  {
    assert ([gap] + gaps)[1..] == gaps;
  }

  lemma {:induction false} JoinedIsSubstitution(text: string, spans: seq<Span>, from: nat)
    requires AreMatches(text, spans, from)
    ensures IsSubstitution(text, spans, from, Join(Gaps(text, spans, from), REDACTED))
    decreases |spans|
  {
    if spans == [] {
      NoMatchKeepsAll(text, from);
    } else {
      var gaps := Gaps(text, spans[1..], spans[0].end);
      JoinedIsSubstitution(text, spans[1..], spans[0].end);
      FirstMatch(text, spans, from, Join(gaps, REDACTED));
      JoinFirst(text[from..spans[0].start], gaps, REDACTED);
    }
  }

  /** One match more in front. */
  lemma {:induction false} FirstMatch(text: string, spans: seq<Span>, from: nat, back: string)
    requires AreMatches(text, spans, from) && spans != [] && IsSubstitution(text, spans[1..], spans[0].end, back)
    ensures IsSubstitution(text, spans, from, text[from..spans[0].start] + REDACTED + back)
  {
    CoveredFirst(spans, |spans| - 1);
    FirstMark(text, spans, from, back);
    FirstStretch(text, spans, from, back);
  }

  lemma {:induction false} FirstMark(text: string, spans: seq<Span>, from: nat, back: string)
    requires AreMatches(text, spans, from) && spans != [] && MarksEach(spans[1..], spans[0].end, back)
    ensures MarksEach(spans, from, text[from..spans[0].start] + REDACTED + back)
  {
    var front := text[from..spans[0].start] + REDACTED;
    forall k | 0 <= k < |spans|
      ensures HoldsAt(front + back, "[REDACTED]", spans[k].start - from + Shift(spans, k))
    {
      if k > 0 {
        CoveredFirst(spans, k - 1);
        HoldsBehind(front, back, "[REDACTED]", spans[1..][k - 1].start - spans[0].end + Shift(spans[1..], k - 1));
      } else {
        assert (front + back)[spans[0].start - from..spans[0].start - from + 10] == REDACTED;
      }
    }
  }

  lemma {:induction false} FirstStretch(text: string, spans: seq<Span>, from: nat, back: string)
    requires AreMatches(text, spans, from) && spans != [] && KeepsRest(text, spans[1..], spans[0].end, back)
    ensures KeepsRest(text, spans, from, text[from..spans[0].start] + REDACTED + back)
  {
    var gap := text[from..spans[0].start];
    var front := gap + REDACTED;
    forall k | 0 <= k <= |spans|
      ensures KeepsStretch(text, spans, from, front + back, k)
    {
      if k > 0 {
        LaterStretch(text, spans, from, front, back, k);
      } else {
        assert (front + back)[0..|gap|] == gap;
      }
    }
  }

  lemma {:induction false} LaterStretch(
    text: string, spans: seq<Span>, from: nat, front: string, back: string, k: nat)
    requires spans != [] && 0 < k <= |spans| && KeepsStretch(text, spans[1..], spans[0].end, back, k - 1)
    requires from <= spans[0].start <= spans[0].end && |front| == spans[0].start - from + 10
    ensures KeepsStretch(text, spans, from, front + back, k)
  {
    var start, end := StretchStart(spans, from, k), StretchEnd(text, spans, k);
    CoveredFirst(spans, k - 1);
    StretchesFollow(text, spans, from, k);
    HoldsBehind(front, back, text[start..end], start - spans[0].end + Shift(spans[1..], k - 1));
  }

  lemma {:induction false} StretchesFollow(text: string, spans: seq<Span>, from: nat, k: nat)
    requires spans != [] && 0 < k <= |spans|
    ensures StretchStart(spans, from, k) == StretchStart(spans[1..], spans[0].end, k - 1)
    ensures StretchEnd(text, spans, k) == StretchEnd(text, spans[1..], k - 1)
  {}

  ghost predicate SubstitutesBy(pattern: Pattern, text: string, result: string) {
    IsSubstitution(text, pattern(text), 0, result)
  }

  /** Every match is masked, and nothing else is touched. */
  lemma {:induction false} SubstitutionIsExact(text: string, pattern: Pattern)
    ensures SubstitutesBy(pattern, text, Substituted(text, pattern))
  {
    JoinedIsSubstitution(text, pattern(text), 0);
  }

  // `redact` with the secrets in a given order

  predicate NonEmpty(order: seq<string>) {
    forall k :: 0 <= k < |order| ==> order[k] != ""
  }

  function Masked(text: string, order: seq<string>): string
    requires NonEmpty(order)
    decreases |order|
  {
    if order == [] then text
    else Replace(Masked(text, order[..|order| - 1]), order[|order| - 1], REDACTED)
  }

  function PatternMasked(text: string, patterns: seq<Pattern>): string
    decreases |patterns|
  {
    if patterns == [] then text
    else Substituted(PatternMasked(text, patterns[..|patterns| - 1]), patterns[|patterns| - 1])
  }

  /** `result` is what masking every match of each pattern in turn makes of `text`. */
  ghost predicate IsPatternRun(text: string, patterns: seq<Pattern>, result: string)
    decreases |patterns|, 1
  {
    if patterns == [] then result == text else exists middle :: PassesThrough(text, patterns, middle, result)
  }

  ghost predicate PassesThrough(text: string, patterns: seq<Pattern>, middle: string, result: string)
    requires patterns != []
    decreases |patterns|, 0
  {
    && IsPatternRun(text, patterns[..|patterns| - 1], middle)
    && SubstitutesBy(patterns[|patterns| - 1], middle, result)
  }

  lemma {:induction false} PatternsRun(text: string, patterns: seq<Pattern>)
    ensures IsPatternRun(text, patterns, PatternMasked(text, patterns))
    decreases |patterns|
  {
    if patterns != [] {
      var init, last := patterns[..|patterns| - 1], patterns[|patterns| - 1];
      PatternsRun(text, init);
      SubstitutionIsExact(PatternMasked(text, init), last);
      assert PassesThrough(text, patterns, PatternMasked(text, init), PatternMasked(text, patterns));
    }
  }

  // Where a marker can help to spell a secret

  /** `v` laid over `w` at offset `d` agrees with it wherever both have a character. */
  predicate Agrees(v: string, w: string, d: int) {
    forall i :: 0 <= i < |v| && 0 <= i + d < |w| ==> v[i] == w[i + d]
  }

  predicate Overlaps(v: string, w: string) {
    exists d :: -|v| < d < |w| && Agrees(v, w, d)
  }

  /** Joining with a string that does not overlap `v` spells no new `v`. */
  lemma {:induction false} JoinSpellsNothing(pieces: seq<string>, w: string, v: string)
    requires pieces != [] && v != "" && !Overlaps(v, w)
    requires forall k :: 0 <= k < |pieces| ==> !Contains(pieces[k], v)
    ensures !Contains(Join(pieces, w), v)
    decreases |pieces|
  {
    if |pieces| > 1 {
      var rest := Join(pieces[1..], w);
      JoinSpellsNothing(pieces[1..], w, v);
      JointSpellsNothing(pieces[0], w, rest, v);
    }
  }

  /** An occurrence in `a + w + b` lies in `a`, lies in `b`, or lies over part of `w`. */
  lemma OccurrenceInJoint(a: string, w: string, b: string, v: string, i: nat)
    requires v != "" && OccursAt(a + w + b, v, i)
    ensures
      || OccursAt(a, v, i)
      || (i >= |a| + |w| && OccursAt(b, v, i - |a| - |w|))
      || (-|v| < i - |a| < |w| && Agrees(v, w, i - |a|))
  {
    var all := a + w + b;
    if i + |v| <= |a| {
      assert a[i..i + |v|] == all[i..i + |v|];
    } else if i >= |a| + |w| {
      var k := i - |a| - |w|;
      assert b[k..k + |v|] == all[i..i + |v|];
    } else {
      forall j | 0 <= j < |v| && 0 <= j + (i - |a|) < |w|
        ensures v[j] == w[j + (i - |a|)]
      {
        assert all[i..i + |v|][j] == all[i + j];
      }
    }
  }

  lemma JointSpellsNothing(a: string, w: string, b: string, v: string)
    requires v != "" && !Overlaps(v, w) && !Contains(a, v) && !Contains(b, v)
    ensures !Contains(a + w + b, v)
  {
    if Contains(a + w + b, v) {
      var i: nat :| i <= |a + w + b| && OccursAt(a + w + b, v, i);
      OccurrenceInJoint(a, w, b, v, i);
    }
  }

  lemma {:induction false} GapsHoldNoMore(text: string, spans: seq<Span>, from: nat, v: string)
    requires AreMatches(text, spans, from) && !Contains(text, v)
    ensures forall k :: 0 <= k < |Gaps(text, spans, from)| ==> !Contains(Gaps(text, spans, from)[k], v)
    decreases |spans|
  {
    if spans == [] {
      SubstringHoldsNoMore(text, from, |text|, v);
      assert text[from..] == text[from..|text|];
    } else {
      SubstringHoldsNoMore(text, from, spans[0].start, v);
      GapsHoldNoMore(text, spans[1..], spans[0].end, v);
    }
  }

  lemma OccurrenceInSubstring(text: string, from: nat, end: nat, v: string, i: nat)
    requires from <= end <= |text| && OccursAt(text[from..end], v, i)
    ensures OccursAt(text, v, from + i)
  {
    forall k | 0 <= k < |v|
      ensures text[from + i + k] == v[k]
    {
      assert text[from..end][i..i + |v|][k] == text[from..end][i + k];
    }
  }

  lemma SubstringHoldsNoMore(text: string, from: nat, end: nat, v: string)
    requires from <= end <= |text| && !Contains(text, v)
    ensures !Contains(text[from..end], v)
  {
    if Contains(text[from..end], v) {
      var i: nat :| i <= end - from && OccursAt(text[from..end], v, i);
      OccurrenceInSubstring(text, from, end, v, i);
    }
  }

  lemma {:induction false} CleanPiecesHoldNothing(pieces: seq<string>, v: string)
    requires v != "" && pieces != [] && AllClean(pieces, v)
    ensures forall k :: 0 <= k < |pieces| ==> !Contains(pieces[k], v)
    decreases |pieces|
  {
    var next := if |pieces| == 1 then [] else v;
    if Contains(pieces[0], v) {
      var i: nat :| i <= |pieces[0]| && OccursAt(pieces[0], v, i);
      assert (pieces[0] + next)[i..i + |v|] == pieces[0][i..i + |v|];
      assert OccursAt(pieces[0] + next, v, i);
    }
    if |pieces| > 1 {
      CleanPiecesHoldNothing(pieces[1..], v);
      assert forall k :: 0 < k < |pieces| ==> pieces[k] == pieces[1..][k - 1];
    }
  }

  // What each replacement does to a secret that overlaps no marker

  predicate IsSafe(secret: string) {
    secret != "" && !Overlaps(secret, REDACTED)
  }

  lemma {:induction false} OwnReplacementRemoves(text: string, secret: string)
    requires IsSafe(secret)
    ensures !Contains(Replace(text, secret, REDACTED), secret)
  {
    ReplaceIsSplitJoin(text, secret, REDACTED);
    SplitLeavesNothing(text, secret);
    CleanPiecesHoldNothing(Split(text, secret), secret);
    JoinSpellsNothing(Split(text, secret), REDACTED, secret);
  }

  lemma {:induction false} PiecesAreSubstrings(text: string, pattern: string, v: string)
    requires pattern != "" && !Contains(text, v)
    ensures forall k :: 0 <= k < |Split(text, pattern)| ==> !Contains(Split(text, pattern)[k], v)
    decreases |text|
  {
    if text != [] {
      if pattern <= text {
        SubstringHoldsNoMore(text, |pattern|, |text|, v);
        assert text[|pattern|..|text|] == text[|pattern|..];
        PiecesAreSubstrings(text[|pattern|..], pattern, v);
        SubstringHoldsNoMore(text, 0, 0, v);
        assert text[0..0] == [];
      } else {
        var rest := Split(text[1..], pattern);
        SubstringHoldsNoMore(text, 1, |text|, v);
        assert text[1..|text|] == text[1..];
        PiecesAreSubstrings(text[1..], pattern, v);
        FirstPieceIsPrefix(text, pattern);
        var first := Split(text, pattern)[0];
        assert first <= text && text[0..|first|] == first;
        SubstringHoldsNoMore(text, 0, |first|, v);
      }
    }
  }

  lemma {:induction false} LaterReplacementKeepsAway(text: string, other: string, secret: string)
    requires IsSafe(secret) && other != "" && !Contains(text, secret)
    ensures !Contains(Replace(text, other, REDACTED), secret)
  {
    ReplaceIsSplitJoin(text, other, REDACTED);
    PiecesAreSubstrings(text, other, secret);
    JoinSpellsNothing(Split(text, other), REDACTED, secret);
  }

  lemma PatternKeepsAway(text: string, pattern: Pattern, secret: string)
    requires IsSafe(secret) && !Contains(text, secret)
    ensures !Contains(Substituted(text, pattern), secret)
  {
    GapsHoldNoMore(text, pattern(text), 0, secret);
    JoinSpellsNothing(Gaps(text, pattern(text), 0), REDACTED, secret);
  }

  // Whole runs of `redact`

  lemma {:induction false} MaskedHoldsNoSafeSecret(text: string, order: seq<string>, secret: string)
    requires NonEmpty(order) && secret in order && IsSafe(secret)
    ensures !Contains(Masked(text, order), secret)
    decreases |order|
  {
    var before, last := order[..|order| - 1], order[|order| - 1];
    if last == secret {
      OwnReplacementRemoves(Masked(text, before), secret);
    } else {
      assert order == before + [last];
      MaskedHoldsNoSafeSecret(text, before, secret);
      LaterReplacementKeepsAway(Masked(text, before), last, secret);
    }
  }

  lemma {:induction false} PatternsKeepAway(text: string, patterns: seq<Pattern>, secret: string)
    requires IsSafe(secret) && !Contains(text, secret)
    ensures !Contains(PatternMasked(text, patterns), secret)
    decreases |patterns|
  {
    if patterns != [] {
      PatternsKeepAway(text, patterns[..|patterns| - 1], secret);
      PatternKeepsAway(PatternMasked(text, patterns[..|patterns| - 1]), patterns[|patterns| - 1], secret);
    }
  }

  /** Whatever the order of the registry and whatever the patterns match, no safe secret is left. */
  lemma {:induction false} NoSafeSecretSurvives(
    text: string, order: seq<string>, patterns: seq<Pattern>, secret: string)
    requires NonEmpty(order)
    requires secret in order && IsSafe(secret)
    ensures !Contains(PatternMasked(Masked(text, order), patterns), secret)
  {
    MaskedHoldsNoSafeSecret(text, order, secret);
    PatternsKeepAway(Masked(text, order), patterns, secret);
  }

  lemma AgreeingWithMarker(v: string, d: int)
    requires -|v| < d < |REDACTED| && Agrees(v, REDACTED, d)
    ensures d <= 0 ==> '[' in v
    ensures 0 <= 9 - d < |v| ==> ']' in v
    ensures d == 1 && |v| == 8 ==> v == "REDACTED"
  {
    if d <= 0 {
      assert v[-d] == REDACTED[0];
    }
    if 0 <= 9 - d < |v| {
      assert v[9 - d] == REDACTED[9];
    }
    if d == 1 && |v| == 8 {
      assert v == REDACTED[1..9];
    }
  }

  /** A registered secret without brackets is safe, unless it is the marker's own word. */
  lemma BracketFreeIsSafe(secret: string)
    requires |secret| >= 8 && '[' !in secret && ']' !in secret
    ensures IsSafe(secret) <==> secret != "REDACTED"
  {
    if secret == "REDACTED" {
      assert Agrees(secret, REDACTED, 1);
    } else if Overlaps(secret, REDACTED) {
      var d :| -|secret| < d < |REDACTED| && Agrees(secret, REDACTED, d);
      AgreeingWithMarker(secret, d);
    }
  }

  // An unsafe secret can survive

  lemma {:induction false} ReplaceAbsent(text: string, pattern: string, with: string)
    requires pattern != "" && !Contains(text, pattern)
    ensures Replace(text, pattern, with) == text
    decreases |text|
  {
    if text != [] {
      if pattern <= text {
        assert OccursAt(text, pattern, 0);
      } else {
        SubstringHoldsNoMore(text, 1, |text|, pattern);
        assert text[1..|text|] == text[1..];
        ReplaceAbsent(text[1..], pattern, with);
      }
    }
  }

  lemma HoldsItsHead(text: string, pattern: string)
    requires pattern != "" && Contains(text, pattern)
    ensures pattern[0] in text
  {
    var i: nat :| i <= |text| && OccursAt(text, pattern, i);
    assert text[i..i + |pattern|][0] == text[i];
  }

  /** A run of a character found nowhere else is replaced where it stands. */
  lemma {:induction false} ReplaceBetween(a: string, w: string, b: string, with: string)
    requires w != "" && w[0] !in a && w[0] !in b
    ensures Replace(a + w + b, w, with) == a + with + b
    decreases |a|
  {
    var all := a + w + b;
    if a == "" {
      assert all[..|w|] == w && all[|w|..] == b;
      if Contains(b, w) {
        HoldsItsHead(b, w);
      }
      ReplaceAbsent(b, w, with);
    } else {
      assert all[0] == a[0] && all[1..] == a[1..] + w + b;
      ReplaceBetween(a[1..], w, b, with);
      assert a == [a[0]] + a[1..];
    }
  }

  // What stands before and after the marker when `v` lies over it at offset `d`.

  function Before(v: string, d: int): string
    requires -|v| < d
  {
    if d < 0 then v[..-d] else ""
  }

  function After(v: string, w: string, d: int): string
    requires d < |w|
  {
    if |w| - d < |v| then v[|w| - d..] else ""
  }

  lemma OverlapSpells(v: string, w: string, d: int)
    requires -|v| < d < |w| && Agrees(v, w, d)
    ensures Contains(Before(v, d) + w + After(v, w, d), v)
  {
    var all := Before(v, d) + w + After(v, w, d);
    var i := if d < 0 then 0 else d;
    assert |all| >= i + |v|;
    forall k | 0 <= k < |v|
      ensures all[i + k] == v[k]
    {
    }
    assert OccursAt(all, v, i);
  }

  predicate IsRegistry(order: seq<string>) {
    && (forall k :: 0 <= k < |order| ==> |order[k]| >= 8)
    && (forall j, k :: 0 <= j < k < |order| ==> order[j] != order[k])
  }

  ghost predicate Survives(secret: string, order: seq<string>, text: string) {
    IsRegistry(order) && secret in order && Contains(Masked(text, order), secret)
  }

  /**
   A secret is masked in every text whatever else is registered exactly when it
   is safe: one that overlaps the marker is spelled out by a later replacement.
   `rare` is any character that neither the secret nor the marker holds.
   */
  lemma ExactlyTheSafeSecretsAreAlwaysMasked(secret: string, rare: char)
    requires |secret| >= 8 && rare !in secret && rare !in REDACTED
    ensures IsSafe(secret) <==> !exists order, text :: Survives(secret, order, text)
  {
    if IsSafe(secret) {
      forall order, text | IsRegistry(order) && secret in order
        ensures !Survives(secret, order, text)
      {
        MaskedHoldsNoSafeSecret(text, order, secret);
      }
    } else {
      var d :| -|secret| < d < |REDACTED| && Agrees(secret, REDACTED, d);
      UnsafeSecretSurvives(secret, rare, d);
    }
  }

  /** There are unsafe secrets: the marker's own word can survive. */
  lemma MarkerWordCanSurvive()
    ensures exists order, text :: Survives("REDACTED", order, text)
  {
    BracketFreeIsSafe("REDACTED");
    ExactlyTheSafeSecretsAreAlwaysMasked("REDACTED", '-');
  }

  /** A registered value that stands once in the text is masked where it stands, safe or not, and nothing else is. */
  lemma {:induction false} LoneSecretIsMasked(a: string, secret: string, b: string)
    requires secret != "" && secret[0] !in a && secret[0] !in b
    ensures Masked(a + secret + b, [secret]) == a + "[REDACTED]" + b
  {
    assert [secret][..0] == [] && Masked(a + secret + b, []) == a + secret + b;
    ReplaceBetween(a, secret, b, REDACTED);
  }

  /** A text in which no registered value stands is left alone. */
  lemma {:induction false} NothingToMask(text: string, order: seq<string>)
    requires NonEmpty(order) && forall k :: 0 <= k < |order| ==> !Contains(text, order[k])
    ensures Masked(text, order) == text
    decreases |order|
  {
    if order != [] {
      var last := |order| - 1;
      NothingToMask(text, order[..last]);
      assert !Contains(text, order[last]);
      ReplaceAbsent(text, order[last], REDACTED);
    }
  }

  lemma {:induction false} MaskedByTwo(text: string, first: string, second: string)
    requires first != "" && second != ""
    ensures NonEmpty([first, second])
    ensures Masked(text, [first, second]) == Replace(Replace(text, first, REDACTED), second, REDACTED)
  {
    var order := [first, second];
    assert order[..1] == [first] && [first][..0] == [];
    assert NonEmpty([first]) && Masked(text, []) == text;
    assert Masked(text, [first]) == Replace(text, first, REDACTED);
  }

  /** Of a text that spells `other` between the secret's two ends, replacing the secret leaves all, then `other` goes. */
  lemma {:induction false} EndsAreJoined(secret: string, other: string, d: int)
    requires secret != "" && other != "" && -|secret| < d < |REDACTED| && !Overlaps(secret, other)
    requires forall i :: 0 <= i < |other| ==> other[i] !in secret
    ensures
      var a, b := Before(secret, d), After(secret, REDACTED, d);
      Replace(Replace(a + other + b, secret, REDACTED), other, REDACTED) == a + REDACTED + b
  {
    var a, b := Before(secret, d), After(secret, REDACTED, d);
    ShortHoldsNothing(a, secret);
    ShortHoldsNothing(b, secret);
    JointSpellsNothing(a, other, b, secret);
    ReplaceAbsent(a + other + b, secret, REDACTED);
    ReplaceBetween(a, other, b, REDACTED);
  }

  lemma {:induction false} UnsafeSecretSurvives(secret: string, rare: char, d: int)
    requires |secret| >= 8 && rare !in secret && rare !in REDACTED
    requires -|secret| < d < |REDACTED| && Agrees(secret, REDACTED, d)
    ensures exists order, text :: Survives(secret, order, text)
  {
    var other := [rare, rare, rare, rare, rare, rare, rare, rare];
    var text := Before(secret, d) + other + After(secret, REDACTED, d);
    RareOverlapsNothing(secret, other);
    EndsAreJoined(secret, other, d);
    MaskedByTwo(text, secret, other);
    OverlapSpells(secret, REDACTED, d);
    assert Survives(secret, [secret, other], text);
  }

  lemma ShortHoldsNothing(a: string, v: string)
    requires |a| < |v|
    ensures !Contains(a, v)
  {
  }

  lemma RareOverlapsNothing(v: string, w: string)
    requires v != "" && w != "" && forall i :: 0 <= i < |w| ==> w[i] !in v
    ensures !Overlaps(v, w)
  {
    if Overlaps(v, w) {
      OverlapShares(v, w);
    }
  }

  lemma OverlapShares(v: string, w: string)
    requires v != "" && w != "" && Overlaps(v, w)
    ensures exists i :: 0 <= i < |w| && w[i] in v
  {
    var d :| -|v| < d < |w| && Agrees(v, w, d);
    var i := if d < 0 then -d else 0;
    assert v[i] == w[i + d];
  }

  // The registry

  /** The registry taken in some order. */
  ghost predicate IsOrderOf(order: seq<string>, registered: set<string>) {
    && (forall secret :: secret in order <==> secret in registered)
    && (forall j, k :: 0 <= j < k < |order| ==> order[j] != order[k])
  }

  lemma {:induction false} OneMoreMasked(text: string, order: seq<string>, value: string, done: set<string>)
    requires IsOrderOf(order, done) && NonEmpty(order) && value !in done && value != ""
    ensures IsOrderOf(order + [value], done + {value}) && NonEmpty(order + [value])
    ensures Masked(text, order + [value]) == Replace(Masked(text, order), value, REDACTED)
  {
    assert (order + [value])[..|order|] == order;
  }

  method SubstituteAll(text: string, patterns: seq<Pattern>) returns (redacted: string)
    ensures redacted == PatternMasked(text, patterns)
  {
    redacted := text;
    var k := 0;
    while k < |patterns|
      invariant k <= |patterns| && redacted == PatternMasked(text, patterns[..k])
    {
      assert patterns[..k + 1][..k] == patterns[..k];
      redacted := Substituted(redacted, patterns[k]);
      k := k + 1;
    }
    assert patterns[..k] == patterns;
  }

  class SecretRegistry {
    var registered: set<string>

    predicate Valid()
      reads this
    {
      forall secret :: secret in registered ==> |secret| >= 8
    }

    constructor ()
      ensures Valid() && registered == {}
    {
      registered := {};
    }

    method RegisterSecret(value: string)
      requires Valid()
      modifies this
      ensures Valid()
      ensures registered == old(registered) + if |value| >= 8 then {value} else {}
    {
      if |value| >= 8 {
        registered := registered + {value};
      }
    }

    /** The registry is read in an order of its own choosing. */
    method MaskRegistered(text: string) returns (redacted: string, ghost order: seq<string>)
      requires Valid()
      ensures IsOrderOf(order, registered) && NonEmpty(order) && redacted == Masked(text, order)
    {
      redacted, order := text, [];
      var left, done := registered, {};
      while left != {}
        invariant left + done == registered && left !! done
        invariant IsOrderOf(order, done) && NonEmpty(order)
        invariant redacted == Masked(text, order)
        decreases |left|
      {
        var value :| value in left;
        redacted := Mask(redacted, value);
        OneMoreMasked(text, order, value, done);
        order, left, done := order + [value], left - {value}, done + {value};
      }
      assert done == registered;
    }

    /** Both loops rewrite `text`: the registered values first, then every match of each pattern. */
    method Redact(text: string, patterns: seq<Pattern>) returns (redacted: string, ghost order: seq<string>)
      requires Valid()
      ensures IsOrderOf(order, registered) && NonEmpty(order)
      ensures redacted == PatternMasked(Masked(text, order), patterns)
      ensures IsPatternRun(Masked(text, order), patterns, redacted)
      ensures forall secret :: secret in registered && IsSafe(secret) ==> !Contains(redacted, secret)
    {
      redacted, order := MaskRegistered(text);
      redacted := SubstituteAll(redacted, patterns);
      PatternsRun(Masked(text, order), patterns);
      forall secret | secret in registered && IsSafe(secret)
        ensures !Contains(redacted, secret)
      {
        NoSafeSecretSurvives(text, order, patterns, secret);
      }
    }
  }

  method Mask(text: string, value: string) returns (masked: string)
    requires value != ""
    ensures masked == Replace(text, value, REDACTED)
  {
    masked := text;
    var found := Find(text, value);
    if found {
      masked := ReplaceAll(text, value, REDACTED);
    } else {
      ReplaceAbsent(text, value, REDACTED);
    }
  }

  method Find(text: string, value: string) returns (found: bool)
    ensures found == Contains(text, value)
  {
    var i := 0;
    while i + |value| <= |text|
      invariant forall k: nat :: k < i ==> !OccursAt(text, value, k)
    {
      if text[i..i + |value|] == value {
        assert OccursAt(text, value, i);
        return true;
      }
      i := i + 1;
    }
    found := false;
  }
}
