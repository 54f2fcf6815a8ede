/**
 The context harness: packs a conversation into a token budget by keeping a suffix of
 whole turns, then shortens texts until the estimate fits.

 A message costs a fixed overhead plus its characters divided by the characters per
 token, rounded up; `extra` counts the characters of the role, the name, the tool calls
 and the reply id, which shortening does not touch.
 */
module ContextHarness {
  import opened Wrappers
  import opened Basics

  datatype Kind = System | Human | Assistant | Tool

  datatype Message = Message(kind: Kind, text: string, extra: nat, calls: seq<nat>, replies: seq<nat>)

  // ---------------------------------------------------------------- estimates

  function Ceil(x: real): int {
    -((-x).Floor)
  }

  function Floor(x: real): int {
    x.Floor
  }

  function Tokens(chars: int, perToken: real): int
    requires perToken > 0.0
  {
    Ceil(chars as real / perToken)
  }

  const MESSAGE_OVERHEAD: int := 3

  function Cost(length: nat, extra: nat, perToken: real): int
    requires perToken > 0.0
  {
    Tokens(length + extra, perToken) + MESSAGE_OVERHEAD
  }

  function Count(messages: seq<Message>, perToken: real): int
    requires perToken > 0.0
  {
    if messages == [] then 0
    else Count(messages[..|messages| - 1], perToken)
         + Cost(|messages[|messages| - 1].text|, messages[|messages| - 1].extra, perToken)
  }

  lemma CountAppend(a: seq<Message>, m: Message, perToken: real)
    requires perToken > 0.0
    ensures Count(a + [m], perToken) == Count(a, perToken) + Cost(|m.text|, m.extra, perToken)
  {
    assert (a + [m])[..|a|] == a;
  }

  lemma {:induction false} CountConcat(a: seq<Message>, b: seq<Message>, perToken: real)
    requires perToken > 0.0
    ensures Count(a + b, perToken) == Count(a, perToken) + Count(b, perToken)
  {
    if b == [] {
      assert a + b == a;
    } else {
      var n := |b| - 1;
      CountConcat(a, b[..n], perToken);
      assert (a + b)[..|a + b| - 1] == a + b[..n];
    }
  }

  lemma {:induction false} CountUpdate(a: seq<Message>, i: nat, m: Message, perToken: real)
    requires perToken > 0.0 && i < |a|
    ensures Count(a[i := m], perToken) ==
            Count(a, perToken) - Cost(|a[i].text|, a[i].extra, perToken) + Cost(|m.text|, m.extra, perToken)
  {
    var n := |a| - 1;
    if i < n {
      assert a[i := m][..n] == a[..n][i := m];
      CountUpdate(a[..n], i, m, perToken);
    } else {
      assert a[i := m][..n] == a[..n];
    }
  }

  lemma QuotientMonotone(x: real, y: real, d: real)
    requires x <= y && d > 0.0
    ensures x / d <= y / d
  {
    var q, r := x / d, y / d;
    assert q * d == x && r * d == y;
    assert (q - r) * d == x - y;
  }

  lemma CostMonotone(a: nat, b: nat, extra: nat, perToken: real)
    requires perToken > 0.0 && a <= b
    ensures Cost(a, extra, perToken) <= Cost(b, extra, perToken)
  {
    QuotientMonotone((a + extra) as real, (b + extra) as real, perToken);
  }

  // ---------------------------------------------------------------- truncation

  /** White space as `str.strip` understands it. */
  predicate Space(c: char) {
    var n := c as int;
    9 <= n <= 13 || 28 <= n <= 32 || n == 0x85 || n == 0xA0 || n == 0x1680 || 0x2000 <= n <= 0x200A
    || n == 0x2028 || n == 0x2029 || n == 0x202F || n == 0x205F || n == 0x3000
  }

  function TrimRight(s: string): (r: string)
    ensures r <= s
    ensures r != [] ==> !Space(r[|r| - 1])
  {
    if s != [] && Space(s[|s| - 1]) then TrimRight(s[..|s| - 1]) else s
  }

  function TrimLeft(s: string): (r: string)
    ensures |r| <= |s| && r == s[|s| - |r|..]
    ensures r != [] ==> !Space(r[0])
  {
    if s != [] && Space(s[0]) then TrimLeft(s[1..]) else s
  }

  function Marker(): (m: string)
    ensures |m| == 40
  {
    "\n[... truncated by Context Harness ...]\n"
  }

  const MARKER_LENGTH: int := 40

  function TargetChars(target: int, perToken: real): (r: int)
    ensures r >= MARKER_LENGTH + 12
  {
    Max(MARKER_LENGTH + 12, Floor(target as real * perToken))
  }

  function PrefixChars(remaining: int): int {
    Max(6, Floor(remaining as real * 0.65))
  }

  function SuffixChars(remaining: int): int {
    Max(6, remaining - PrefixChars(remaining))
  }

  /** Both ends are kept; together they exceed what remains by at most one character. */
  lemma EndsFit(remaining: int)
    requires remaining >= 12
    ensures 6 <= PrefixChars(remaining) && 6 <= SuffixChars(remaining)
    ensures remaining <= PrefixChars(remaining) + SuffixChars(remaining) <= remaining + 1
  {
    var p := Floor(remaining as real * 0.65);
    assert p as real <= remaining as real * 0.65 < p as real + 1.0;
  }

  function Truncate(text: string, target: int, perToken: real): string {
    Clip(text, TargetChars(target, perToken))
  }

  /** A text longer than `chars` keeps its two ends, with the marker between them. */
  function Clip(text: string, chars: int): string
    requires chars >= MARKER_LENGTH + 12
  {
    if |text| <= chars then text
    else
      EndsFit(chars - MARKER_LENGTH);
      Shortened(text, PrefixChars(chars - MARKER_LENGTH), SuffixChars(chars - MARKER_LENGTH))
  }

  function Shortened(text: string, prefix: nat, suffix: nat): string
    requires prefix <= |text| && suffix <= |text|
  {
    TrimRight(text[..prefix]) + Marker() + TrimLeft(text[|text| - suffix..])
  }

  /** What `strip` leaves at the end of `text[..p]`: everything up to `a`, and only white space behind. */
  predicate EndsAt(text: string, p: int, a: int) {
    0 <= a <= p <= |text| && (a > 0 ==> !Space(text[a - 1])) && forall i | a <= i < p :: Space(text[i])
  }

  /** What `strip` leaves at the start of the last `q` characters: the last `b`, and only white space before. */
  predicate StartsAt(text: string, q: int, b: int) {
    0 <= b <= q <= |text| && (b > 0 ==> !Space(text[|text| - b])) && forall i | |text| - q <= i < |text| - b :: Space(text[i])
  }

  /** `t` is the beginning of `text` up to `a`, the marker, and its last `b` characters. */
  predicate IsShortened(text: string, t: string, a: int, b: int) {
    0 <= a <= |text| && 0 <= b <= |text| && t == text[..a] + Marker() + text[|text| - b..]
  }

  lemma {:induction false} TrimRightEnds(s: string)
    ensures EndsAt(s, |s|, |TrimRight(s)|)
  {
    if s != [] && Space(s[|s| - 1]) { TrimRightEnds(s[..|s| - 1]); }
  }

  lemma {:induction false} TrimLeftStarts(s: string)
    ensures StartsAt(s, |s|, |TrimLeft(s)|)
  {
    if s != [] && Space(s[0]) {
      TrimLeftStarts(s[1..]);
      assert forall i | 0 < i < |s| :: s[i] == s[1..][i - 1];
    }
  }

  lemma FrontEnds(text: string, prefix: nat)
    requires prefix <= |text|
    ensures var a := |TrimRight(text[..prefix])|; EndsAt(text, prefix, a) && TrimRight(text[..prefix]) == text[..a]
  {
    var front := text[..prefix];
    TrimRightEnds(front);
    assert forall i | 0 <= i < prefix :: front[i] == text[i];
    assert text[..|TrimRight(front)|] == front[..|TrimRight(front)|];
  }

  lemma BackStarts(text: string, suffix: nat)
    requires suffix <= |text|
    ensures var b := |TrimLeft(text[|text| - suffix..])|;
            StartsAt(text, suffix, b) && TrimLeft(text[|text| - suffix..]) == text[|text| - b..]
  {
    var back := text[|text| - suffix..];
    TrimLeftStarts(back);
    BackIndex(text, back, suffix, |TrimLeft(back)|);
  }

  lemma BackIndex(text: string, back: string, suffix: nat, b: nat)
    requires suffix <= |text| && back == text[|text| - suffix..] && StartsAt(back, suffix, b)
    ensures StartsAt(text, suffix, b) && back[suffix - b..] == text[|text| - b..]
  {
    forall i | |text| - suffix <= i < |text| - b ensures Space(text[i]) {
      assert text[i] == back[i - (|text| - suffix)];
    }
  }

  lemma ShortenedKeepsEnds(text: string, prefix: nat, suffix: nat)
    requires prefix <= |text| && suffix <= |text|
    ensures var a, b := |TrimRight(text[..prefix])|, |TrimLeft(text[|text| - suffix..])|;
            && EndsAt(text, prefix, a) && StartsAt(text, suffix, b)
            && IsShortened(text, Shortened(text, prefix, suffix), a, b)
  {
    FrontEnds(text, prefix);
    BackStarts(text, suffix);
  }

  // ------------------------------------------------------------- what repeated cuts keep

  /**
   `t` still begins with the first `a` characters of `text` and ends with its last `b`, with
   the marker between; of the first six and the last six characters only white space is lost.
   */
  ghost predicate KeptEnds(text: string, t: string, a: nat, b: nat) {
    && a <= |text| && b <= |text| && a + MARKER_LENGTH + b <= |t|
    && t[..a] == text[..a] && t[|t| - b..] == text[|text| - b..] && HasMarker(t)
    && (forall i | a <= i < 6 && i < |text| :: Space(text[i]))
    && (forall i | |text| - 6 <= i < |text| - b && 0 <= i :: Space(text[i]))
  }

  ghost predicate KeepsEnds(text: string, t: string) {
    exists a: nat, b: nat {:trigger KeptEnds(text, t, a, b)} :: KeptEnds(text, t, a, b)
  }

  lemma FirstCutKeeps(text: string, prefix: nat, suffix: nat)
    requires 6 <= prefix <= |text| && 6 <= suffix <= |text|
    ensures KeepsEnds(text, Shortened(text, prefix, suffix))
  {
    var a, b := |TrimRight(text[..prefix])|, |TrimLeft(text[|text| - suffix..])|;
    ShortenedKeepsEnds(text, prefix, suffix);
    ShortenedBounds(text, prefix, suffix);
    ShortenedIsKept(text, Shortened(text, prefix, suffix), prefix, suffix, a, b);
  }

  lemma ShortenedIsKept(text: string, t: string, prefix: nat, suffix: nat, a: nat, b: nat)
    requires 6 <= prefix && 6 <= suffix && EndsAt(text, prefix, a) && StartsAt(text, suffix, b)
    requires IsShortened(text, t, a, b) && HasMarker(t)
    ensures KeptEnds(text, t, a, b)
  {
    ShortenedEnds(text, t, a, b, a, b);
  }

  /** The beginning that a further cut keeps. */
  lemma NextFront(text: string, t: string, a: nat, prefix: nat, a': nat)
    requires a <= |text| && a <= |t| && t[..a] == text[..a] && forall i | a <= i < 6 && i < |text| :: Space(text[i])
    requires 6 <= prefix <= |t| && EndsAt(t, prefix, a')
    ensures var k := Min(a, a'); t[..k] == text[..k] && forall i | k <= i < 6 && i < |text| :: Space(text[i])
  {
    var k := Min(a, a');
    assert t[..k] == t[..a][..k] && text[..k] == text[..a][..k];
    forall i | k <= i < 6 && i < |text| ensures Space(text[i]) {
      if i < a { assert text[i] == text[..a][i] == t[..a][i] == t[i]; }
    }
  }

  /** The end that a further cut keeps. */
  lemma NextBack(text: string, t: string, b: nat, suffix: nat, b': nat)
    requires b <= |text| && b <= |t| && t[|t| - b..] == text[|text| - b..]
    requires forall i | |text| - 6 <= i < |text| - b && 0 <= i :: Space(text[i])
    requires 6 <= suffix <= |t| && StartsAt(t, suffix, b')
    ensures var k := Min(b, b');
            && t[|t| - k..] == text[|text| - k..]
            && forall i | |text| - 6 <= i < |text| - k && 0 <= i :: Space(text[i])
  {
    var k := Min(b, b');
    assert t[|t| - k..] == t[|t| - b..][b - k..] && text[|text| - k..] == text[|text| - b..][b - k..];
    forall i | |text| - 6 <= i < |text| - k && 0 <= i ensures Space(text[i]) {
      if i >= |text| - b {
        var d := i - (|text| - b);
        assert text[i] == text[|text| - b..][d] == t[|t| - b..][d] == t[|t| - b + d];
      }
    }
  }

  lemma CutAgainIsKept(text: string, t: string, u: string, a: nat, b: nat, prefix: nat, suffix: nat, a': nat, b': nat)
    requires KeptEnds(text, t, a, b) && 6 <= prefix && 6 <= suffix && EndsAt(t, prefix, a') && StartsAt(t, suffix, b')
    requires IsShortened(t, u, a', b') && HasMarker(u)
    ensures KeptEnds(text, u, Min(a, a'), Min(b, b'))
  {
    NextFront(text, t, a, prefix, a');
    NextBack(text, t, b, suffix, b');
    ShortenedEnds(t, u, a', b', Min(a, a'), Min(b, b'));
  }

  /** Cutting again keeps a beginning and an end of the original. */
  lemma NextCutKeeps(text: string, t: string, prefix: nat, suffix: nat)
    requires KeepsEnds(text, t) && 6 <= prefix <= |t| && 6 <= suffix <= |t|
    ensures KeepsEnds(text, Shortened(t, prefix, suffix))
  {
    var a: nat, b: nat :| KeptEnds(text, t, a, b);
    var a', b' := |TrimRight(t[..prefix])|, |TrimLeft(t[|t| - suffix..])|;
    ShortenedKeepsEnds(t, prefix, suffix);
    ShortenedBounds(t, prefix, suffix);
    CutAgainIsKept(text, t, Shortened(t, prefix, suffix), a, b, prefix, suffix, a', b');
  }

  lemma ShortenedEnds(t: string, u: string, a: nat, b: nat, k: nat, m: nat)
    requires IsShortened(t, u, a, b) && k <= a && m <= b
    ensures |u| == a + MARKER_LENGTH + b && u[..k] == t[..k] && u[|u| - m..] == t[|t| - m..]
  {
    assert u[..a] == t[..a] && u[..k] == u[..a][..k] && t[..k] == t[..a][..k];
    assert u[|u| - b..] == t[|t| - b..];
    assert u[|u| - m..] == u[|u| - b..][b - m..] && t[|t| - m..] == t[|t| - b..][b - m..];
  }

  predicate HasMarker(text: string) {
    exists i {:trigger text[i..]} | 0 <= i <= |text| - 40 :: text[i..][..40] == Marker()
  }

  lemma ShortenedBounds(text: string, prefix: nat, suffix: nat)
    requires prefix <= |text| && suffix <= |text|
    ensures var t := Shortened(text, prefix, suffix);
            MARKER_LENGTH <= |t| <= MARKER_LENGTH + prefix + suffix && HasMarker(t)
  {
    MarkerInside(TrimRight(text[..prefix]), Marker(), TrimLeft(text[|text| - suffix..]));
  }

  lemma MarkerInside(a: string, marker: string, b: string)
    requires marker == Marker()
    ensures HasMarker(a + marker + b)
  {
    assert (a + marker + b)[|a|..][..40] == marker;
  }

  lemma ClipShortens(text: string, chars: int)
    requires chars >= MARKER_LENGTH + 12
    ensures var t := Clip(text, chars);
            && |t| <= |text|
            && (|text| <= chars ==> t == text)
            && (|text| > chars ==> HasMarker(t) && MARKER_LENGTH <= |t| <= chars + 1)
  {
    if |text| > chars {
      EndsFit(chars - MARKER_LENGTH);
      ShortenedBounds(text, PrefixChars(chars - MARKER_LENGTH), SuffixChars(chars - MARKER_LENGTH));
    }
  }

  /**
   The two ends of a text above `chars`, with the marker between them: of 65 percent of what
   remains beside the marker and of the rest, at least six each, only white space next to the
   marker is lost.
   */
  ghost predicate ClippedTo(text: string, t: string, chars: int) {
    var p := Max(6, Floor((chars - 40) as real * 0.65));
    ClippedBy(text, t, p, Max(6, chars - 40 - p))
  }

  ghost predicate ClippedBy(text: string, t: string, p: int, q: int) {
    exists a: nat, b: nat {:trigger IsShortened(text, t, a, b)} ::
      EndsAt(text, p, a) && StartsAt(text, q, b) && IsShortened(text, t, a, b)
  }

  lemma ShortenedIsClipped(text: string, p: nat, q: nat)
    requires p <= |text| && q <= |text|
    ensures ClippedBy(text, Shortened(text, p, q), p, q)
  {
    ShortenedKeepsEnds(text, p, q);
  }

  lemma ClippedAs(text: string, t: string, chars: int, p: int, q: int)
    requires p == PrefixChars(chars - MARKER_LENGTH) && q == SuffixChars(chars - MARKER_LENGTH) && ClippedBy(text, t, p, q)
    ensures ClippedTo(text, t, chars)
  {
  }

  lemma ClipKeepsEnds(text: string, chars: int)
    requires chars >= MARKER_LENGTH + 12 && |text| > chars
    ensures ClippedTo(text, Clip(text, chars), chars)
  {
    EndsFit(chars - MARKER_LENGTH);
    ClipEnds(text, chars, PrefixChars(chars - MARKER_LENGTH), SuffixChars(chars - MARKER_LENGTH), Clip(text, chars));
  }

  lemma ClipEnds(text: string, chars: int, p: nat, q: nat, t: string)
    requires p == PrefixChars(chars - MARKER_LENGTH) && q == SuffixChars(chars - MARKER_LENGTH)
    requires p <= |text| && q <= |text| && t == Shortened(text, p, q)
    ensures ClippedTo(text, t, chars)
  {
    ShortenedIsClipped(text, p, q);
    ClippedAs(text, t, chars, p, q);
  }

  lemma ClipKeeps(original: string, text: string, chars: int)
    requires chars >= MARKER_LENGTH + 12 && |text| > chars
    ensures KeepsEnds(text, Clip(text, chars))
    ensures KeepsEnds(original, text) ==> KeepsEnds(original, Clip(text, chars))
  {
    EndsFit(chars - MARKER_LENGTH);
    FirstCutKeeps(text, PrefixChars(chars - MARKER_LENGTH), SuffixChars(chars - MARKER_LENGTH));
    if KeepsEnds(original, text) {
      NextCutKeeps(original, text, PrefixChars(chars - MARKER_LENGTH), SuffixChars(chars - MARKER_LENGTH));
    }
  }

  /** Truncation never lengthens a text, and what it changes carries the marker. */
  lemma TruncateLengths(text: string, target: int, perToken: real)
    ensures var t := Truncate(text, target, perToken);
            && |t| <= |text|
            && (|text| <= TargetChars(target, perToken) ==> t == text)
            && (|text| > TargetChars(target, perToken) ==>
                 HasMarker(t) && MARKER_LENGTH <= |t| <= TargetChars(target, perToken) + 1)
  {
    ClipShortens(text, TargetChars(target, perToken));
  }

  /**
   Truncation leaves a text within the target alone. A longer one becomes its beginning, the
   marker and its end, never longer than before and at most one character above the target.
   */
  lemma TruncateShortens(text: string, target: int, perToken: real)
    ensures var t := Truncate(text, target, perToken);
            var chars := Max(52, Floor(target as real * perToken));
            && |t| <= |text| && (|text| > chars ==> |t| <= chars + 1)
            && (if |text| <= chars then t == text else ClippedTo(text, t, chars))
  {
    TruncateLengths(text, target, perToken);
    if |text| > TargetChars(target, perToken) {
      ClipKeepsEnds(text, TargetChars(target, perToken));
    }
  }

  /** A text that is cut, or cut again, keeps a beginning and an end of the original. */
  lemma TruncateKeepsEnds(original: string, text: string, target: int, perToken: real)
    requires Truncate(text, target, perToken) != text
    ensures KeepsEnds(text, Truncate(text, target, perToken))
    ensures KeepsEnds(original, text) ==> KeepsEnds(original, Truncate(text, target, perToken))
  {
    ClipKeeps(original, text, TargetChars(target, perToken));
  }

  // ------------------------------------------------------------------- fitting

  /** The same message with another text. */
  function WithText(m: Message, text: string): Message {
    m.(text := text)
  }

  /** `n` is `m` with a text that is no longer, carries the marker, and keeps a beginning and an end. */
  ghost predicate Cut(m: Message, n: Message) {
    && n == WithText(m, n.text) && KeepsEnds(m.text, n.text)
    && |n.text| <= |m.text| && HasMarker(n.text) && |n.text| >= MARKER_LENGTH && |m.text| > MARKER_LENGTH + 12
  }

  /** `b` is `a` except for the cut texts at the indexes in `changed`. */
  ghost predicate CutAt(a: seq<Message>, b: seq<Message>, changed: set<nat>) {
    && |a| == |b|
    && (forall i | i in changed :: i < |a|)
    && (forall i {:trigger b[i]} | 0 <= i < |a| :: if i in changed then Cut(a[i], b[i]) else b[i] == a[i])
  }

  datatype Fitted = Fitted(messages: seq<Message>, truncated: nat)

  /**
   The longest text a failing fit can leave: one character more than the smallest target,
   which is 24 tokens but never less than the marker and twelve characters.
   */
  function Floored(perToken: real): (r: nat)
    ensures r >= 53
  {
    Max(MARKER_LENGTH + 12, Floor(24.0 * perToken)) + 1
  }

  /** Texts longer than `cap`. */
  function Long(messages: seq<Message>, cap: nat): nat {
    if messages == [] then 0
    else Long(messages[..|messages| - 1], cap) + if |messages[|messages| - 1].text| > cap then 1 else 0
  }

  lemma {:induction false} LongBounds(messages: seq<Message>, cap: nat)
    ensures Long(messages, cap) <= |messages|
    ensures Long(messages, cap) == 0 <==> forall i | 0 <= i < |messages| :: |messages[i].text| <= cap
  {
    if messages != [] {
      var n := |messages| - 1;
      LongBounds(messages[..n], cap);
      assert forall i | 0 <= i < n :: messages[i] == messages[..n][i];
    }
  }

  lemma {:induction false} LongUpdate(a: seq<Message>, i: nat, m: Message, cap: nat)
    requires i < |a|
    ensures Long(a[i := m], cap) == Long(a, cap) - (if |a[i].text| > cap then 1 else 0) + (if |m.text| > cap then 1 else 0)
  {
    var n := |a| - 1;
    if i < n {
      assert a[i := m][..n] == a[..n][i := m];
      LongUpdate(a[..n], i, m, cap);
    } else {
      assert a[i := m][..n] == a[..n];
    }
  }

  /** The estimate when no text is longer than `cap`. */
  function CappedCount(messages: seq<Message>, cap: nat, perToken: real): int
    requires perToken > 0.0
  {
    if messages == [] then 0
    else
      var last := messages[|messages| - 1];
      CappedCount(messages[..|messages| - 1], cap, perToken) + Cost(Min(|last.text|, cap), last.extra, perToken)
  }

  /** The estimate when every text that may be cut has shrunk to the bare marker. */
  function BareCount(messages: seq<Message>, perToken: real): int
    requires perToken > 0.0
  {
    if messages == [] then 0
    else
      var last := messages[|messages| - 1];
      BareCount(messages[..|messages| - 1], perToken)
      + Cost(if |last.text| > MARKER_LENGTH + 12 then MARKER_LENGTH else |last.text|, last.extra, perToken)
  }

  /** Cut texts within the cap cost at most the capped estimate, and cuts never go below the bare one. */
  lemma {:induction false} CutBetween(a: seq<Message>, b: seq<Message>, changed: set<nat>, cap: nat, perToken: real)
    requires perToken > 0.0 && CutAt(a, b, changed)
    ensures BareCount(a, perToken) <= Count(b, perToken) <= Count(a, perToken)
    ensures Long(b, cap) == 0 ==> Count(b, perToken) <= CappedCount(a, cap, perToken)
  {
    if a != [] {
      var n := |a| - 1;
      assert forall i | 0 <= i < n :: b[..n][i] == b[i];
      CutBetween(a[..n], b[..n], (set i | i in changed && i < n), cap, perToken);
      assert b[n] == b[n];
      CostMonotone(|b[n].text|, |a[n].text|, a[n].extra, perToken);
      CostMonotone(if |a[n].text| > MARKER_LENGTH + 12 then MARKER_LENGTH else |a[n].text|, |b[n].text|, a[n].extra, perToken);
      if |b[n].text| <= cap {
        CostMonotone(|b[n].text|, Min(|a[n].text|, cap), a[n].extra, perToken);
      }
    }
  }

  predicate IsLargest(messages: seq<Message>, index: nat)
    requires index < |messages|
  {
    && |messages[index].text| > MARKER_LENGTH + 12
    && (forall i | 0 <= i < |messages| :: |messages[i].text| <= |messages[index].text|)
    && (forall i | index < i < |messages| :: |messages[i].text| < |messages[index].text|)
  }

  /** The last message among those with the longest text, if that text may still be cut. */
  function LargestIndex(messages: seq<Message>): (found: Option<nat>)
    ensures found.None? <==> forall i | 0 <= i < |messages| :: |messages[i].text| <= MARKER_LENGTH + 12
    ensures found.Some? ==> found.value < |messages| && IsLargest(messages, found.value)
  {
    if messages == [] then None
    else
      var n := |messages| - 1;
      var before := LargestIndex(messages[..n]);
      if |messages[n].text| <= MARKER_LENGTH + 12 then before
      else if before.Some? && |messages[n].text| < |messages[before.value].text| then before
      else Some(n)
  }

  method Largest(messages: seq<Message>) returns (found: Option<nat>)
    ensures found == LargestIndex(messages)
  {
    found := None;
    for i := 0 to |messages|
      invariant found == LargestIndex(messages[..i])
    {
      assert messages[..i + 1][..i] == messages[..i];
      if |messages[i].text| > MARKER_LENGTH + 12 {
        if found.None? || |messages[i].text| >= |messages[found.value].text| {
          found := Some(i);
        }
      }
    }
    assert messages[..|messages|] == messages;
  }

  function Target(text: string, excess: int, perToken: real): int
    requires perToken > 0.0
  {
    Max(24, Tokens(|text|, perToken) - excess - 4)
  }

  lemma QuotientSum(x: real, y: real, d: real)
    requires d > 0.0
    ensures (x + y) / d == x / d + y / d
  {
    assert (x / d + y / d) * d == x + y;
  }

  lemma Cancelled(x: real, d: real)
    requires d > 0.0
    ensures x * d / d == x
  {
    var q := x * d / d;
    assert q * d == x * d;
    assert (q - x) * d == 0.0;
  }

  /** A target that is not the smallest one lies below the text by the excess and a margin. */
  lemma TargetBelow(n: nat, excess: nat, target: int, perToken: real)
    requires perToken > 0.0 && target == Tokens(n, perToken) - excess - 4
    ensures target as real + excess as real + 3.0 < n as real / perToken
  {
  }

  /** The margin in characters. */
  lemma TargetChopsTwo(n: nat, target: int, perToken: real)
    requires perToken >= 0.5 && target as real + 4.0 < n as real / perToken
    ensures target as real * perToken < n as real - 2.0
  {
    var q, t := n as real / perToken, target as real;
    var d := q - t - 4.0;
    assert d * perToken > 0.0;
    assert d * perToken == q * perToken - t * perToken - 4.0 * perToken;
    assert q * perToken == n as real;
  }

  /** A text of the target's length, and one character more, costs the excess less. */
  lemma TargetSaves(n: nat, extra: nat, excess: nat, target: int, length: nat, perToken: real)
    requires perToken >= 0.5 && target as real + excess as real + 3.0 < n as real / perToken
    requires length as real <= target as real * perToken + 1.0
    ensures Cost(length, extra, perToken) <= Cost(n, extra, perToken) - excess
  {
    QuotientSum(n as real, extra as real, perToken);
    QuotientSum(length as real, extra as real, perToken);
    assert length as real / perToken <= target as real + 2.0 by {
      QuotientMonotone(length as real, target as real * perToken + 1.0, perToken);
      QuotientSum(target as real * perToken, 1.0, perToken);
      QuotientMonotone(1.0, 2.0 * perToken, perToken);
      Cancelled(target as real, perToken);
      Cancelled(2.0, perToken);
    }
  }

  /** The arithmetic of one cut whose target is not the smallest one. */
  lemma CutArithmetic(n: nat, extra: nat, excess: nat, target: int, length: nat, perToken: real)
    requires perToken >= 0.5 && excess > 0
    requires target == Tokens(n, perToken) - excess - 4
    requires length as real <= target as real * perToken + 1.0
    ensures length < n
    ensures target as real * perToken < n as real - 2.0
    ensures Cost(length, extra, perToken) <= Cost(n, extra, perToken) - excess
  {
    TargetBelow(n, excess, target, perToken);
    TargetChopsTwo(n, target, perToken);
    TargetSaves(n, extra, excess, target, length, perToken);
  }

  /**
   With at least half a character per token, cutting a text longer than `Floored` either
   brings the estimate within the budget or leaves at most `Floored` characters.
   */
  lemma CutSettles(m: Message, excess: nat, perToken: real)
    requires perToken >= 0.5 && |m.text| > Floored(perToken) && excess > 0
    ensures var text := Truncate(m.text, Target(m.text, excess, perToken), perToken);
            && |text| < |m.text|
            && (|text| <= Floored(perToken)
                || Cost(|text|, m.extra, perToken) <= Cost(|m.text|, m.extra, perToken) - excess)
  {
    var target := Target(m.text, excess, perToken);
    if target > 24 {
      LargeTargetSettles(m, excess, target, perToken);
    } else {
      SmallTargetSettles(m.text, target, perToken);
    }
  }

  lemma SmallTargetSettles(text: string, target: int, perToken: real)
    requires perToken >= 0.5 && |text| > Floored(perToken) && target == 24
    ensures |Truncate(text, target, perToken)| < |text| && |Truncate(text, target, perToken)| <= Floored(perToken)
  {
    TruncateLengths(text, target, perToken);
  }

  lemma LargeTargetSettles(m: Message, excess: nat, target: int, perToken: real)
    requires perToken >= 0.5 && |m.text| > Floored(perToken) && excess > 0
    requires target > 24 && target == Tokens(|m.text|, perToken) - excess - 4
    ensures var text := Truncate(m.text, target, perToken);
            && |text| < |m.text|
            && (|text| <= Floored(perToken)
                || Cost(|text|, m.extra, perToken) <= Cost(|m.text|, m.extra, perToken) - excess)
  {
    var text := Truncate(m.text, target, perToken);
    TruncateLengths(m.text, target, perToken);
    CutLength(|m.text|, excess, target, perToken);
    if |text| > Floored(perToken) {
      CutArithmetic(|m.text|, m.extra, excess, target, |text|, perToken);
    }
  }

  lemma CutLength(n: nat, excess: nat, target: int, perToken: real)
    requires perToken >= 0.5 && excess > 0 && 0 <= target == Tokens(n, perToken) - excess - 4
    ensures n > MARKER_LENGTH + 12 ==> n > TargetChars(target, perToken)
    ensures TargetChars(target, perToken) > MARKER_LENGTH + 12 ==>
              (TargetChars(target, perToken) + 1) as real <= target as real * perToken + 1.0
  {
    assert target as real * perToken >= 0.0;
    CutArithmetic(n, 0, excess, target, 0, perToken);
  }

  /** The smallest target, or what the text costs less the excess and a margin of four tokens. */
  lemma TargetExactly(text: string, excess: nat, perToken: real)
    requires perToken > 0.0
    ensures var target, exact := Target(text, excess, perToken), |text| as real / perToken - (excess + 4) as real;
            target >= 24 && (target > 24 ==> exact <= target as real < exact + 1.0) && (target == 24 ==> exact <= 24.0)
  {
  }

  predicate Solid(text: string) {
    forall i | 0 <= i < |text| :: !Space(text[i])
  }

  lemma NothingTrimmed(text: string, p: int, a: int, q: int, b: int)
    requires Solid(text) && EndsAt(text, p, a) && StartsAt(text, q, b)
    ensures a == p && b == q
  {
    var x := if a < |text| then text[a] else 'x';
    var y := if b < |text| then text[|text| - b - 1] else 'x';
    assert !Space(x) && !Space(y);
  }

  /** Without white space to lose, a text above the target keeps at least the target. */
  lemma CutKeepsTarget(text: string, chars: int, t: string)
    requires chars >= 52 && |text| > chars && ClippedTo(text, t, chars) && Solid(text)
    ensures |t| >= chars
  {
    var p := Max(6, Floor((chars - 40) as real * 0.65));
    var q := Max(6, chars - 40 - p);
    var a: nat, b: nat :| EndsAt(text, p, a) && StartsAt(text, q, b) && IsShortened(text, t, a, b);
    NothingTrimmed(text, p, a, q, b);
  }

  /** The arithmetic of a cut that keeps its target. */
  lemma SparingArithmetic(n: nat, extra: nat, excess: nat, target: int, length: nat, perToken: real)
    requires perToken >= 1.0 && n as real / perToken <= target as real + excess as real + 4.0
    requires length as real > target as real * perToken - 1.0
    ensures Cost(length, extra, perToken) >= Cost(n, extra, perToken) - excess - 5
  {
    QuotientSum(n as real, extra as real, perToken);
    QuotientSum(length as real, extra as real, perToken);
    assert length as real / perToken >= target as real - 1.0 by {
      QuotientMonotone(target as real * perToken - 1.0, length as real, perToken);
      QuotientSum(target as real * perToken - 1.0, 1.0, perToken);
      Cancelled(target as real, perToken);
      QuotientMonotone(1.0, perToken, perToken);
      Cancelled(1.0, perToken);
    }
  }

  /** Cutting to the target saves the excess and at most five tokens more. */
  predicate Sparing(text: string, extra: nat, excess: nat, target: int, perToken: real)
    requires perToken > 0.0
  {
    Cost(|Truncate(text, target, perToken)|, extra, perToken) >= Cost(|text|, extra, perToken) - excess - 5
  }

  /** With at least one character per token, a cut is sparing, unless the smallest target or white space intervenes. */
  lemma CutIsSparing(text: string, extra: nat, excess: nat, target: int, perToken: real)
    requires perToken >= 1.0 && Solid(text) && target == Target(text, excess, perToken)
    requires target > 24 && target as real * perToken >= 52.0
    ensures Sparing(text, extra, excess, target, perToken)
  {
    TargetExactly(text, excess, perToken);
    TruncateKeepsTarget(text, target, Truncate(text, target, perToken), perToken);
    SparingArithmetic(|text|, extra, excess, target, |Truncate(text, target, perToken)|, perToken);
  }

  lemma TruncateKeepsTarget(text: string, target: int, t: string, perToken: real)
    requires perToken >= 1.0 && target as real * perToken >= 52.0 && t == Truncate(text, target, perToken)
    requires target as real <= |text| as real / perToken && Solid(text)
    ensures |t| as real > target as real * perToken - 1.0
  {
    var chars := Floor(target as real * perToken);
    TruncateShortens(text, target, perToken);
    if |text| > chars {
      CutKeepsTarget(text, chars, t);
    } else {
      assert t == text;
      QuotientBounds(target as real, |text| as real, perToken);
    }
  }

  lemma QuotientBounds(x: real, y: real, d: real)
    requires d > 0.0 && x <= y / d
    ensures x * d <= y
  {
    var q := y / d;
    assert q * d == y;
    assert (q - x) * d >= 0.0;
  }

  lemma CutOnce(a: seq<Message>, b: seq<Message>, changed: set<nat>, index: nat, text: string)
    requires CutAt(a, b, changed) && index < |b|
    requires |b[index].text| > MARKER_LENGTH + 12 && |text| <= |b[index].text|
    requires HasMarker(text) && |text| >= MARKER_LENGTH && KeepsEnds(a[index].text, text)
    ensures CutAt(a, b[index := WithText(b[index], text)], changed + {index})
  {
  }

  /** What one pass of the fitting loop guarantees about the message it cut. */
  ghost predicate Advanced(before: seq<Message>, after: seq<Message>, index: nat, budget: int, perToken: real)
    requires perToken > 0.0
  {
    && index < |before| && index < |after| && after == before[index := WithText(before[index], after[index].text)]
    && (|before[index].text| > Floored(perToken) ==>
         |after[index].text| <= Floored(perToken) || Count(after, perToken) <= budget)
    && |after[index].text| <= |before[index].text|
  }

  lemma AdvanceSettles(before: seq<Message>, after: seq<Message>, index: nat, budget: int, perToken: real)
    requires perToken > 0.0 && |after| == |before| && Advanced(before, after, index, budget, perToken)
    ensures Count(after, perToken) <= budget
            || Long(after, Floored(perToken)) <= Long(before, Floored(perToken))
               - if |before[index].text| > Floored(perToken) then 1 else 0
  {
    LongUpdate(before, index, after[index], Floored(perToken));
  }

  lemma CutAdvances(before: seq<Message>, index: nat, text: string, budget: int, perToken: real)
    requires perToken >= 0.5 && index < |before| && Count(before, perToken) > budget
    requires text == Truncate(before[index].text, Target(before[index].text, Count(before, perToken) - budget, perToken), perToken)
    ensures Advanced(before, before[index := WithText(before[index], text)], index, budget, perToken)
    ensures |before[index].text| > Floored(perToken) ==> text != before[index].text
  {
    var m := before[index];
    TruncateLengths(m.text, Target(m.text, Count(before, perToken) - budget, perToken), perToken);
    if |m.text| > Floored(perToken) {
      CutSettles(m, Count(before, perToken) - budget, perToken);
      CountUpdate(before, index, WithText(m, text), perToken);
    }
  }

  /** With at least half a character per token, every pass so far has settled one long text, or the estimate. */
  ghost predicate PassesSettle(messages: seq<Message>, fitted: seq<Message>, pass: nat, budget: int, perToken: real)
    requires perToken > 0.0
  {
    perToken >= 0.5 ==>
      var long := Long(fitted, Floored(perToken));
      Count(fitted, perToken) <= budget || long == 0 || long + pass <= |messages|
  }

  lemma LargestIsLong(messages: seq<Message>, index: nat, cap: nat)
    requires index < |messages| && IsLargest(messages, index)
    ensures Long(messages, cap) == 0 <==> |messages[index].text| <= cap
  {
    LongBounds(messages, cap);
  }

  lemma NoneIsLong(messages: seq<Message>, cap: nat)
    requires cap >= 52 && forall i | 0 <= i < |messages| :: |messages[i].text| <= MARKER_LENGTH + 12
    ensures Long(messages, cap) == 0
  {
    LongBounds(messages, cap);
  }

  lemma CutPasses(
    messages: seq<Message>, fitted: seq<Message>, index: nat, text: string, pass: nat, budget: int, perToken: real)
    requires perToken >= 0.5 && index < |fitted| && IsLargest(fitted, index) && Count(fitted, perToken) > budget
    requires text == Truncate(fitted[index].text, Target(fitted[index].text, Count(fitted, perToken) - budget, perToken), perToken)
    requires PassesSettle(messages, fitted, pass, budget, perToken)
    ensures text == fitted[index].text ==> Long(fitted, Floored(perToken)) == 0
    ensures PassesSettle(messages, fitted[index := WithText(fitted[index], text)], pass + 1, budget, perToken)
  {
    CutAdvances(fitted, index, text, budget, perToken);
    LargestIsLong(fitted, index, Floored(perToken));
    AdvanceSettles(fitted, fitted[index := WithText(fitted[index], text)], index, budget, perToken);
  }

  /** The text that one pass puts in the place of another. */
  function NextText(fitted: seq<Message>, index: nat, budget: int, perToken: real): string
    requires perToken > 0.0 && index < |fitted|
  {
    var text := fitted[index].text;
    Truncate(text, Target(text, Count(fitted, perToken) - budget, perToken), perToken)
  }

  /** The message that one pass cuts: the largest, unless it may not be cut or would not change. */
  function NextCut(fitted: seq<Message>, budget: int, perToken: real): (next: Option<nat>)
    requires perToken > 0.0
    ensures next.Some? ==> next.value < |fitted| && IsLargest(fitted, next.value)
  {
    var found := LargestIndex(fitted);
    if found.Some? && NextText(fitted, found.value, budget, perToken) != fitted[found.value].text then found else None
  }

  function CutNext(fitted: seq<Message>, index: nat, budget: int, perToken: real): seq<Message>
    requires perToken > 0.0 && index < |fitted|
  {
    fitted[index := WithText(fitted[index], NextText(fitted, index, budget, perToken))]
  }

  /** The messages at one moment of the fitting, and the indexes cut so far. */
  datatype Cuts = Cuts(fitted: seq<Message>, truncated: set<nat>)

  /** One pass, unless the messages fit or nothing can or would change. */
  function Pass(s: Cuts, budget: int, perToken: real): Option<Cuts>
    requires perToken > 0.0
  {
    if Count(s.fitted, perToken) <= budget then None
    else
      match NextCut(s.fitted, budget, perToken)
      case None => None
      case Some(index) => Some(Cuts(CutNext(s.fitted, index, budget, perToken), s.truncated + {index}))
  }

  function Passer(budget: int, perToken: real): Cuts -> Option<Cuts>
    requires perToken > 0.0
  {
    s => Pass(s, budget, perToken)
  }

  /** `step` is one pass. */
  ghost predicate IsPass(step: Cuts -> Option<Cuts>, budget: int, perToken: real)
    requires perToken > 0.0
  {
    forall s {:trigger Pass(s, budget, perToken)} :: step(s) == Pass(s, budget, perToken)
  }

  /** At most `n` steps, as long as there is one. */
  function Repeat<S>(step: S -> Option<S>, s: S, n: nat): S {
    if n == 0 then s
    else
      match step(s)
      case None => s
      case Some(s') => Repeat(step, s', n - 1)
  }

  lemma RepeatStep<S>(step: S -> Option<S>, s: S, next: Option<S>, n: nat)
    requires n > 0 && step(s) == next
    ensures Repeat(step, s, n) == if next.None? then s else Repeat(step, next.value, n - 1)
  {
  }

  /** What every step keeps holds at the end, where all steps are spent or none is left. */
  lemma {:induction false} RepeatKeeps<S(!new)>(step: S -> Option<S>, inv: (S, nat) -> bool, s: S, p: nat, n: nat) returns (q: nat)
    requires inv(s, p)
    requires forall s: S, p: nat | inv(s, p) && step(s).Some? :: inv(step(s).value, p + 1)
    ensures inv(Repeat(step, s, n), q) && (q == p + n || step(Repeat(step, s, n)).None?)
    decreases n
  {
    if n == 0 || step(s).None? {
      q := p;
    } else {
      q := RepeatKeeps(step, inv, step(s).value, p + 1, n - 1);
    }
  }

  function Passes(messages: seq<Message>): nat {
    Max(1, 3 * |messages|)
  }

  function Fit(messages: seq<Message>, budget: int, perToken: real): Cuts
    requires perToken > 0.0
  {
    Repeat(Passer(budget, perToken), Cuts(messages, {}), Passes(messages))
  }

  /** `fitted` is what the passes make of the messages. */
  ghost predicate FitsTo(messages: seq<Message>, budget: int, perToken: real, fitted: seq<Message>)
    requires perToken > 0.0
  {
    exists step: Cuts -> Option<Cuts> {:trigger IsPass(step, budget, perToken)} ::
      IsPass(step, budget, perToken) && fitted == Repeat(step, Cuts(messages, {}), Passes(messages)).fitted
  }

  lemma FitFits(messages: seq<Message>, budget: int, perToken: real)
    requires perToken > 0.0
    ensures FitsTo(messages, budget, perToken, Fit(messages, budget, perToken).fitted)
  {
    assert IsPass(Passer(budget, perToken), budget, perToken);
  }

  /** What fitting returns: the messages after the passes, if they fit then. */
  function Fitting(messages: seq<Message>, budget: int, perToken: real): Result<Fitted>
    requires perToken > 0.0
  {
    var s := Fit(messages, budget, perToken);
    if Count(s.fitted, perToken) <= budget then Ok(Fitted(s.fitted, |s.truncated|)) else Err(ContextBudgetError)
  }

  lemma NextCutIsCut(messages: seq<Message>, fitted: seq<Message>, truncated: set<nat>, budget: int, perToken: real)
    requires perToken > 0.0 && CutAt(messages, fitted, truncated) && NextCut(fitted, budget, perToken).Some?
    ensures var index := NextCut(fitted, budget, perToken).value;
            CutAt(messages, CutNext(fitted, index, budget, perToken), truncated + {index})
  {
    var index := NextCut(fitted, budget, perToken).value;
    var text := fitted[index].text;
    var target := Target(text, Count(fitted, perToken) - budget, perToken);
    TruncateLengths(text, target, perToken);
    TruncateKeepsEnds(messages[index].text, text, target, perToken);
    CutOnce(messages, fitted, truncated, index, NextText(fitted, index, budget, perToken));
  }

  /** A pass that cuts nothing leaves no long text; one that cuts settles one long text, or the estimate. */
  lemma NextCutSettles(messages: seq<Message>, fitted: seq<Message>, pass: nat, budget: int, perToken: real)
    requires perToken >= 0.5 && Count(fitted, perToken) > budget && PassesSettle(messages, fitted, pass, budget, perToken)
    ensures match NextCut(fitted, budget, perToken)
            case None => Long(fitted, Floored(perToken)) == 0
            case Some(index) => PassesSettle(messages, CutNext(fitted, index, budget, perToken), pass + 1, budget, perToken)
  {
    var found := LargestIndex(fitted);
    if found.None? {
      NoneIsLong(fitted, Floored(perToken));
    } else {
      CutPasses(messages, fitted, found.value, NextText(fitted, found.value, budget, perToken), pass, budget, perToken);
    }
  }

  /** Fitting ends after three passes for each message, and earlier only if the messages fit or nothing would change. */
  lemma PassesSpent(messages: seq<Message>, budget: int, perToken: real)
    requires perToken > 0.0
    ensures var s, most := Fit(messages, budget, perToken), if messages == [] then 1 else 3 * |messages|;
            exists n: nat {:trigger Repeat(Passer(budget, perToken), Cuts(messages, {}), n)} ::
              && n <= most && s == Repeat(Passer(budget, perToken), Cuts(messages, {}), n)
              && (n < most ==> Pass(s, budget, perToken).None?)
  {
    assert Passes(messages) == if messages == [] then 1 else 3 * |messages|;
    assert Fit(messages, budget, perToken) == Repeat(Passer(budget, perToken), Cuts(messages, {}), Passes(messages));
  }

  /** What holds after `p` passes: the messages are cut, and the passes have settled them. */
  ghost predicate CutsSettle(messages: seq<Message>, s: Cuts, p: nat, budget: int, perToken: real)
    requires perToken > 0.0
  {
    CutAt(messages, s.fitted, s.truncated) && PassesSettle(messages, s.fitted, p, budget, perToken)
  }

  lemma PassKeeps(messages: seq<Message>, s: Cuts, p: nat, budget: int, perToken: real)
    requires perToken > 0.0 && CutsSettle(messages, s, p, budget, perToken) && Pass(s, budget, perToken).Some?
    ensures CutsSettle(messages, Pass(s, budget, perToken).value, p + 1, budget, perToken)
  {
    NextCutIsCut(messages, s.fitted, s.truncated, budget, perToken);
    if perToken >= 0.5 { NextCutSettles(messages, s.fitted, p, budget, perToken); }
  }

  lemma LastPassSettles(messages: seq<Message>, s: Cuts, p: nat, budget: int, perToken: real)
    requires perToken >= 0.5 && CutsSettle(messages, s, p, budget, perToken)
    requires p >= |messages| || Pass(s, budget, perToken).None?
    ensures Count(s.fitted, perToken) <= budget || Long(s.fitted, Floored(perToken)) == 0
  {
    if Count(s.fitted, perToken) > budget && p < |messages| {
      NextCutSettles(messages, s.fitted, p, budget, perToken);
    }
  }

  /** What the passes do to the messages is a cut, and leaves no long text unless the messages fit. */
  lemma FitCuts(messages: seq<Message>, budget: int, perToken: real)
    requires perToken > 0.0
    ensures var s := Fit(messages, budget, perToken);
            && CutAt(messages, s.fitted, s.truncated)
            && (perToken >= 0.5 ==> Count(s.fitted, perToken) <= budget || Long(s.fitted, Floored(perToken)) == 0)
  {
    var start := Cuts(messages, {});
    var inv := (s: Cuts, p: nat) => CutsSettle(messages, s, p, budget, perToken);
    var step := Passer(budget, perToken);
    LongBounds(messages, Floored(perToken));
    forall s: Cuts, p: nat | inv(s, p) && step(s).Some? ensures inv(step(s).value, p + 1) {
      PassKeeps(messages, s, p, budget, perToken);
    }
    var q := RepeatKeeps(step, inv, start, 0, Passes(messages));
    if perToken >= 0.5 { LastPassSettles(messages, Fit(messages, budget, perToken), q, budget, perToken); }
  }

  /** Fitting that raises leaves an estimate above the budget although every text is within the cap. */
  lemma FitBounds(messages: seq<Message>, budget: int, perToken: real)
    requires perToken > 0.0
    ensures var s := Fit(messages, budget, perToken);
            && CutAt(messages, s.fitted, s.truncated)
            && (Count(messages, perToken) <= budget ==> s == Cuts(messages, {}))
            && BareCount(messages, perToken) <= Count(s.fitted, perToken) <= Count(messages, perToken)
            && (perToken >= 0.5 && Count(s.fitted, perToken) > budget ==>
                  Count(s.fitted, perToken) <= CappedCount(messages, Floored(perToken), perToken))
  {
    var s := Fit(messages, budget, perToken);
    FitCuts(messages, budget, perToken);
    CutBetween(messages, s.fitted, s.truncated, Floored(perToken), perToken);
  }

  /** Cuts the largest text, unless nothing can or would change. */
  method CutLargest(fitted: seq<Message>, truncated: set<nat>, current: int, budget: int, perToken: real)
    returns (stop: bool, fitted': seq<Message>, truncated': set<nat>)
    requires perToken > 0.0 && current == Count(fitted, perToken) > budget
    ensures (stop, fitted', truncated') ==
            match NextCut(fitted, budget, perToken)
            case None => (true, fitted, truncated)
            case Some(index) => (false, CutNext(fitted, index, budget, perToken), truncated + {index})
  {
    var found := Largest(fitted);
    if found.None? {
      return true, fitted, truncated;
    }
    var index := found.value;
    var shortened := Shorten(fitted, index, current, budget, perToken);
    NextCutIs(fitted, index, shortened, budget, perToken);
    if shortened == fitted[index].text {
      return true, fitted, truncated;
    }
    stop, fitted', truncated' := false, fitted[index := WithText(fitted[index], shortened)], truncated + {index};
  }

  method Shorten(fitted: seq<Message>, index: nat, current: int, budget: int, perToken: real) returns (shortened: string)
    requires perToken > 0.0 && index < |fitted| && current == Count(fitted, perToken)
    ensures shortened == NextText(fitted, index, budget, perToken)
  {
    var text := fitted[index].text;
    var target := Target(text, current - budget, perToken);
    shortened := Truncate(text, target, perToken);
  }

  lemma NextCutIs(fitted: seq<Message>, index: nat, text: string, budget: int, perToken: real)
    requires perToken > 0.0 && index < |fitted| && LargestIndex(fitted) == Some(index)
    requires text == NextText(fitted, index, budget, perToken)
    ensures NextCut(fitted, budget, perToken) == if text == fitted[index].text then None else Some(index)
    ensures CutNext(fitted, index, budget, perToken) == fitted[index := WithText(fitted[index], text)]
  {
  }

  /** One pass of the fitting loop. */
  method TryPass(s: Cuts, budget: int, perToken: real, ghost step: Cuts -> Option<Cuts>) returns (next: Option<Cuts>)
    requires perToken > 0.0 && IsPass(step, budget, perToken)
    ensures next == step(s)
  {
    assert step(s) == Pass(s, budget, perToken);
    var current := Count(s.fitted, perToken);
    if current <= budget {
      return None;
    }
    var stop, fitted, truncated := CutLargest(s.fitted, s.truncated, current, budget, perToken);
    next := if stop then None else Some(Cuts(fitted, truncated));
  }

  /** The fitting loop. */
  method RunPasses(messages: seq<Message>, budget: int, perToken: real, ghost step: Cuts -> Option<Cuts>) returns (s: Cuts)
    requires perToken > 0.0 && IsPass(step, budget, perToken)
    ensures s == Repeat(step, Cuts(messages, {}), Passes(messages))
  {
    s := Cuts(messages, {});
    var passes := Passes(messages);
    ghost var goal := Repeat(step, s, passes);
    for pass := 0 to passes
      invariant goal == Repeat(step, s, passes - pass)
    {
      var next := TryPass(s, budget, perToken, step);
      RepeatStep(step, s, next, passes - pass);
      if next.None? {
        return;
      }
      s := next.value;
    }
  }

  /**
   Fitting either returns the messages with some texts cut, within the budget, or raises.
   It raises only if the estimate with every text capped at `Floored` exceeds the budget
   (53 characters at two characters per token), and always if the bare estimate does.
   */
  method FitMessages(messages: seq<Message>, budget: int, perToken: real) returns (r: Result<Fitted>)
    requires perToken > 0.0
    ensures r == Fitting(messages, budget, perToken)
    ensures Count(messages, perToken) <= budget ==> r == Ok(Fitted(messages, 0))
    ensures r.Ok? ==>
              && FitsTo(messages, budget, perToken, r.value.messages) && Count(r.value.messages, perToken) <= budget
              && exists changed: set<nat> {:trigger CutAt(messages, r.value.messages, changed)} ::
                   CutAt(messages, r.value.messages, changed) && |changed| == r.value.truncated
    ensures r.Err? ==> r.error.ContextBudgetError? && Count(messages, perToken) > budget
    ensures perToken >= 0.5 && r.Err? ==> CappedCount(messages, Floored(perToken), perToken) > budget
    ensures BareCount(messages, perToken) > budget ==> r.Err?
  {
    var s := RunPasses(messages, budget, perToken, Passer(budget, perToken));
    FitBounds(messages, budget, perToken);
    FitFits(messages, budget, perToken);
    if Count(s.fitted, perToken) > budget {
      return Err(ContextBudgetError);
    }
    return Ok(Fitted(s.fitted, |s.truncated|));
  }

  // --------------------------------------------------------------------- turns

  /** A human message opens a turn; any other message joins the last one. */
  function AddMessage(turns: seq<seq<Message>>, m: Message): (r: seq<seq<Message>>)
    ensures r != []
  {
    if turns == [] || m.kind.Human? then turns + [[m]]
    else turns[..|turns| - 1] + [turns[|turns| - 1] + [m]]
  }

  function Turns(messages: seq<Message>): (turns: seq<seq<Message>>)
    ensures messages == [] <==> turns == []
  {
    if messages == [] then [] else AddMessage(Turns(messages[..|messages| - 1]), messages[|messages| - 1])
  }

  function Flatten(turns: seq<seq<Message>>): seq<Message> {
    if turns == [] then [] else Flatten(turns[..|turns| - 1]) + turns[|turns| - 1]
  }

  method GroupTurns(messages: seq<Message>) returns (turns: seq<seq<Message>>)
    ensures turns == Turns(messages)
  {
    turns := [];
    var current: seq<Message> := [];
    for i := 0 to |messages|
      invariant Turns(messages[..i]) == if current == [] then turns else turns + [current]
      invariant current == [] ==> turns == []
    {
      assert messages[..i + 1][..i] == messages[..i];
      assert (turns + [current])[..|turns|] == turns;
      ghost var grown := AddMessage(Turns(messages[..i]), messages[i]);
      if messages[i].kind.Human? && current != [] {
        turns := turns + [current];
        current := [];
      }
      ghost var before := current;
      current := current + [messages[i]];
      assert before == [] ==> current == [messages[i]];
      assert grown == turns + [current];
    }
    assert messages[..|messages|] == messages;
    if current != [] {
      turns := turns + [current];
    }
  }

  /** What a turn is: nonempty, with a human message only at its start, and at the start of all turns but the first. */
  ghost predicate IsTurn(turn: seq<Message>, first: bool) {
    && turn != [] && (first || turn[0].kind.Human?)
    && forall i | 0 < i < |turn| :: !turn[i].kind.Human?
  }

  ghost predicate AreTurns(turns: seq<seq<Message>>) {
    forall k {:trigger turns[k]} | 0 <= k < |turns| :: IsTurn(turns[k], k == 0)
  }

  lemma FlattenAppend(turns: seq<seq<Message>>, turn: seq<Message>)
    ensures Flatten(turns + [turn]) == Flatten(turns) + turn
  {
    assert (turns + [turn])[..|turns|] == turns;
  }

  lemma AddMessageAppends(turns: seq<seq<Message>>, m: Message)
    requires AreTurns(turns)
    ensures Flatten(AddMessage(turns, m)) == Flatten(turns) + [m]
    ensures AreTurns(AddMessage(turns, m))
  {
    if turns == [] || m.kind.Human? {
      FlattenAppend(turns, [m]);
      assert IsTurn([m], turns == []);
    } else {
      var k := |turns| - 1;
      FlattenAppend(turns[..k], turns[k] + [m]);
      assert Flatten(turns) == Flatten(turns[..k]) + turns[k];
      LongerTurn(turns[k], m, k == 0);
    }
  }

  lemma LongerTurn(turn: seq<Message>, m: Message, first: bool)
    requires IsTurn(turn, first) && !m.kind.Human?
    ensures IsTurn(turn + [m], first)
  {
  }

  /** Grouping loses nothing and cuts exactly before the human messages. */
  lemma {:induction false} TurnsPartition(messages: seq<Message>)
    ensures Flatten(Turns(messages)) == messages && AreTurns(Turns(messages))
  {
    if messages != [] {
      var n := |messages| - 1;
      TurnsPartition(messages[..n]);
      AddMessageAppends(Turns(messages[..n]), messages[n]);
      assert messages == messages[..n] + [messages[n]];
    }
  }

  lemma {:induction false} FlattenConcat(a: seq<seq<Message>>, b: seq<seq<Message>>)
    ensures Flatten(a + b) == Flatten(a) + Flatten(b)
  {
    if b == [] {
      assert a + b == a;
    } else {
      var n := |b| - 1;
      FlattenConcat(a, b[..n]);
      assert (a + b)[..|a + b| - 1] == a + b[..n];
    }
  }

  /** Turns are the only such partition of the messages. */
  lemma {:induction false} TurnsUnique(turns: seq<seq<Message>>, messages: seq<Message>)
    requires AreTurns(turns) && Flatten(turns) == messages
    ensures turns == Turns(messages)
    decreases |messages|
  {
    if turns != [] {
      var k := |turns| - 1;
      var turn := turns[k];
      assert IsTurn(turn, k == 0);
      var n := |messages| - 1;
      assert messages[n] == turn[|turn| - 1];
      if |turn| == 1 {
        assert messages[..n] == Flatten(turns[..k]);
        TurnsUnique(turns[..k], messages[..n]);
        LastTurnOpened(turns);
      } else {
        var shorter := turns[..k] + [turn[..|turn| - 1]];
        ShorterTurns(turns);
        assert messages[..n] == Flatten(shorter);
        TurnsUnique(shorter, messages[..n]);
        LastTurnJoined(turns);
      }
    }
  }

  lemma LastTurnOpened(turns: seq<seq<Message>>)
    requires AreTurns(turns) && turns != [] && |turns[|turns| - 1]| == 1
    ensures turns == AddMessage(turns[..|turns| - 1], turns[|turns| - 1][0])
  {
    var k := |turns| - 1;
    assert IsTurn(turns[k], k == 0);
    assert turns[k] == [turns[k][0]];
    assert turns == turns[..k] + [turns[k]];
  }

  lemma LastTurnJoined(turns: seq<seq<Message>>)
    requires AreTurns(turns) && turns != [] && |turns[|turns| - 1]| > 1
    ensures var k := |turns| - 1;
            turns == AddMessage(turns[..k] + [turns[k][..|turns[k]| - 1]], turns[k][|turns[k]| - 1])
  {
    var k := |turns| - 1;
    var turn := turns[k];
    assert IsTurn(turn, k == 0);
    var shorter := turns[..k] + [turn[..|turn| - 1]];
    assert shorter[..k] == turns[..k] && turn[..|turn| - 1] + [turn[|turn| - 1]] == turn;
  }

  lemma ShorterTurns(turns: seq<seq<Message>>)
    requires AreTurns(turns) && turns != [] && |turns[|turns| - 1]| > 1
    ensures var k := |turns| - 1;
            var shorter := turns[..k] + [turns[k][..|turns[k]| - 1]];
            && AreTurns(shorter) && Flatten(shorter) == Flatten(turns[..k]) + turns[k][..|turns[k]| - 1]
  {
    var k := |turns| - 1;
    var shorter := turns[..k] + [turns[k][..|turns[k]| - 1]];
    FlattenAppend(turns[..k], turns[k][..|turns[k]| - 1]);
    assert IsTurn(turns[k], k == 0);
    forall i | 0 <= i < |shorter| ensures IsTurn(shorter[i], i == 0) {
      if i < k { assert shorter[i] == turns[i]; }
    }
  }
}
