/**
 Preparing a model context: the newest whole turns that fit, a memory of the turns left
 out, and every system message, brought within the input budget.
 */
module ContextPreparation {
  import opened Wrappers
  import opened Basics
  import opened ContextHarness

  datatype Settings = Settings(
    window: int, budget: int, maxOutput: int, safety: int, summary: int, recentTurns: int, perToken: real)

  /** The constructor's checks and derived limits. */
  function Configure(
    window: int, budget: int, maxOutput: int, safety: int, summary: int, recentTurns: int, perToken: real): (r: Result<Settings>)
    ensures r.Ok? <==> window > maxOutput + safety && budget > 0 && summary > 0 && recentTurns > 0 && perToken > 0.0
    ensures r.Ok? ==> Usable(r.value) && ConfiguredAs(r.value, window, budget, maxOutput, safety, summary, recentTurns, perToken)
  {
    if window <= maxOutput + safety || budget <= 0 || summary <= 0 || recentTurns <= 0 || perToken <= 0.0 then Err(ValueError)
    else
      var limit := Min(budget, window - maxOutput - safety);
      Ok(Settings(window, limit, maxOutput, safety, Min(summary, limit / 2), recentTurns, perToken))
  }

  /** The largest input budget within both limits, and the largest memory allowance within its own and half of that budget. */
  predicate ConfiguredAs(
    c: Settings, window: int, budget: int, maxOutput: int, safety: int, summary: int, recentTurns: int, perToken: real)
  {
    && c.window == window && c.maxOutput == maxOutput && c.safety == safety && c.recentTurns == recentTurns && c.perToken == perToken
    && c.budget <= budget && c.budget + maxOutput + safety <= window
    && (c.budget == budget || c.budget + maxOutput + safety == window)
    && c.summary <= summary && 2 * c.summary <= c.budget && (c.summary == summary || 2 * c.summary + 1 >= c.budget)
  }

  predicate Usable(c: Settings) {
    c.budget > 0 && 0 <= c.summary <= c.budget / 2 && c.recentTurns > 0 && c.perToken > 0.0
  }

  datatype Strategy = Full | Compacted

  datatype Report = Report(
    window: int, budget: int, maxOutput: int, safety: int,
    before: int, after: int, compacted: nat, truncated: nat, strategy: Strategy)

  datatype Prepared = Prepared(messages: seq<Message>, report: Report)

  /** The report on a context: the estimates before and after, and what was left out or cut. */
  predicate ReportsOn(
    c: Settings, report: Report, before: int, after: int, compacted: nat, truncated: nat, strategy: Strategy)
  {
    && report.window == c.window && report.budget == c.budget && report.maxOutput == c.maxOutput && report.safety == c.safety
    && report.before == before && report.after == after && report.compacted == compacted && report.truncated == truncated
    && report.strategy == strategy
  }

  method MakeReport(c: Settings, before: int, after: int, compacted: nat, truncated: nat, strategy: Strategy)
    returns (report: Report)
    ensures ReportsOn(c, report, before, after, compacted, truncated, strategy)
  {
    report := Report(c.window, c.budget, c.maxOutput, c.safety, before, after, compacted, truncated, strategy);
  }

  function Systems(messages: seq<Message>): (r: seq<Message>)
    ensures forall m | m in r :: m.kind.System?
  {
    if messages == [] then []
    else
      var last := messages[|messages| - 1];
      Systems(messages[..|messages| - 1]) + if last.kind.System? then [last] else []
  }

  function Conversation(messages: seq<Message>): (r: seq<Message>)
    ensures forall m | m in r :: !m.kind.System?
  {
    if messages == [] then []
    else
      var last := messages[|messages| - 1];
      Conversation(messages[..|messages| - 1]) + if last.kind.System? then [] else [last]
  }

  lemma SplitAppend(a: seq<Message>, m: Message)
    ensures Systems(a + [m]) == Systems(a) + (if m.kind.System? then [m] else [])
    ensures Conversation(a + [m]) == Conversation(a) + (if m.kind.System? then [] else [m])
  {
    assert (a + [m])[..|a|] == a;
  }

  lemma {:induction false} SystemsConcat(a: seq<Message>, b: seq<Message>)
    ensures Systems(a + b) == Systems(a) + Systems(b)
  {
    if b == [] {
      assert a + b == a;
    } else {
      var rest, m := b[..|b| - 1], b[|b| - 1];
      SystemsConcat(a, rest);
      SystemsOneMore(a, rest, a + rest, m, b, a + b);
    }
  }

  lemma SystemsOneMore(a: seq<Message>, rest: seq<Message>, both: seq<Message>, m: Message, b: seq<Message>, ab: seq<Message>)
    requires Systems(both) == Systems(a) + Systems(rest) && b == rest + [m] && ab == both + [m]
    ensures Systems(ab) == Systems(a) + Systems(b)
  {
    SplitAppend(both, m);
    SplitAppend(rest, m);
    Regroup(Systems(a), Systems(rest), if m.kind.System? then [m] else [], Systems(both), Systems(ab), Systems(b));
  }

  lemma {:induction false} ConversationConcat(a: seq<Message>, b: seq<Message>)
    ensures Conversation(a + b) == Conversation(a) + Conversation(b)
  {
    if b == [] {
      assert a + b == a;
    } else {
      var rest, m := b[..|b| - 1], b[|b| - 1];
      ConversationConcat(a, rest);
      ConversationOneMore(a, rest, a + rest, m, b, a + b);
    }
  }

  lemma ConversationOneMore(a: seq<Message>, rest: seq<Message>, both: seq<Message>, m: Message, b: seq<Message>, ab: seq<Message>)
    requires Conversation(both) == Conversation(a) + Conversation(rest) && b == rest + [m] && ab == both + [m]
    ensures Conversation(ab) == Conversation(a) + Conversation(b)
  {
    SplitAppend(both, m);
    SplitAppend(rest, m);
    Regroup(
      Conversation(a), Conversation(rest), if m.kind.System? then [] else [m], Conversation(both), Conversation(ab), Conversation(b));
  }

  /** Both parts keep the order of the source: they are those of its beginning followed by those of its rest. */
  lemma SplitConcat(a: seq<Message>, b: seq<Message>)
    ensures Systems(a + b) == Systems(a) + Systems(b) && Conversation(a + b) == Conversation(a) + Conversation(b)
  {
    SystemsConcat(a, b);
    ConversationConcat(a, b);
  }

  lemma Regroup(a: seq<Message>, b: seq<Message>, x: seq<Message>, ab: seq<Message>, abx: seq<Message>, bx: seq<Message>)
    requires ab == a + b && abx == ab + x && bx == b + x
    ensures abx == a + bx
  {
  }

  /** Together they are all messages. */
  lemma {:induction false} SplitExactly(messages: seq<Message>)
    ensures multiset(Systems(messages)) + multiset(Conversation(messages)) == multiset(messages)
  {
    if messages != [] {
      var rest, m := messages[..|messages| - 1], messages[|messages| - 1];
      assert messages == rest + [m];
      SplitExactly(rest);
      OneMoreSplit(rest, m, messages);
    }
  }

  lemma OneMoreSplit(rest: seq<Message>, m: Message, messages: seq<Message>)
    requires multiset(Systems(rest)) + multiset(Conversation(rest)) == multiset(rest) && messages == rest + [m]
    ensures multiset(Systems(messages)) + multiset(Conversation(messages)) == multiset(messages)
  {
    SplitAppend(rest, m);
    AllTogether(Systems(rest), Conversation(rest), rest, Systems(messages), Conversation(messages), m);
  }

  lemma AllTogether(a: seq<Message>, b: seq<Message>, all: seq<Message>, a': seq<Message>, b': seq<Message>, m: Message)
    requires multiset(a) + multiset(b) == multiset(all)
    requires (a' == a + [m] && b' == b) || (a' == a && b' == b + [m])
    ensures multiset(a') + multiset(b') == multiset(all + [m])
  {
  }

  // ----------------------------------------------------------------- selection

  /** What is held back for a memory while `used` tokens are taken, if older turns exist. */
  function SummaryReserve(c: Settings, used: int, older: bool): int {
    if older then Min(c.summary, Max(0, (c.budget - used) / 3)) else 0
  }

  predicate TurnFits(c: Settings, turn: seq<Message>, used: int, older: bool)
    requires c.perToken > 0.0
  {
    Count(turn, c.perToken) <= c.budget - used - SummaryReserve(c, used, older)
  }

  /**
   The first selected turn, scanning backwards: turns from `index` on are selected and take
   `used` tokens, and turns before `lowest` are never considered.
   */
  function Select(c: Settings, turns: seq<seq<Message>>, lowest: nat, index: nat, used: int): (k: nat)
    requires c.perToken > 0.0 && lowest <= index <= |turns|
    ensures lowest <= k <= index
    ensures index == |turns| && lowest < |turns| ==> k < |turns|
    decreases index
  {
    if index == lowest then index
    else if TurnFits(c, turns[index - 1], used, index - 1 > 0) then
      Select(c, turns, lowest, index - 1, used + Count(turns[index - 1], c.perToken))
    else if index == |turns| then index - 1
    else index
  }

  lemma SelectStep(
    c: Settings, turns: seq<seq<Message>>, lowest: nat, index: nat, used: int, k: nat, fits: bool, tokens: int)
    requires c.perToken > 0.0 && lowest < index <= |turns| && k == Select(c, turns, lowest, index, used)
    requires fits == TurnFits(c, turns[index - 1], used, index - 1 > 0) && tokens == Count(turns[index - 1], c.perToken)
    ensures k == if fits then Select(c, turns, lowest, index - 1, used + tokens) else if index == |turns| then index - 1 else index
  {
  }

  /** A third of what is left, within the allowance; nothing without older turns. */
  lemma ReserveExactly(c: Settings, used: int, older: bool)
    requires Usable(c)
    ensures var reserve, left := SummaryReserve(c, used, older), Max(0, c.budget - used);
            if older then 0 <= reserve <= c.summary && 3 * reserve <= left && (reserve == c.summary || left < 3 * reserve + 3)
            else reserve == 0
  {
  }

  /** The turn fits beside `used` tokens with the reserve held back for older ones. */
  ghost predicate FitsBeside(c: Settings, turn: seq<Message>, used: int, older: bool)
    requires c.perToken > 0.0
  {
    var left := c.budget - used;
    Count(turn, c.perToken) + (if older then Min(c.summary, Max(0, left / 3)) else 0) <= left
  }

  /** Every turn from `k` to `index` fits beside the later ones. */
  ghost predicate AllFit(c: Settings, turns: seq<seq<Message>>, k: nat, index: nat, used: int)
    requires c.perToken > 0.0 && k <= index <= |turns|
  {
    forall j {:trigger turns[j]} | k <= j < index ::
      FitsBeside(c, turns[j], used + TurnTokens(c, turns, j + 1, index), j > 0)
  }

  /** The scan ends at turn `k`: it is the oldest considered, or the one before it does not fit. */
  ghost predicate EndsBefore(c: Settings, turns: seq<seq<Message>>, lowest: nat, k: nat, used: int)
    requires c.perToken > 0.0 && k <= |turns|
  {
    k > lowest ==> !FitsBeside(c, turns[k - 1], used, k - 1 > 0)
  }

  lemma {:induction false} TokensBefore(c: Settings, turns: seq<seq<Message>>, k: nat, index: nat)
    requires c.perToken > 0.0 && k < index <= |turns|
    ensures TurnTokens(c, turns, k, index) == TurnTokens(c, turns, k, index - 1) + Count(turns[index - 1], c.perToken)
  {
  }

  lemma AllFitMore(c: Settings, turns: seq<seq<Message>>, k: nat, index: nat, used: int)
    requires c.perToken > 0.0 && k < index <= |turns| && FitsBeside(c, turns[index - 1], used, index - 1 > 0)
    requires AllFit(c, turns, k, index - 1, used + Count(turns[index - 1], c.perToken))
    ensures AllFit(c, turns, k, index, used)
  {
    forall j {:trigger turns[j]} | k <= j < index
      ensures FitsBeside(c, turns[j], used + TurnTokens(c, turns, j + 1, index), j > 0)
    {
      if j + 1 < index { TokensBefore(c, turns, j + 1, index); }
    }
  }

  /**
   The scan selects turns that each fit beside the later ones, and stops at the oldest it may
   consider or before the first that does not fit; a newest turn that does not fit is kept.
   */
  lemma {:induction false} SelectsExactly(c: Settings, turns: seq<seq<Message>>, lowest: nat, index: nat, used: int, k: nat)
    requires c.perToken > 0.0 && lowest <= index <= |turns| && k == Select(c, turns, lowest, index, used)
    ensures if lowest < index == |turns| && !FitsBeside(c, turns[index - 1], used, index - 1 > 0) then k == index - 1
            else AllFit(c, turns, k, index, used) && EndsBefore(c, turns, lowest, k, used + TurnTokens(c, turns, k, index))
    decreases index
  {
    SelectStepped(c, turns, lowest, index, used, k);
    if index > lowest && FitsBeside(c, turns[index - 1], used, index - 1 > 0) {
      SelectsExactly(c, turns, lowest, index - 1, used + Count(turns[index - 1], c.perToken), k);
      SelectsMore(c, turns, lowest, index, used, k);
    }
  }

  lemma SelectsMore(c: Settings, turns: seq<seq<Message>>, lowest: nat, index: nat, used: int, k: nat)
    requires c.perToken > 0.0 && lowest <= k < index <= |turns| && FitsBeside(c, turns[index - 1], used, index - 1 > 0)
    requires var used' := used + Count(turns[index - 1], c.perToken);
             && AllFit(c, turns, k, index - 1, used')
             && EndsBefore(c, turns, lowest, k, used' + TurnTokens(c, turns, k, index - 1))
    ensures AllFit(c, turns, k, index, used) && EndsBefore(c, turns, lowest, k, used + TurnTokens(c, turns, k, index))
  {
    AllFitMore(c, turns, k, index, used);
    TokensBefore(c, turns, k, index);
  }

  lemma SelectStepped(c: Settings, turns: seq<seq<Message>>, lowest: nat, index: nat, used: int, k: nat)
    requires c.perToken > 0.0 && lowest <= index <= |turns| && k == Select(c, turns, lowest, index, used)
    ensures if index > lowest && FitsBeside(c, turns[index - 1], used, index - 1 > 0)
            then k == Select(c, turns, lowest, index - 1, used + Count(turns[index - 1], c.perToken)) && k < index
            else k == (if lowest < index == |turns| then index - 1 else index)
  {
  }

  function Lowest(c: Settings, turns: seq<seq<Message>>): (r: nat)
    ensures r <= |turns|
  {
    Max(0, |turns| - Max(0, c.recentTurns))
  }

  /** The number of turns left out. */
  function Omitted(c: Settings, source: seq<Message>): (k: nat)
    requires c.perToken > 0.0
    ensures k <= |Turns(Conversation(source))|
  {
    var turns := Turns(Conversation(source));
    Select(c, turns, Lowest(c, turns), |turns|, Count(Systems(source), c.perToken))
  }

  function Kept(c: Settings, source: seq<Message>): seq<Message>
    requires c.perToken > 0.0
  {
    Flatten(Turns(Conversation(source))[Omitted(c, source)..])
  }

  /** The conversation messages left out. */
  function Dropped(c: Settings, source: seq<Message>): seq<Message>
    requires c.perToken > 0.0
  {
    Flatten(Turns(Conversation(source))[..Omitted(c, source)])
  }

  /** The newest turn fits beside the system messages with the memory reserve held back. */
  predicate NewestFits(c: Settings, source: seq<Message>)
    requires c.perToken > 0.0
  {
    var turns := Turns(Conversation(source));
    turns == [] || TurnFits(c, turns[|turns| - 1], Count(Systems(source), c.perToken), |turns| > 1)
  }

  /** The tokens of turns `k` to `index`. */
  function TurnTokens(c: Settings, turns: seq<seq<Message>>, k: nat, index: nat): int
    requires c.perToken > 0.0 && k <= index <= |turns|
    decreases index
  {
    if k == index then 0 else TurnTokens(c, turns, k, index - 1) + Count(turns[index - 1], c.perToken)
  }

  lemma {:induction false} TurnTokensFlat(c: Settings, turns: seq<seq<Message>>, k: nat, index: nat)
    requires c.perToken > 0.0 && k <= index <= |turns|
    ensures TurnTokens(c, turns, k, index) == Count(Flatten(turns[k..index]), c.perToken)
  {
    if k == index {
      assert turns[k..index] == [];
    } else {
      var turn, rest := turns[index - 1], turns[k..index - 1];
      TurnTokensFlat(c, turns, k, index - 1);
      assert turns[k..index] == rest + [turn];
      FlattenAppend(rest, turn);
      CountConcat(Flatten(rest), turn, c.perToken);
    }
  }

  /** Turns taken by the scan fit beside what was used before them. */
  lemma {:induction false} SelectionFits(c: Settings, turns: seq<seq<Message>>, lowest: nat, index: nat, used: int)
    requires Usable(c) && lowest <= index <= |turns|
    requires index == |turns| && lowest < index ==> TurnFits(c, turns[index - 1], used, index - 1 > 0)
    requires index == lowest || index < |turns| ==> used <= c.budget
    ensures used + TurnTokens(c, turns, Select(c, turns, lowest, index, used), index) <= c.budget
    decreases index
  {
    if index > lowest && TurnFits(c, turns[index - 1], used, index - 1 > 0) {
      SelectionFits(c, turns, lowest, index - 1, used + Count(turns[index - 1], c.perToken));
    }
  }

  /** The scan stopped at turn `k` because the turn before it did not fit beside `used` tokens. */
  predicate StoppedAt(c: Settings, turns: seq<seq<Message>>, k: int, used: int)
    requires c.perToken > 0.0
  {
    0 < k <= |turns| && !TurnFits(c, turns[k - 1], used, k - 1 > 0)
  }

  lemma {:induction false} SelectionStops(
    c: Settings, turns: seq<seq<Message>>, lowest: nat, index: nat, used: int, k: nat, total: int)
    requires Usable(c) && lowest <= index <= |turns|
    requires index == |turns| && lowest < index ==> TurnFits(c, turns[index - 1], used, index - 1 > 0)
    requires k == Select(c, turns, lowest, index, used) && total == used + TurnTokens(c, turns, k, index)
    ensures k > lowest ==> StoppedAt(c, turns, k, total)
    decreases index
  {
    if index > lowest && TurnFits(c, turns[index - 1], used, index - 1 > 0) {
      SelectionStops(c, turns, lowest, index - 1, used + Count(turns[index - 1], c.perToken), k, total);
    }
  }

  /**
   What is kept and dropped is together the whole conversation, split between two turns; the
   newest turn is kept, and at most `recentTurns` are.
   */
  lemma KeptSuffix(c: Settings, source: seq<Message>)
    requires Usable(c)
    ensures Dropped(c, source) + Kept(c, source) == Conversation(source)
    ensures var turns := Turns(Conversation(source));
            |turns| - Omitted(c, source) <= c.recentTurns && (turns != [] ==> Omitted(c, source) < |turns|)
  {
    SplitTurns(Conversation(source), Turns(Conversation(source)), Omitted(c, source));
  }

  lemma SplitTurns(messages: seq<Message>, turns: seq<seq<Message>>, k: nat)
    requires turns == Turns(messages) && k <= |turns|
    ensures Flatten(turns[..k]) + Flatten(turns[k..]) == messages
  {
    var front, back := turns[..k], turns[k..];
    TurnsPartition(messages);
    FlattenConcat(front, back);
    assert front + back == turns;
  }

  /**
   When the newest turn fits, the kept turns fit beside the system messages, and the turn
   before them is dropped only because it is too old or would not fit as well.
   */
  lemma KeptFits(c: Settings, source: seq<Message>)
    requires Usable(c) && NewestFits(c, source) && Conversation(source) != []
    ensures var turns := Turns(Conversation(source));
            var k := Omitted(c, source);
            var used := Count(Systems(source) + Kept(c, source), c.perToken);
            used <= c.budget && (0 < k && |turns| - k < c.recentTurns ==> StoppedAt(c, turns, k, used))
  {
    var turns := Turns(Conversation(source));
    CountConcat(Systems(source), Kept(c, source), c.perToken);
    SelectedTurns(c, turns, Lowest(c, turns), Count(Systems(source), c.perToken), Omitted(c, source));
  }

  lemma SelectedTurns(c: Settings, turns: seq<seq<Message>>, lowest: nat, used: int, k: nat)
    requires Usable(c) && lowest < |turns| && TurnFits(c, turns[|turns| - 1], used, |turns| - 1 > 0)
    requires k == Select(c, turns, lowest, |turns|, used)
    ensures used + Count(Flatten(turns[k..]), c.perToken) <= c.budget
    ensures k > lowest ==> StoppedAt(c, turns, k, used + Count(Flatten(turns[k..]), c.perToken))
  {
    assert turns[k..|turns|] == turns[k..];
    TurnTokensFlat(c, turns, k, |turns|);
    SelectionFits(c, turns, lowest, |turns|, used);
    SelectionStops(c, turns, lowest, |turns|, used, k, used + TurnTokens(c, turns, k, |turns|));
  }

  // -------------------------------------------------------------------- memory

  const MEMORY_HEADER := "[Context Harness memory: older conversation compacted]"

  const SYSTEM_ROLE: nat := 6

  function Strip(s: string): string {
    TrimLeft(TrimRight(s))
  }

  /** The memory line of a message: what the user said, or what the assistant answered, unless blank. */
  function Line(m: Message, excerpt: string -> string): seq<string> {
    var text := Strip(m.text);
    if text == "" then []
    else if m.kind.Human? then ["- User: " + excerpt(text)]
    else if m.kind.Assistant? && m.calls == [] then ["- Assistant: " + excerpt(text)]
    else []
  }

  /** What `strip` leaves: the text from `i` to `j`, with nothing but white space around it. */
  predicate StripsTo(text: string, i: int, j: int) {
    && 0 <= i <= j <= |text| && (forall k | 0 <= k < i :: Space(text[k])) && (forall k | j <= k < |text| :: Space(text[k]))
    && (i < j ==> !Space(text[i]) && !Space(text[j - 1]))
  }

  ghost predicate IsStripped(text: string, stripped: string) {
    exists i, j {:trigger StripsTo(text, i, j)} :: StripsTo(text, i, j) && stripped == text[i..j]
  }

  lemma StripExactly(text: string)
    ensures IsStripped(text, Strip(text))
  {
    var front := TrimRight(text);
    TrimRightEnds(text);
    TrimLeftStarts(front);
    assert front == text[..|front|] && Strip(text) == TrimLeft(front);
    StripsBoth(text, front, Strip(text));
  }

  lemma StripsBoth(text: string, front: string, stripped: string)
    requires EndsAt(text, |text|, |front|) && front == text[..|front|]
    requires StartsAt(front, |front|, |stripped|) && stripped == front[|front| - |stripped|..]
    ensures IsStripped(text, stripped)
  {
    var i, j := |front| - |stripped|, |front|;
    forall k | 0 <= k < i ensures Space(text[k]) {
      assert front[k] == text[k];
    }
    assert StripsTo(text, i, j) && stripped == text[i..j];
  }

  /** What a line starts with. */
  function Speaker(kind: Kind): string {
    if kind.Human? then "- User: " else "- Assistant: "
  }

  predicate Blank(text: string) {
    forall k | 0 <= k < |text| :: Space(text[k])
  }

  lemma StripsBlanks(text: string)
    ensures Strip(text) == "" <==> Blank(text)
  {
    StripExactly(text);
    BlankExactly(text, Strip(text));
  }

  lemma BlankExactly(text: string, stripped: string)
    requires IsStripped(text, stripped)
    ensures |stripped| == 0 <==> Blank(text)
  {
    var i, j :| StripsTo(text, i, j) && stripped == text[i..j];
    assert i < j ==> !Space(text[i]);
  }

  /** Only a non-blank text of the user, or of the assistant without calls, gives a line: its speaker and its excerpt. */
  lemma LineExactly(m: Message, excerpt: string -> string)
    ensures IsStripped(m.text, Strip(m.text))
    ensures Line(m, excerpt) ==
            if !Blank(m.text) && (m.kind.Human? || (m.kind.Assistant? && m.calls == []))
            then [Speaker(m.kind) + excerpt(Strip(m.text))] else []
  {
    StripExactly(m.text);
    StripsBlanks(m.text);
  }

  function Gather(messages: seq<Message>, line: Message -> seq<string>): seq<string> {
    if messages == [] then []
    else Gather(messages[..|messages| - 1], line) + line(messages[|messages| - 1])
  }

  function Liner(excerpt: string -> string): Message -> seq<string> {
    m => Line(m, excerpt)
  }

  function MemoryLines(messages: seq<Message>, excerpt: string -> string): seq<string> {
    Gather(messages, Liner(excerpt))
  }

  function Join(lines: seq<string>): string {
    if lines == [] then ""
    else if |lines| == 1 then lines[0]
    else Join(lines[..|lines| - 1]) + "\n" + lines[|lines| - 1]
  }

  function MemoryMessage(lines: seq<string>): Message {
    Message(System, Join([MEMORY_HEADER] + lines), SYSTEM_ROLE, [], [])
  }

  function Memory(turns: seq<seq<Message>>, excerpt: string -> string): Option<Message> {
    var lines := MemoryLines(Flatten(turns), excerpt);
    if lines == [] then None else Some(MemoryMessage(lines))
  }

  /** Each line on a line of its own. */
  function Broken(lines: seq<string>): string {
    if lines == [] then "" else Broken(lines[..|lines| - 1]) + ("\n" + lines[|lines| - 1])
  }

  /** A memory is its header, then each line after a line break. */
  lemma {:induction false} JoinExactly(header: string, lines: seq<string>)
    ensures Join([header] + lines) == header + Broken(lines)
  {
    var all := [header] + lines;
    if lines != [] {
      assert all[..|all| - 1] == [header] + lines[..|lines| - 1];
      JoinExactly(header, lines[..|lines| - 1]);
    }
  }

  lemma GatherAppend(messages: seq<Message>, m: Message, line: Message -> seq<string>)
    ensures Gather(messages + [m], line) == Gather(messages, line) + line(m)
  {
    assert (messages + [m])[..|messages|] == messages;
  }

  method CollectTurn(lines0: seq<string>, turn: seq<Message>, line: Message -> seq<string>, ghost before: seq<Message>)
    returns (lines: seq<string>)
    requires lines0 == Gather(before, line)
    ensures lines == Gather(before + turn, line)
  {
    lines := lines0;
    assert before + turn[..0] == before;
    for i := 0 to |turn|
      invariant lines == Gather(before + turn[..i], line)
    {
      GatherAppend(before + turn[..i], turn[i], line);
      assert before + turn[..i + 1] == before + turn[..i] + [turn[i]];
      lines := lines + line(turn[i]);
    }
    assert before + turn[..|turn|] == before + turn;
  }

  method CollectLines(turns: seq<seq<Message>>, line: Message -> seq<string>) returns (lines: seq<string>)
    ensures lines == Gather(Flatten(turns), line)
  {
    lines := [];
    for k := 0 to |turns|
      invariant lines == Gather(Flatten(turns[..k]), line)
    {
      assert turns[..k + 1] == turns[..k] + [turns[k]];
      FlattenAppend(turns[..k], turns[k]);
      lines := CollectTurn(lines, turns[k], line, Flatten(turns[..k]));
    }
    assert turns[..|turns|] == turns;
  }

  /** The memory as it may appear in the result: its text may be cut, its size never exceeds the budget. */
  ghost predicate FittedMemory(memory: Message, budget: int, perToken: real, fitted: Message)
    requires perToken > 0.0
  {
    && FitsTo([memory], budget, perToken, [fitted])
    && (fitted == memory || Cut(memory, fitted)) && Count([fitted], perToken) <= budget
  }

  /** What is left open about a failing fit: the messages exceed the budget, even with every text capped. */
  predicate FitMayRaise(messages: seq<Message>, budget: int, perToken: real)
    requires perToken > 0.0
  {
    Count(messages, perToken) > budget && (perToken >= 0.5 ==> CappedCount(messages, Floored(perToken), perToken) > budget)
  }

  /** The memory of the turns, fitted into its budget; the fit may raise. */
  method BuildMemory(turns: seq<seq<Message>>, budget: int, perToken: real, excerpt: string -> string)
    returns (r: Result<Option<Message>>)
    requires perToken > 0.0
    ensures r.Err? ==> r.error.ContextBudgetError? && Memory(turns, excerpt).Some?
                       && FitMayRaise([Memory(turns, excerpt).value], budget, perToken)
    ensures Memory(turns, excerpt).Some? && BareCount([Memory(turns, excerpt).value], perToken) > budget ==> r.Err?
    ensures r.Ok? && Memory(turns, excerpt).None? ==> r.value.None?
    ensures r.Ok? && Memory(turns, excerpt).Some? ==>
              r.value.Some? && FittedMemory(Memory(turns, excerpt).value, budget, perToken, r.value.value)
  {
    var lines := CollectLines(turns, Liner(excerpt));
    if lines == [] {
      return Ok(None);
    }
    r := FitMemory(MemoryMessage(lines), budget, perToken);
  }

  method FitMemory(memory: Message, budget: int, perToken: real) returns (r: Result<Option<Message>>)
    requires perToken > 0.0
    ensures r.Err? ==> r.error.ContextBudgetError? && FitMayRaise([memory], budget, perToken)
    ensures BareCount([memory], perToken) > budget ==> r.Err?
    ensures r.Ok? ==> r.value.Some? && FittedMemory(memory, budget, perToken, r.value.value)
  {
    var fit := FitMessages([memory], budget, perToken);
    if fit.Err? {
      return Err(fit.error);
    }
    var messages := fit.value.messages;
    assert |messages| == 1 && messages == [messages[0]];
    assert messages[0] == memory || Cut(memory, messages[0]);
    return Ok(Some(messages[0]));
  }

  // --------------------------------------------------------------- preparation

  function Remaining(c: Settings, systems: seq<Message>, kept: seq<Message>): int
    requires c.perToken > 0.0
  {
    Max(0, c.budget - Count(systems + kept, c.perToken))
  }

  /** The memory message that belongs into the result, before it is fitted. */
  function MemoryDue(omitted: seq<seq<Message>>, remaining: int, excerpt: string -> string): Option<Message> {
    if omitted != [] && remaining > 12 then Memory(omitted, excerpt) else None
  }

  /** The memory part of a prepared context: nothing, or the fitted memory message. */
  ghost predicate MemoryPart(
    c: Settings, omitted: seq<seq<Message>>, remaining: int, excerpt: string -> string, part: seq<Message>)
    requires c.perToken > 0.0
  {
    match MemoryDue(omitted, remaining, excerpt)
    case None => part == []
    case Some(m) => |part| == 1 && FittedMemory(m, Min(c.summary, remaining), c.perToken, part[0])
  }

  /** `p` holds `messages` with some texts cut, within the budget; nothing is cut if they already fit. */
  ghost predicate FittedContext(c: Settings, messages: seq<Message>, before: int, dropped: nat, p: Prepared)
    requires c.perToken > 0.0
  {
    && FitsTo(messages, c.budget, c.perToken, p.messages) && Count(p.messages, c.perToken) <= c.budget
    && (Count(messages, c.perToken) <= c.budget ==> p.messages == messages)
    && (exists changed: set<nat> {:trigger CutAt(messages, p.messages, changed)} ::
          CutAt(messages, p.messages, changed)
          && ReportsOn(c, p.report, before, Count(p.messages, c.perToken), dropped, |changed|, Compacted))
  }

  /** A context made of the system messages, a memory of the first `k` turns, and the other turns. */
  ghost predicate PackedContext(
    c: Settings, systems: seq<Message>, turns: seq<seq<Message>>, k: nat, before: int, excerpt: string -> string,
    part: seq<Message>, p: Prepared)
    requires c.perToken > 0.0 && k <= |turns|
  {
    var kept := Flatten(turns[k..]);
    && MemoryPart(c, turns[..k], Remaining(c, systems, kept), excerpt, part)
    && FittedContext(c, systems + part + kept, before, |Flatten(turns[..k])|, p)
  }

  /**
   A compacted context: every system message, the memory part, and the newest whole turns
   in order, some texts cut, within the budget, with the report saying what was left out.
   */
  ghost predicate CompactedContext(c: Settings, source: seq<Message>, excerpt: string -> string, part: seq<Message>, p: Prepared)
    requires c.perToken > 0.0
  {
    PackedContext(c, Systems(source), Turns(Conversation(source)), Omitted(c, source), Count(source, c.perToken), excerpt, part, p)
  }

  /** With a memory due only fitting it may raise; without one, only fitting the kept messages. */
  ghost predicate PackingMayRaise(
    c: Settings, systems: seq<Message>, turns: seq<seq<Message>>, k: nat, excerpt: string -> string)
    requires c.perToken > 0.0 && k <= |turns|
  {
    var kept := Flatten(turns[k..]);
    var remaining := Remaining(c, systems, kept);
    match MemoryDue(turns[..k], remaining, excerpt)
    case Some(m) => FitMayRaise([m], Min(c.summary, remaining), c.perToken)
    case None => FitMayRaise(systems + kept, c.budget, c.perToken)
  }

  /** Bare markers already exceed the allowance of the memory, or the budget of the kept messages. */
  ghost predicate PackingMustRaise(
    c: Settings, systems: seq<Message>, turns: seq<seq<Message>>, k: nat, excerpt: string -> string)
    requires c.perToken > 0.0 && k <= |turns|
  {
    var kept := Flatten(turns[k..]);
    var remaining := Remaining(c, systems, kept);
    match MemoryDue(turns[..k], remaining, excerpt)
    case Some(m) => BareCount([m], c.perToken) > Min(c.summary, remaining)
    case None => BareCount(systems + kept, c.perToken) > c.budget
  }

  ghost predicate MustRaise(c: Settings, source: seq<Message>, excerpt: string -> string)
    requires c.perToken > 0.0
  {
    PackingMustRaise(c, Systems(source), Turns(Conversation(source)), Omitted(c, source), excerpt)
  }

  ghost predicate MayRaise(c: Settings, source: seq<Message>, excerpt: string -> string)
    requires c.perToken > 0.0
  {
    PackingMayRaise(c, Systems(source), Turns(Conversation(source)), Omitted(c, source), excerpt)
  }

  /** A part that fits into what remains never pushes the context over the budget. */
  lemma PartFits(systems: seq<Message>, part: seq<Message>, kept: seq<Message>, budget: int, perToken: real)
    requires perToken > 0.0
    ensures Count(part, perToken) <= budget - Count(systems + kept, perToken) ==> Count(systems + part + kept, perToken) <= budget
  {
    CountConcat(systems, kept, perToken);
    CountConcat(systems + part, kept, perToken);
    CountConcat(systems, part, perToken);
  }

  lemma MemoryPartSize(c: Settings, omitted: seq<seq<Message>>, remaining: int, excerpt: string -> string, part: seq<Message>)
    requires c.perToken > 0.0 && remaining >= 0
    ensures MemoryPart(c, omitted, remaining, excerpt, part) ==> Count(part, c.perToken) <= remaining
  {
    if MemoryPart(c, omitted, remaining, excerpt, part) && part != [] {
      assert part == [part[0]];
    }
  }

  /** With a memory the context fits; without one it is the system messages and the kept ones. */
  lemma MemoryLeavesRoom(
    c: Settings, systems: seq<Message>, kept: seq<Message>, omitted: seq<seq<Message>>, excerpt: string -> string, part: seq<Message>)
    requires c.perToken > 0.0 && MemoryPart(c, omitted, Remaining(c, systems, kept), excerpt, part)
    ensures if MemoryDue(omitted, Remaining(c, systems, kept), excerpt).Some?
            then Count(systems + part + kept, c.perToken) <= c.budget
            else systems + part + kept == systems + kept
  {
    MemoryPartSize(c, omitted, Remaining(c, systems, kept), excerpt, part);
    PartFits(systems, part, kept, c.budget, c.perToken);
  }

  /** When the newest turn fits, whatever is kept is kept word for word. */
  lemma KeptVerbatim(c: Settings, source: seq<Message>, excerpt: string -> string, part: seq<Message>, p: Prepared)
    requires Usable(c)
    ensures CompactedContext(c, source, excerpt, part, p) && NewestFits(c, source) && Conversation(source) != [] ==>
              p.messages == Systems(source) + part + Kept(c, source)
  {
    if CompactedContext(c, source, excerpt, part, p) && NewestFits(c, source) && Conversation(source) != [] {
      var systems, turns, k := Systems(source), Turns(Conversation(source)), Omitted(c, source);
      var kept := Flatten(turns[k..]);
      KeptFits(c, source);
      MemoryPartSize(c, turns[..k], Remaining(c, systems, kept), excerpt, part);
      PartFits(systems, part, kept, c.budget, c.perToken);
    }
  }

  // ----------------------------------------------------- a memory that does not fit

  lemma CountOne(m: Message, cap: nat, perToken: real)
    requires perToken > 0.0
    ensures Count([m], perToken) == Cost(|m.text|, m.extra, perToken)
    ensures CappedCount([m], cap, perToken) == Cost(Min(|m.text|, cap), m.extra, perToken)
    ensures BareCount([m], perToken) == Cost(if |m.text| > MARKER_LENGTH + 12 then MARKER_LENGTH else |m.text|, m.extra, perToken)
  {
    assert [m][..0] == [];
  }

  lemma {:induction false} JoinLongerThanFirst(lines: seq<string>)
    requires lines != []
    ensures |Join(lines)| >= |lines[0]|
  {
    if |lines| > 1 { JoinLongerThanFirst(lines[..|lines| - 1]); }
  }

  /** At two characters per token any memory costs 26 tokens with a bare marker, and 33 with a capped text. */
  lemma MemoryAtTwo(turns: seq<seq<Message>>, excerpt: string -> string)
    requires Memory(turns, excerpt).Some?
    ensures var m := Memory(turns, excerpt).value;
            BareCount([m], 2.0) == 26 && Floored(2.0) == 53 && CappedCount([m], 53, 2.0) == 33
  {
    var lines := MemoryLines(Flatten(turns), excerpt);
    var m := MemoryMessage(lines);
    JoinLongerThanFirst([MEMORY_HEADER] + lines);
    assert |MEMORY_HEADER| == 54;
    CountOne(m, 53, 2.0);
    assert Floor(24.0 * 2.0) == 48;
    assert Cost(40, 6, 2.0) == 26 && Cost(53, 6, 2.0) == 33;
  }

  /** At two characters per token a due memory raises with at most 25 tokens of allowance, and never with 33. */
  lemma DueMemoryRaises(c: Settings, source: seq<Message>, excerpt: string -> string)
    requires Usable(c) && c.perToken == 2.0
    ensures var remaining := Remaining(c, Systems(source), Kept(c, source));
            MemoryDue(Turns(Conversation(source))[..Omitted(c, source)], remaining, excerpt).Some? ==>
              && (Min(c.summary, remaining) <= 25 ==> MustRaise(c, source, excerpt))
              && (Min(c.summary, remaining) >= 33 ==> !MayRaise(c, source, excerpt))
  {
    var omitted := Turns(Conversation(source))[..Omitted(c, source)];
    if Memory(omitted, excerpt).Some? { MemoryAtTwo(omitted, excerpt); }
  }

  function As(n: nat): (text: string)
    ensures |text| == n && Strip(text) == text
  {
    seq(n, _ => 'a')
  }

  function Asking(n: nat): Message {
    Message(Human, As(n), 4, [], [])
  }

  lemma CostAtTwo(n: nat)
    ensures Count([Asking(2 * n)], 2.0) == n + 5
  {
    CountOne(Asking(2 * n), 0, 2.0);
    assert (2 * n + 4) as real / 2.0 == (n + 2) as real;
  }

  /** Of two turns only the newer one is kept when the older one does not fit beside it. */
  lemma NewestIsKept(c: Settings, older: Message, newer: Message)
    requires Usable(c) && older.kind.Human? && newer.kind.Human?
    requires Count([older], c.perToken) > c.budget - Count([newer], c.perToken)
    ensures var source := [older, newer];
            && Systems(source) == [] && Omitted(c, source) == 1
            && Turns(Conversation(source))[..1] == [[older]] && Kept(c, source) == [newer]
  {
    var turns := [[older], [newer]];
    TwoQuestions(older, newer);
    assert Count([], c.perToken) == 0;
    OneIsOmitted(c, turns);
    assert turns[1..] == [[newer]] && turns[..1] == [[older]];
    FlattenOne([newer]);
  }

  lemma OneIsOmitted(c: Settings, turns: seq<seq<Message>>)
    requires Usable(c) && |turns| == 2 && Count(turns[0], c.perToken) > c.budget - Count(turns[1], c.perToken)
    ensures Select(c, turns, Lowest(c, turns), 2, 0) == 1
  {
  }

  lemma OlderIsDue(older: Message, remaining: int, excerpt: string -> string)
    requires older.kind.Human? && Strip(older.text) != "" && remaining > 12
    ensures MemoryDue([[older]], remaining, excerpt).Some?
  {
    FlattenOne([older]);
    LineOf(older, excerpt);
  }

  /**
   Under any settings with two characters per token: when the newer of two questions leaves
   13 to 25 tokens, and the older one is larger, preparing them raises though the newer fits.
   */
  lemma RaisesThoughKeptFits(c: Settings, n: nat, m: nat, excerpt: string -> string)
    requires Usable(c) && c.perToken == 2.0 && 13 <= c.budget - (m + 5) <= 25 && n > 20
    ensures var source := [Asking(2 * n), Asking(2 * m)];
            && Count(source, c.perToken) > c.budget
            && Count(Systems(source) + Kept(c, source), c.perToken) <= c.budget && MustRaise(c, source, excerpt)
  {
    var older, newer := Asking(2 * n), Asking(2 * m);
    CostAtTwo(n);
    CostAtTwo(m);
    LittleRoomRaises(c, older, newer, excerpt);
  }

  lemma LittleRoomRaises(c: Settings, older: Message, newer: Message, excerpt: string -> string)
    requires Usable(c) && c.perToken == 2.0 && older.kind.Human? && newer.kind.Human? && Strip(older.text) != ""
    requires 13 <= c.budget - Count([newer], 2.0) <= 25 < Count([older], 2.0)
    ensures var source := [older, newer];
            && Count(source, c.perToken) > c.budget
            && Count(Systems(source) + Kept(c, source), c.perToken) <= c.budget && MustRaise(c, source, excerpt)
  {
    NewestFitsAlone(c, older, newer);
    OlderIsDue(older, c.budget - Count([newer], 2.0), excerpt);
    DueMemoryRaises(c, [older, newer], excerpt);
  }

  lemma NewestFitsAlone(c: Settings, older: Message, newer: Message)
    requires Usable(c) && c.perToken == 2.0 && older.kind.Human? && newer.kind.Human?
    requires 13 <= c.budget - Count([newer], 2.0) <= 25 < Count([older], 2.0)
    ensures var source := [older, newer];
            && Count(source, c.perToken) > c.budget
            && Count(Systems(source) + Kept(c, source), c.perToken) == Count([newer], 2.0)
            && Turns(Conversation(source))[..Omitted(c, source)] == [[older]]
            && Remaining(c, Systems(source), Kept(c, source)) == c.budget - Count([newer], 2.0)
  {
    CountConcat([older], [newer], 2.0);
    assert [older, newer] == [older] + [newer] && [] + [newer] == [newer];
    NewestIsKept(c, older, newer);
  }

  lemma TwoQuestions(a: Message, b: Message)
    requires a.kind.Human? && b.kind.Human?
    ensures Systems([a, b]) == [] && Conversation([a, b]) == [a, b] && Turns([a, b]) == [[a], [b]]
  {
    assert [a, b][..1] == [a] && [a][..0] == [];
    assert Conversation([a]) == [a] && Systems([a]) == [] && Turns([a]) == [[a]];
  }

  lemma FlattenOne(turn: seq<Message>)
    ensures Flatten([turn]) == turn
  {
    assert [turn][..0] == [];
  }

  lemma LineOf(m: Message, excerpt: string -> string)
    requires m.kind.Human? && Strip(m.text) != ""
    ensures MemoryLines([m], excerpt) != []
  {
    assert [m][..0] == [];
  }

  // --------------------------------------------------------------- tool-call pairs

  function CallsOf(m: Message): multiset<nat> {
    if m.kind.Assistant? then multiset(m.calls) else multiset{}
  }

  function RepliesOf(m: Message): multiset<nat> {
    if m.kind.Tool? then multiset(m.replies) else multiset{}
  }

  function Ids(messages: seq<Message>, of: Message -> multiset<nat>): multiset<nat> {
    if messages == [] then multiset{}
    else Ids(messages[..|messages| - 1], of) + of(messages[|messages| - 1])
  }

  function Calls(messages: seq<Message>): multiset<nat> { Ids(messages, CallsOf) }

  function Replies(messages: seq<Message>): multiset<nat> { Ids(messages, RepliesOf) }

  /** Every tool call is answered, and every answer has its call. */
  predicate Closed(messages: seq<Message>) {
    Calls(messages) == Replies(messages)
  }

  lemma {:induction false} IdsConcat(a: seq<Message>, b: seq<Message>, of: Message -> multiset<nat>)
    ensures Ids(a + b, of) == Ids(a, of) + Ids(b, of)
  {
    if b == [] {
      assert a + b == a;
    } else {
      var n := |b| - 1;
      IdsConcat(a, b[..n], of);
      assert (a + b)[..|a + b| - 1] == a + b[..n];
    }
  }

  lemma PairsConcat(a: seq<Message>, b: seq<Message>)
    ensures Calls(a + b) == Calls(a) + Calls(b) && Replies(a + b) == Replies(a) + Replies(b)
  {
    IdsConcat(a, b, CallsOf);
    IdsConcat(a, b, RepliesOf);
  }

  lemma {:induction false} NoPairsInSystems(messages: seq<Message>)
    requires forall m | m in messages :: m.kind.System?
    ensures Calls(messages) == multiset{} && Replies(messages) == multiset{}
  {
    if messages != [] {
      assert messages[|messages| - 1] in messages;
      NoPairsInSystems(messages[..|messages| - 1]);
    }
  }

  lemma {:induction false} ClosedTurns(turns: seq<seq<Message>>)
    requires forall k | 0 <= k < |turns| :: Closed(turns[k])
    ensures Closed(Flatten(turns))
  {
    if turns != [] {
      var n := |turns| - 1;
      ClosedTurns(turns[..n]);
      PairsConcat(Flatten(turns[..n]), turns[n]);
    }
  }

  lemma {:induction false} CutKeepsIds(a: seq<Message>, b: seq<Message>, of: Message -> multiset<nat>)
    requires |a| == |b| && forall i | 0 <= i < |a| :: of(a[i]) == of(b[i])
    ensures Ids(b, of) == Ids(a, of)
  {
    if a != [] {
      var n := |a| - 1;
      CutKeepsIds(a[..n], b[..n], of);
    }
  }

  lemma CutKeepsPairs(a: seq<Message>, b: seq<Message>, changed: set<nat>)
    requires CutAt(a, b, changed)
    ensures Calls(b) == Calls(a) && Replies(b) == Replies(a)
  {
    forall i | 0 <= i < |a| ensures b[i] == WithText(a[i], b[i].text) {
    }
    CutKeepsIds(a, b, CallsOf);
    CutKeepsIds(a, b, RepliesOf);
  }

  /**
   If calls and replies share turns in the source, a compacted context answers exactly the
   tool calls it contains: none is separated from its reply.
   */
  lemma PairsSurvive(c: Settings, source: seq<Message>, excerpt: string -> string, part: seq<Message>, p: Prepared)
    requires Usable(c) && CompactedContext(c, source, excerpt, part, p)
    requires forall k | 0 <= k < |Turns(Conversation(source))| :: Closed(Turns(Conversation(source))[k])
    ensures Closed(p.messages) && Calls(p.messages) == Calls(Kept(c, source))
  {
    var systems, turns, k := Systems(source), Turns(Conversation(source)), Omitted(c, source);
    OnlySystemsBefore(c, turns[..k], Remaining(c, systems, Flatten(turns[k..])), excerpt, part);
    PairsSurviveFitting(systems, part, turns[k..], p.messages, c, Count(source, c.perToken), |Flatten(turns[..k])|, p);
  }

  lemma OnlySystemsBefore(c: Settings, omitted: seq<seq<Message>>, remaining: int, excerpt: string -> string, part: seq<Message>)
    requires c.perToken > 0.0 && MemoryPart(c, omitted, remaining, excerpt, part)
    ensures forall m | m in part :: m.kind.System?
  {
    var due := MemoryDue(omitted, remaining, excerpt);
    DueIsSystem(omitted, remaining, excerpt, due);
    if due.Some? { FittedKeepsKind(due.value, Min(c.summary, remaining), c.perToken, part[0]); }
  }

  lemma DueIsSystem(omitted: seq<seq<Message>>, remaining: int, excerpt: string -> string, due: Option<Message>)
    requires due == MemoryDue(omitted, remaining, excerpt)
    ensures due.Some? ==> due.value.kind.System?
  {
  }

  lemma FittedKeepsKind(memory: Message, budget: int, perToken: real, fitted: Message)
    requires perToken > 0.0 && FittedMemory(memory, budget, perToken, fitted)
    ensures fitted.kind == memory.kind
  {
  }

  lemma PairsSurviveFitting(
    systems: seq<Message>, part: seq<Message>, turns: seq<seq<Message>>, messages: seq<Message>,
    c: Settings, before: int, dropped: nat, p: Prepared)
    requires forall m | m in systems :: m.kind.System?
    requires forall m | m in part :: m.kind.System?
    requires forall k | 0 <= k < |turns| :: Closed(turns[k])
    requires c.perToken > 0.0 && FittedContext(c, systems + part + Flatten(turns), before, dropped, p)
    ensures Closed(p.messages) && Calls(p.messages) == Calls(Flatten(turns))
  {
    var kept := Flatten(turns);
    var changed: set<nat> :| CutAt(systems + part + kept, p.messages, changed);
    CutKeepsPairs(systems + part + kept, p.messages, changed);
    ClosedTurns(turns);
    PairsConcat(systems + part, kept);
    NoPairsInSystems(systems + part);
  }

  class Harness {
    const settings: Settings
    var lastReport: Option<Report>

    constructor (c: Settings)
      ensures settings == c && lastReport == None
    {
      settings := c;
      lastReport := None;
    }

    /** The size of a turn, and whether it fits with the reserve for older messages held back. */
    method TryTurn(turn: seq<Message>, used: int, older: bool) returns (fits: bool, tokens: int)
      requires Usable(settings)
      ensures tokens == Count(turn, settings.perToken) && fits == TurnFits(settings, turn, used, older)
    {
      tokens := Count(turn, settings.perToken);
      var reserve := if older then Min(settings.summary, Max(0, (settings.budget - used) / 3)) else 0;
      fits := tokens <= settings.budget - used - reserve;
    }

    /** The backward scan over the turns that may be kept. */
    method SelectTurns(turns: seq<seq<Message>>, systems: seq<Message>) returns (selected: nat)
      requires Usable(settings)
      ensures selected == Select(settings, turns, Lowest(settings, turns), |turns|, Count(systems, settings.perToken))
    {
      var c := settings;
      var lowest := Lowest(c, turns);
      var used := Count(systems, c.perToken);
      ghost var goal := Select(c, turns, lowest, |turns|, used);
      selected := |turns|;
      var index := |turns|;
      while index > lowest
        invariant lowest <= index == selected <= |turns|
        invariant goal == Select(c, turns, lowest, index, used)
      {
        index := index - 1;
        var fits, tokens := TryTurn(turns[index], used, index > 0);
        SelectStep(c, turns, lowest, index + 1, used, goal, fits, tokens);
        if fits {
          selected := index;
          used := used + tokens;
        } else {
          if selected == |turns| {
            selected := index;
          }
          break;
        }
      }
    }

    method MemoryFor(omitted: seq<seq<Message>>, remaining: int, excerpt: string -> string)
      returns (part: Result<seq<Message>>)
      requires Usable(settings)
      ensures part.Ok? ==> MemoryPart(settings, omitted, remaining, excerpt, part.value)
      ensures part.Err? ==> part.error.ContextBudgetError? && MemoryDue(omitted, remaining, excerpt).Some?
                            && FitMayRaise([MemoryDue(omitted, remaining, excerpt).value], Min(settings.summary, remaining), settings.perToken)
      ensures var due := MemoryDue(omitted, remaining, excerpt);
              due.Some? && BareCount([due.value], settings.perToken) > Min(settings.summary, remaining) ==> part.Err?
    {
      if omitted == [] || remaining <= 12 {
        return Ok([]);
      }
      var memory := BuildMemory(omitted, Min(settings.summary, remaining), settings.perToken, excerpt);
      if memory.Err? {
        return Err(memory.error);
      }
      return Ok(if memory.value.Some? then [memory.value.value] else []);
    }

    method FitContext(messages: seq<Message>, before: int, dropped: nat) returns (r: Result<Prepared>)
      requires Usable(settings)
      ensures r.Ok? ==> FittedContext(settings, messages, before, dropped, r.value)
      ensures r.Err? ==> r.error.ContextBudgetError? && FitMayRaise(messages, settings.budget, settings.perToken)
      ensures BareCount(messages, settings.perToken) > settings.budget ==> r.Err?
    {
      var fit := FitMessages(messages, settings.budget, settings.perToken);
      if fit.Err? {
        return Err(fit.error);
      }
      var after := Count(fit.value.messages, settings.perToken);
      var report := MakeReport(settings, before, after, dropped, fit.value.truncated, Compacted);
      r := Ok(Prepared(fit.value.messages, report));
    }

    method Pack(systems: seq<Message>, turns: seq<seq<Message>>, k: nat, before: int, excerpt: string -> string)
      returns (r: Result<Prepared>)
      requires Usable(settings) && k <= |turns|
      ensures r.Ok? ==>
                exists part: seq<Message> {:trigger PackedContext(settings, systems, turns, k, before, excerpt, part, r.value)} ::
                  PackedContext(settings, systems, turns, k, before, excerpt, part, r.value)
      ensures r.Err? ==> r.error.ContextBudgetError? && PackingMayRaise(settings, systems, turns, k, excerpt)
      ensures PackingMustRaise(settings, systems, turns, k, excerpt) ==> r.Err?
    {
      var kept := Flatten(turns[k..]);
      var part := MemoryFor(turns[..k], Remaining(settings, systems, kept), excerpt);
      if part.Err? {
        return Err(part.error);
      }
      MemoryLeavesRoom(settings, systems, kept, turns[..k], excerpt, part.value);
      r := FitContext(systems + part.value + kept, before, |Flatten(turns[..k])|);
      assert r.Ok? ==> PackedContext(settings, systems, turns, k, before, excerpt, part.value, r.value);
    }

    method Compact(source: seq<Message>, excerpt: string -> string) returns (r: Result<Prepared>)
      requires Usable(settings)
      ensures r.Ok? ==>
                exists part: seq<Message> {:trigger CompactedContext(settings, source, excerpt, part, r.value)} ::
                  CompactedContext(settings, source, excerpt, part, r.value)
      ensures r.Err? ==> r.error.ContextBudgetError? && MayRaise(settings, source, excerpt)
      ensures MustRaise(settings, source, excerpt) ==> r.Err?
    {
      var systems := Systems(source);
      var turns := GroupTurns(Conversation(source));
      var selected := SelectTurns(turns, systems);
      r := Pack(systems, turns, selected, Count(source, settings.perToken), excerpt);
      if r.Ok? {
        ghost var part: seq<Message> :|
          PackedContext(settings, systems, turns, selected, Count(source, settings.perToken), excerpt, part, r.value);
        assert CompactedContext(settings, source, excerpt, part, r.value);
      }
    }

    /** Prepares the messages for a model call, or raises when their fixed parts exceed the budget. */
    method Prepare(source: seq<Message>, excerpt: string -> string) returns (r: Result<Prepared>)
      requires Usable(settings)
      modifies this
      ensures Count(source, settings.perToken) <= settings.budget ==>
                r.Ok? && r.value.messages == source
                && ReportsOn(settings, r.value.report, Count(source, settings.perToken), Count(source, settings.perToken), 0, 0, Full)
      ensures Count(source, settings.perToken) > settings.budget && r.Ok? ==>
                exists part: seq<Message> {:trigger CompactedContext(settings, source, excerpt, part, r.value)} ::
                  CompactedContext(settings, source, excerpt, part, r.value)
      ensures r.Ok? ==> lastReport == Some(r.value.report)
      ensures r.Err? ==> r.error.ContextBudgetError? && lastReport == old(lastReport) && MayRaise(settings, source, excerpt)
      ensures Count(source, settings.perToken) > settings.budget && MustRaise(settings, source, excerpt) ==> r.Err?
    {
      var before := Count(source, settings.perToken);
      if before <= settings.budget {
        var report := MakeReport(settings, before, before, 0, 0, Full);
        r := Ok(Prepared(source, report));
      } else {
        r := Compact(source, excerpt);
      }
      if r.Ok? {
        lastReport := Some(r.value.report);
      }
    }
  }
}
