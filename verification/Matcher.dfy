/** Scoring candidate pairs, the settlement gate, and the pairs a whole match returns. */
module Matcher {
  import opened Numbers
  import opened Wrappers
  import opened TokenIndex
  import opened TokenWeights
  import T = Thresholds

  /** A market's structured settlement criteria; times are UTC seconds, "" is no stated unit. */
  datatype Terms = Terms(
    scheduled: Option<real>, expiry: Option<real>, comparator: T.Comparator, threshold: Option<real>,
    units: string, sourcesStated: bool, sourceTokens: set<string>)

  /** One market with its texts already lowered and tokenized. */
  datatype Market = Market(
    entry: Entry, yesLabel: string, noLabel: string, labelTokens: set<string>, questionTokens: set<string>,
    claimTokens: set<string>, rules: string, question: string, terms: Terms)

  datatype Config = Config(
    minScore: real, strongScore: real, startTolerance: real, expiryTolerance: real, maxCandidates: nat)

  datatype Confidence = Identical | Strong | Weak | Rejected

  datatype Blocker =
    | QualifierOnOneSide | NoAlignment | BelowGate
    | DrawPossible
    | LevelAgainstOutcome | UnitsDiffer | RangeMarket | ThresholdsDiffer
    | StartsDiffer | DaysDiffer
    | SourceUnstated | SourcesDiffer

  datatype Pair = Pair(
    kalshi: Market, other: Market, aligned: bool, confidence: Confidence, score: real, blockers: seq<Blocker>)

  const AFFIRMATIVE: set<string> := {"yes", "over", "true"}
  const NEGATIVE: set<string> := {"no", "under", "false"}

  const QUALIFIERS: set<string> := {
    "vp", "vice", "deputy", "runner", "loser", "not", "without", "excluding", "runoff", "consecutive",
    "combined", "top", "second", "third", "highest", "lowest", "map", "global", "worldwide"}

  const DRAW_CAPABLE: seq<string> := [
    "soccer", "cricket", "chess", "football club", "test match", "draw", "kbo", "npb"]

  // ---- Scoring -------------------------------------------------------------------------------

  /** Which of the other venue's outcomes is Kalshi's YES; `teams` says whether two labels name one team. */
  function Alignment(k: Market, o: Market, teams: (string, string) -> bool): Option<bool> {
    if o.yesLabel in AFFIRMATIVE && o.noLabel in NEGATIVE then Some(true)
    else if o.yesLabel in NEGATIVE && o.noLabel in AFFIRMATIVE then Some(false)
    else if teams(k.yesLabel, o.yesLabel) then (if teams(k.yesLabel, o.noLabel) then None else Some(true))
    else if teams(k.yesLabel, o.noLabel) then Some(false)
    else None
  }

  predicate Proposition(o: Market) {
    (o.yesLabel in AFFIRMATIVE && o.noLabel in NEGATIVE) || (o.yesLabel in NEGATIVE && o.noLabel in AFFIRMATIVE)
  }

  function LabelScore(k: Market, o: Market, teams: (string, string) -> bool): real {
    if Alignment(k, o, teams).Some? && !Proposition(o) then 1.0
    else if k.labelTokens == {} then 0.0
    else |k.labelTokens * o.questionTokens| as real / |k.labelTokens| as real
  }

  predicate BothKnown(a: Option<real>, b: Option<real>) { a.Some? && b.Some? }

  function Apart(a: Option<real>, b: Option<real>): real
    requires BothKnown(a, b)
  {
    Abs(a.value - b.value)
  }

  function TimeScore(k: Terms, o: Terms, c: Config): real {
    if BothKnown(k.scheduled, o.scheduled) then
      if Apart(k.scheduled, o.scheduled) <= c.startTolerance then 1.0 else 0.0
    else if BothKnown(k.expiry, o.expiry) then
      if Apart(k.expiry, o.expiry) <= c.expiryTolerance then 0.6 else 0.0
    else 0.3
  }

  function ScoreOf(k: Market, o: Market, weights: Weights, c: Config, teams: (string, string) -> bool): real {
    0.45 * Overlap(k.entry.tokens, o.entry.tokens, weights)
    + 0.20 * TimeScore(k.terms, o.terms, c)
    + 0.35 * LabelScore(k, o, teams)
  }

  predicate QualifierConflict(k: Market, o: Market) { QUALIFIERS * k.claimTokens != QUALIFIERS * o.claimTokens }

  // ---- The settlement gate -------------------------------------------------------------------

  predicate Mentions(text: string, word: string) {
    |word| <= |text| && (text[..|word|] == word || (text != [] && Mentions(text[1..], word)))
  }

  predicate MentionsAny(text: string, words: seq<string>) {
    words != [] && (Mentions(text, words[0]) || MentionsAny(text, words[1..]))
  }

  function DrawBlockers(k: Market, o: Market): seq<Blocker> {
    if o.yesLabel in AFFIRMATIVE then []
    else if MentionsAny(k.rules + " " + k.question + " " + o.question, DRAW_CAPABLE) then [DrawPossible]
    else []
  }

  function ThresholdBlockers(k: Terms, o: Terms): seq<Blocker> {
    if k.threshold.None? && o.threshold.None? then []
    else if k.threshold.Some? != o.threshold.Some? then [LevelAgainstOutcome]
    else if k.units != "" && o.units != "" && k.units != o.units then [UnitsDiffer]
    else if k.comparator.Between? || o.comparator.Between? then [RangeMarket]
    else if !T.Equivalent(k.comparator, k.threshold, o.comparator, o.threshold, T.TICK) then [ThresholdsDiffer]
    else []
  }

  function Day(seconds: real): int { (seconds / 86400.0).Floor }

  predicate SameDay(a: Option<real>, b: Option<real>) { BothKnown(a, b) && Day(a.value) == Day(b.value) }

  function TimingBlockers(k: Terms, o: Terms, c: Config): seq<Blocker> {
    if BothKnown(k.scheduled, o.scheduled) then
      if Apart(k.scheduled, o.scheduled) > c.startTolerance then [StartsDiffer] else []
    else if SameDay(k.expiry, o.expiry) then []
    else [DaysDiffer]
  }

  function SourceBlockers(k: Terms, o: Terms): seq<Blocker> {
    if !k.sourcesStated || !o.sourcesStated then [SourceUnstated]
    else if k.sourceTokens * o.sourceTokens == {} then [SourcesDiffer]
    else []
  }

  function SettlementBlockers(k: Market, o: Market, c: Config): seq<Blocker> {
    DrawBlockers(k, o) + ThresholdBlockers(k.terms, o.terms) + TimingBlockers(k.terms, o.terms, c)
    + SourceBlockers(k.terms, o.terms)
  }

  /** One candidate pair scored and put through the gate; nothing when it scores too low to record. */
  function Evaluate(k: Market, o: Market, weights: Weights, c: Config, teams: (string, string) -> bool): Option<Pair> {
    var score := ScoreOf(k, o, weights, c, teams);
    var aligned := Alignment(k, o, teams);
    if score < c.minScore then None
    else if QualifierConflict(k, o) then
      Some(Pair(k, o, aligned.GetOr(true), Rejected, score, [QualifierOnOneSide]))
    else if aligned.None? then Some(Pair(k, o, true, Rejected, score, [NoAlignment]))
    else if score < c.strongScore then Some(Pair(k, o, aligned.value, Weak, score, [BelowGate]))
    else
      var blockers := SettlementBlockers(k, o, c);
      Some(Pair(k, o, aligned.value, if blockers == [] then Identical else Strong, score, blockers))
  }

  // ---- What a verdict means ------------------------------------------------------------------

  predicate OnDay(seconds: real, day: int) {
    day as real * 86400.0 <= seconds < (day + 1) as real * 86400.0
  }

  /** Both times are known and fall on one UTC day. */
  ghost predicate ShareADay(a: Option<real>, b: Option<real>) {
    a.Some? && b.Some? && exists day :: OnDay(a.value, day) && OnDay(b.value, day)
  }

  lemma DayIs(seconds: real, day: int)
    ensures OnDay(seconds, day) <==> Day(seconds) == day
  {
    var days := seconds / 86400.0;
    assert seconds == days * 86400.0;
    assert day as real <= days < (day + 1) as real <==> days.Floor == day;
  }

  lemma SameDayIs(a: Option<real>, b: Option<real>)
    ensures SameDay(a, b) <==> ShareADay(a, b)
  {
    if a.Some? && b.Some? {
      forall day
        ensures OnDay(a.value, day) <==> Day(a.value) == day
        ensures OnDay(b.value, day) <==> Day(b.value) == day
      {
        DayIs(a.value, day);
        DayIs(b.value, day);
      }
      assert OnDay(a.value, Day(a.value));
    }
  }

  predicate StandsAt(text: string, word: string, i: int) {
    0 <= i <= |text| - |word| && text[i..i + |word|] == word
  }

  /** The word stands somewhere in the text. */
  ghost predicate StandsIn(text: string, word: string) { exists i :: StandsAt(text, word, i) }

  lemma StandsLater(text: string, word: string, i: int)
    requires text != [] && i >= 1
    ensures StandsAt(text, word, i) <==> StandsAt(text[1..], word, i - 1)
  {
    if i <= |text| - |word| {
      assert text[1..][i - 1..i - 1 + |word|] == text[i..i + |word|];
    }
  }

  lemma {:induction false} MentionsIs(text: string, word: string)
    ensures Mentions(text, word) <==> StandsIn(text, word)
  {
    assert StandsAt(text, word, 0) <==> |word| <= |text| && text[..|word|] == word;
    if |word| <= |text| && text != [] {
      MentionsIs(text[1..], word);
      if StandsIn(text[1..], word) {
        var i :| StandsAt(text[1..], word, i);
        StandsLater(text, word, i + 1);
      }
      if StandsIn(text, word) && !StandsAt(text, word, 0) {
        var i :| StandsAt(text, word, i);
        StandsLater(text, word, i);
      }
    }
  }

  /** Every settlement criterion checked agrees. */
  ghost predicate SettlesAlike(k: Market, o: Market, c: Config) {
    && (o.yesLabel !in AFFIRMATIVE ==>
          forall word | word in DRAW_CAPABLE :: !StandsIn(k.rules + " " + k.question + " " + o.question, word))
    && k.terms.threshold.Some? == o.terms.threshold.Some?
    && (k.terms.threshold.Some? ==>
          && (k.terms.units == "" || o.terms.units == "" || k.terms.units == o.terms.units)
          && !k.terms.comparator.Between? && !o.terms.comparator.Between?
          && T.Equivalent(k.terms.comparator, k.terms.threshold, o.terms.comparator, o.terms.threshold, T.TICK))
    && (if BothKnown(k.terms.scheduled, o.terms.scheduled)
        then Apart(k.terms.scheduled, o.terms.scheduled) <= c.startTolerance
        else ShareADay(k.terms.expiry, o.terms.expiry))
    && k.terms.sourcesStated && o.terms.sourcesStated
    && exists token :: token in k.terms.sourceTokens && token in o.terms.sourceTokens
  }

  lemma {:induction false} MentionsAnyIs(text: string, words: seq<string>)
    ensures MentionsAny(text, words) <==> exists word | word in words :: StandsIn(text, word)
  {
    if words != [] {
      MentionsIs(text, words[0]);
      MentionsAnyIs(text, words[1..]);
      assert words[0] in words;
      assert forall w :: w in words <==> w == words[0] || w in words[1..];
    }
  }

  lemma MeetsIsShared(a: set<string>, b: set<string>)
    ensures a * b != {} <==> exists token :: token in a && token in b
  {
    if a * b != {} {
      var token :| token in a * b;
      assert token in a && token in b;
    }
    if exists token :: token in a && token in b {
      var token :| token in a && token in b;
      assert token in a * b;
    }
  }

  lemma GateIsSettlesAlike(k: Market, o: Market, c: Config)
    ensures SettlementBlockers(k, o, c) == [] <==> SettlesAlike(k, o, c)
  {
    MentionsAnyIs(k.rules + " " + k.question + " " + o.question, DRAW_CAPABLE);
    SameDayIs(k.terms.expiry, o.terms.expiry);
    MeetsIsShared(k.terms.sourceTokens, o.terms.sourceTokens);
    assert SettlementBlockers(k, o, c) == [] <==>
      DrawBlockers(k, o) == [] && ThresholdBlockers(k.terms, o.terms) == []
      && TimingBlockers(k.terms, o.terms, c) == [] && SourceBlockers(k.terms, o.terms) == [];
  }

  // ---- Which outcome is Kalshi's YES ---------------------------------------------------------

  /** The other venue's first outcome is Kalshi's YES: the affirmative one of two, or the only team Kalshi names. */
  predicate FirstIsYes(k: Market, o: Market, teams: (string, string) -> bool) {
    if Proposition(o) then o.yesLabel in AFFIRMATIVE
    else teams(k.yesLabel, o.yesLabel) && !teams(k.yesLabel, o.noLabel)
  }

  /** The second outcome is. */
  predicate SecondIsYes(k: Market, o: Market, teams: (string, string) -> bool) {
    if Proposition(o) then o.noLabel in AFFIRMATIVE
    else teams(k.yesLabel, o.noLabel) && !teams(k.yesLabel, o.yesLabel)
  }

  lemma NoLabelIsBoth(name: string)
    ensures !(name in AFFIRMATIVE && name in NEGATIVE)
  {
    assert |"yes"| == 3 && |"over"| == 4 && |"true"| == 4 && |"no"| == 2 && |"under"| == 5 && |"false"| == 5;
  }

  /** The alignment is the outcome the labels pick out, and there is none exactly when they pick out none or both. */
  lemma AlignmentIsLabelled(k: Market, o: Market, teams: (string, string) -> bool)
    ensures Alignment(k, o, teams) == Some(true) <==> FirstIsYes(k, o, teams)
    ensures Alignment(k, o, teams) == Some(false) <==> SecondIsYes(k, o, teams)
    ensures Alignment(k, o, teams).None? <==> !FirstIsYes(k, o, teams) && !SecondIsYes(k, o, teams)
  {
    NoLabelIsBoth(o.yesLabel);
    NoLabelIsBoth(o.noLabel);
  }

  /** A meaning-changing word stands in exactly one of the two claims. */
  predicate OneSided(k: Market, o: Market) {
    exists word | word in QUALIFIERS :: word in k.claimTokens <==> word !in o.claimTokens
  }

  lemma ConflictIsOneSided(k: Market, o: Market)
    ensures QualifierConflict(k, o) <==> OneSided(k, o)
  {
    if !OneSided(k, o) {
      assert QUALIFIERS * k.claimTokens == QUALIFIERS * o.claimTokens;
    }
    if OneSided(k, o) {
      var word :| word in QUALIFIERS && (word in k.claimTokens <==> word !in o.claimTokens);
      assert (word in QUALIFIERS * k.claimTokens) != (word in QUALIFIERS * o.claimTokens);
    }
  }

  /** The reasons about levels that are given, and exactly when each one is. */
  ghost predicate GivesLevelReasons(k: Terms, o: Terms, blockers: seq<Blocker>) {
    var levels := k.threshold.Some? && o.threshold.Some?;
    var unitsDiffer := k.units != "" && o.units != "" && k.units != o.units;
    var range := k.comparator.Between? || o.comparator.Between?;
    && (LevelAgainstOutcome in blockers <==> k.threshold.Some? <==> o.threshold.None?)
    && (UnitsDiffer in blockers <==> levels && unitsDiffer)
    && (RangeMarket in blockers <==> levels && !unitsDiffer && range)
    && (ThresholdsDiffer in blockers <==>
          && levels && !unitsDiffer && !range
          && !T.Equivalent(k.comparator, k.threshold, o.comparator, o.threshold, T.TICK))
  }

  ghost predicate GivesTimingReasons(k: Terms, o: Terms, c: Config, blockers: seq<Blocker>) {
    var startsKnown := k.scheduled.Some? && o.scheduled.Some?;
    && (StartsDiffer in blockers <==>
          startsKnown && !(-c.startTolerance <= k.scheduled.value - o.scheduled.value <= c.startTolerance))
    && (DaysDiffer in blockers <==> !startsKnown && !ShareADay(k.expiry, o.expiry))
  }

  ghost predicate GivesSourceReasons(k: Terms, o: Terms, blockers: seq<Blocker>) {
    && (SourceUnstated in blockers <==> !k.sourcesStated || !o.sourcesStated)
    && (SourcesDiffer in blockers <==>
          k.sourcesStated && o.sourcesStated && !exists token :: token in k.sourceTokens && token in o.sourceTokens)
  }

  /** Each reason the gate gives against a pair is given exactly when it holds. */
  ghost predicate GivesReasons(k: Market, o: Market, c: Config, blockers: seq<Blocker>) {
    && (DrawPossible in blockers <==>
          && o.yesLabel !in AFFIRMATIVE
          && exists word | word in DRAW_CAPABLE :: StandsIn(k.rules + " " + k.question + " " + o.question, word))
    && GivesLevelReasons(k.terms, o.terms, blockers)
    && GivesTimingReasons(k.terms, o.terms, c, blockers)
    && GivesSourceReasons(k.terms, o.terms, blockers)
  }

  lemma LevelReasons(k: Terms, o: Terms)
    ensures GivesLevelReasons(k, o, ThresholdBlockers(k, o))
    ensures forall b | b in ThresholdBlockers(k, o) ::
              b.LevelAgainstOutcome? || b.UnitsDiffer? || b.RangeMarket? || b.ThresholdsDiffer?
  {
  }

  lemma TimingReasons(k: Terms, o: Terms, c: Config)
    ensures GivesTimingReasons(k, o, c, TimingBlockers(k, o, c))
    ensures forall b | b in TimingBlockers(k, o, c) :: b.StartsDiffer? || b.DaysDiffer?
  {
    SameDayIs(k.expiry, o.expiry);
  }

  lemma SourceReasons(k: Terms, o: Terms)
    ensures GivesSourceReasons(k, o, SourceBlockers(k, o))
    ensures forall b | b in SourceBlockers(k, o) :: b.SourceUnstated? || b.SourcesDiffer?
  {
    MeetsIsShared(k.sourceTokens, o.sourceTokens);
  }

  lemma ReasonsAreGiven(k: Market, o: Market, c: Config)
    ensures GivesReasons(k, o, c, SettlementBlockers(k, o, c))
  {
    MentionsAnyIs(k.rules + " " + k.question + " " + o.question, DRAW_CAPABLE);
    LevelReasons(k.terms, o.terms);
    TimingReasons(k.terms, o.terms, c);
    SourceReasons(k.terms, o.terms);
    ReasonsTogether(k, o, c, DrawBlockers(k, o), ThresholdBlockers(k.terms, o.terms),
                    TimingBlockers(k.terms, o.terms, c), SourceBlockers(k.terms, o.terms));
  }

  /** Four lists of reasons of four kinds, put together, give the reasons each of them gives. */
  lemma ReasonsTogether(k: Market, o: Market, c: Config, draws: seq<Blocker>, levels: seq<Blocker>,
                        times: seq<Blocker>, sources: seq<Blocker>)
    requires GivesLevelReasons(k.terms, o.terms, levels)
    requires GivesTimingReasons(k.terms, o.terms, c, times) && GivesSourceReasons(k.terms, o.terms, sources)
    requires DrawPossible in draws <==>
               && o.yesLabel !in AFFIRMATIVE
               && exists word | word in DRAW_CAPABLE :: StandsIn(k.rules + " " + k.question + " " + o.question, word)
    requires forall b | b in draws :: b.DrawPossible?
    requires forall b | b in levels :: b.LevelAgainstOutcome? || b.UnitsDiffer? || b.RangeMarket? || b.ThresholdsDiffer?
    requires forall b | b in times :: b.StartsDiffer? || b.DaysDiffer?
    requires forall b | b in sources :: b.SourceUnstated? || b.SourcesDiffer?
    ensures GivesReasons(k, o, c, draws + levels + times + sources)
  {
    var all := draws + levels + times + sources;
    assert forall b :: b in all <==> b in draws || b in levels || b in times || b in sources;
  }

  /** What a recorded pair says is what its two markets are: its outcome, its confidence and its blockers. */
  ghost predicate SaysTruly(pair: Pair, c: Config, teams: (string, string) -> bool) {
    var k, o := pair.kalshi, pair.other;
    var named := FirstIsYes(k, o, teams) || SecondIsYes(k, o, teams);
    && pair.score >= c.minScore
    && (pair.confidence.Rejected? <==> OneSided(k, o) || !named)
    && (pair.confidence.Weak? <==> !OneSided(k, o) && named && pair.score < c.strongScore)
    && (pair.confidence.Identical? <==>
          !OneSided(k, o) && named && pair.score >= c.strongScore && SettlesAlike(k, o, c))
    && (pair.confidence.Strong? <==>
          !OneSided(k, o) && named && pair.score >= c.strongScore && !SettlesAlike(k, o, c))
    && (pair.confidence.Identical? <==> pair.blockers == [])
    && (QualifierOnOneSide in pair.blockers <==> OneSided(k, o))
    && (NoAlignment in pair.blockers <==> !OneSided(k, o) && !named)
    && (BelowGate in pair.blockers <==> pair.confidence.Weak?)
    && (pair.confidence.Strong? ==> GivesReasons(k, o, c, pair.blockers))
    && (!pair.aligned <==> SecondIsYes(k, o, teams))
    && (!pair.confidence.Rejected? ==> (pair.aligned <==> FirstIsYes(k, o, teams)))
  }

  /** A gate's blocker is none of the three other reasons. */
  lemma GateBlockersAreGates(k: Market, o: Market, c: Config)
    ensures forall b | b in SettlementBlockers(k, o, c) :: !b.QualifierOnOneSide? && !b.NoAlignment? && !b.BelowGate?
  {
  }

  lemma RecordedPairsSayTruly(k: Market, o: Market, weights: Weights, c: Config, teams: (string, string) -> bool)
    ensures Evaluate(k, o, weights, c, teams).None? <==> ScoreOf(k, o, weights, c, teams) < c.minScore
    ensures var pair := Evaluate(k, o, weights, c, teams);
            pair.Some? ==>
              && pair.value.kalshi == k && pair.value.other == o
              && pair.value.score == ScoreOf(k, o, weights, c, teams) && SaysTruly(pair.value, c, teams)
  {
    AlignmentIsLabelled(k, o, teams);
    ConflictIsOneSided(k, o);
    GateIsSettlesAlike(k, o, c);
    GateBlockersAreGates(k, o, c);
    ReasonsAreGiven(k, o, c);
  }

  /** A pair is called identical exactly when nothing blocks it, and then every gate was passed. */
  lemma IdenticalMeansUnblocked(k: Market, o: Market, weights: Weights, c: Config, teams: (string, string) -> bool)
    requires Evaluate(k, o, weights, c, teams).Some?
    ensures var pair := Evaluate(k, o, weights, c, teams).value;
            && (pair.confidence.Identical? <==> pair.blockers == [])
            && (pair.confidence.Identical? <==>
                  && pair.score >= c.strongScore && Alignment(k, o, teams) == Some(pair.aligned)
                  && !QualifierConflict(k, o) && SettlesAlike(k, o, c))
  {
    GateIsSettlesAlike(k, o, c);
  }

  predicate WholeTicks(level: Option<real>, m: int) {
    level == Some(T.Ticks(m)) && T.Size(m) < 1_000_000_000
  }

  /** Whether the first or the second outcome of a yes-or-no market pays at a settlement value. */
  predicate OutcomePays(o: Market, first: bool, value: real)
    requires Proposition(o) && o.terms.threshold.Some?
  {
    var affirmative := if first then o.yesLabel in AFFIRMATIVE else o.noLabel in AFFIRMATIVE;
    affirmative <==> T.PaysYes(o.terms.comparator, o.terms.threshold.value, value)
  }

  /**
   An identical pair hedges: for a yes-or-no market, Kalshi's YES pays on exactly the settlement ticks on which the
   outcome the pair is aligned with pays, so at every tick exactly one of Kalshi's YES and the other outcome does.
   */
  lemma IdenticalHedges(k: Market, o: Market, weights: Weights, c: Config, teams: (string, string) -> bool, m: int,
                        n: int, tick: int)
    requires var pair := Evaluate(k, o, weights, c, teams); pair.Some? && pair.value.confidence.Identical?
    requires Proposition(o) && WholeTicks(k.terms.threshold, m) && WholeTicks(o.terms.threshold, n)
    requires T.Compared(k.terms.comparator) && T.Compared(o.terms.comparator)
    ensures var aligned := Evaluate(k, o, weights, c, teams).value.aligned;
            var kalshi := T.PaysYes(k.terms.comparator, k.terms.threshold.value, T.Ticks(tick));
            && (kalshi <==> OutcomePays(o, aligned, T.Ticks(tick)))
            && (kalshi <==> !OutcomePays(o, !aligned, T.Ticks(tick)))
  {
    IdenticalPaysAlike(k, o, weights, c, teams, m, n);
    RecordedPairsSayTruly(k, o, weights, c, teams);
    NoLabelIsBoth(o.yesLabel);
    NoLabelIsBoth(o.noLabel);
  }

  /** An identical pair of level markets is YES on the same settlement ticks, on the outcome it is aligned with. */
  lemma IdenticalPaysAlike(k: Market, o: Market, weights: Weights, c: Config, teams: (string, string) -> bool, m: int,
                           n: int)
    requires var pair := Evaluate(k, o, weights, c, teams); pair.Some? && pair.value.confidence.Identical?
    requires WholeTicks(k.terms.threshold, m) && WholeTicks(o.terms.threshold, n)
    requires T.Compared(k.terms.comparator) && T.Compared(o.terms.comparator)
    ensures T.SameClaim(k.terms.comparator, T.Ticks(m), o.terms.comparator, T.Ticks(n))
    ensures var aligned := Evaluate(k, o, weights, c, teams).value.aligned;
            (aligned <==> FirstIsYes(k, o, teams)) && (!aligned <==> SecondIsYes(k, o, teams))
  {
    IdenticalMeansUnblocked(k, o, weights, c, teams);
    RecordedPairsSayTruly(k, o, weights, c, teams);
    T.ComparisonIsSetEquality(k.terms.comparator, m, o.terms.comparator, n);
  }

  // ---- What the score is made of -------------------------------------------------------------

  /** Full timing credit exactly for close starts, part of it exactly for close expiries, a little for nothing known. */
  lemma TimingCredit(k: Terms, o: Terms, c: Config)
    ensures TimeScore(k, o, c) == 1.0 <==>
              k.scheduled.Some? && o.scheduled.Some?
              && -c.startTolerance <= k.scheduled.value - o.scheduled.value <= c.startTolerance
    ensures TimeScore(k, o, c) == 0.6 <==>
              && (k.scheduled.None? || o.scheduled.None?) && k.expiry.Some? && o.expiry.Some?
              && -c.expiryTolerance <= k.expiry.value - o.expiry.value <= c.expiryTolerance
    ensures TimeScore(k, o, c) == 0.3 <==>
              (k.scheduled.None? || o.scheduled.None?) && (k.expiry.None? || o.expiry.None?)
    ensures TimeScore(k, o, c) in {0.0, 0.3, 0.6, 1.0}
  {
  }

  /**
   Full label credit for a team named, or when every word of Kalshi's label stands in the other question; none when it
   has no words, or none of them does.
   */
  lemma LabelCredit(k: Market, o: Market, teams: (string, string) -> bool)
    ensures var matched := !Proposition(o) && (FirstIsYes(k, o, teams) || SecondIsYes(k, o, teams));
            && (LabelScore(k, o, teams) == 1.0 <==>
                  matched || (k.labelTokens != {} && k.labelTokens <= o.questionTokens))
            && (LabelScore(k, o, teams) == 0.0 <==> !matched && k.labelTokens !! o.questionTokens)
  {
    AlignmentIsLabelled(k, o, teams);
    var shared := k.labelTokens * o.questionTokens;
    SplitSet(shared, k.labelTokens);
    if k.labelTokens != {} {
      RatioExtremes(|shared| as real, |k.labelTokens| as real);
      if |shared| == |k.labelTokens| {
        assert k.labelTokens - shared == {};
      }
    }
  }

  lemma RatioExtremes(part: real, whole: real)
    requires 0.0 <= part <= whole && whole > 0.0
    ensures (part / whole == 1.0 <==> part == whole) && (part / whole == 0.0 <==> part == 0.0)
  {
  }

  /** Each signal alone: perfect wording is worth 0.45, a perfect label 0.35 and perfect timing 0.20; all three, one. */
  lemma SignalsAlone(k: Market, o: Market, weights: Weights, c: Config, teams: (string, string) -> bool)
    ensures var wording, naming, timing :=
              Overlap(k.entry.tokens, o.entry.tokens, weights), LabelScore(k, o, teams), TimeScore(k.terms, o.terms, c);
            var score := ScoreOf(k, o, weights, c, teams);
            && (naming == timing == 0.0 ==> score == wording * 0.45)
            && (wording == timing == 0.0 ==> score == naming * 0.35)
            && (wording == naming == 0.0 ==> score == timing / 5.0)
            && (wording == naming == timing ==> score == wording)
  {
  }

  lemma LabelScoreInUnit(k: Market, o: Market, teams: (string, string) -> bool)
    ensures 0.0 <= LabelScore(k, o, teams) <= 1.0
  {
    if k.labelTokens != {} {
      SplitSet(k.labelTokens * o.questionTokens, k.labelTokens);
      RatioInUnit(|k.labelTokens * o.questionTokens| as real, |k.labelTokens| as real);
    }
  }

  /** Scores are between nought and one. */
  lemma ScoreInUnit(k: Market, o: Market, weights: Weights, c: Config, teams: (string, string) -> bool)
    requires NonNegative(weights)
    ensures 0.0 <= ScoreOf(k, o, weights, c, teams) <= 1.0
  {
    OverlapInUnit(k.entry.tokens, o.entry.tokens, weights);
    LabelScoreInUnit(k, o, teams);
  }

  // ---- Ranking pairs -------------------------------------------------------------------------

  function Rank(c: Confidence): int {
    match c
    case Identical => 0
    case Strong => 1
    case Weak => 2
    case Rejected => 3
  }

  /** The first verdict is worth more than the second. */
  predicate Outranks(a: Confidence, b: Confidence) {
    || (a.Identical? && !b.Identical?)
    || (a.Strong? && (b.Weak? || b.Rejected?))
    || (a.Weak? && b.Rejected?)
  }

  /** Stronger confidence first, then the higher score. */
  predicate NoWorse(a: Pair, b: Pair): (r: bool)
    ensures r <==> Outranks(a.confidence, b.confidence) || (a.confidence == b.confidence && a.score >= b.score)
  {
    Rank(a.confidence) < Rank(b.confidence) || (a.confidence == b.confidence && a.score >= b.score)
  }

  function InsertPair(sorted: seq<Pair>, p: Pair): seq<Pair> {
    if sorted == [] || NoWorse(sorted[|sorted| - 1], p) then sorted + [p]
    else InsertPair(sorted[..|sorted| - 1], p) + [sorted[|sorted| - 1]]
  }

  function SortPairs(pairs: seq<Pair>): seq<Pair> {
    if pairs == [] then [] else InsertPair(SortPairs(pairs[..|pairs| - 1]), pairs[|pairs| - 1])
  }

  predicate StrongestFirst(pairs: seq<Pair>) { forall i, j | 0 <= i < j < |pairs| :: NoWorse(pairs[i], pairs[j]) }

  lemma NoWorseChains(a: Pair, b: Pair, c: Pair)
    ensures NoWorse(a, b) && NoWorse(b, c) ==> NoWorse(a, c)
    ensures NoWorse(a, b) || NoWorse(b, a)
  {
    assert Rank(a.confidence) == Rank(b.confidence) ==> a.confidence == b.confidence;
  }

  lemma AppendStrongest(sorted: seq<Pair>, p: Pair)
    requires StrongestFirst(sorted) && forall q | q in sorted :: NoWorse(q, p)
    ensures StrongestFirst(sorted + [p])
  {
    var all := sorted + [p];
    forall i, j | 0 <= i < j < |all|
      ensures NoWorse(all[i], all[j])
    {
      assert all[i] == sorted[i] && sorted[i] in sorted;
    }
  }

  lemma {:induction false} InsertSorts(sorted: seq<Pair>, p: Pair)
    requires StrongestFirst(sorted)
    ensures StrongestFirst(InsertPair(sorted, p))
    ensures multiset(InsertPair(sorted, p)) == multiset(sorted) + multiset{p}
  {
    if sorted == [] {
    } else {
      var n := |sorted| - 1;
      var last := sorted[n];
      assert sorted == sorted[..n] + [last];
      if NoWorse(last, p) {
        forall q | q in sorted
          ensures NoWorse(q, p)
        {
          var i :| 0 <= i < |sorted| && sorted[i] == q;
          if i < n {
            NoWorseChains(q, last, p);
          }
        }
        AppendStrongest(sorted, p);
      } else {
        InsertSorts(sorted[..n], p);
        var front := InsertPair(sorted[..n], p);
        NoWorseChains(p, last, p);
        forall q | q in front
          ensures NoWorse(q, last)
        {
          assert q in multiset(front);
          assert q == p || q in sorted[..n];
        }
        AppendStrongest(front, last);
      }
    }
  }

  lemma {:induction false} SortPairsSorts(pairs: seq<Pair>)
    ensures StrongestFirst(SortPairs(pairs)) && multiset(SortPairs(pairs)) == multiset(pairs)
  {
    if pairs != [] {
      var rest := pairs[..|pairs| - 1];
      assert pairs == rest + [pairs[|pairs| - 1]];
      SortPairsSorts(rest);
      InsertSorts(SortPairs(rest), pairs[|pairs| - 1]);
    }
  }

  // ---- The whole match -----------------------------------------------------------------------

  /** What an index is given of some markets: the entry of each, in order. */
  function Entries(markets: seq<Market>): (entries: seq<Entry>)
    ensures |entries| == |markets| && forall i | 0 <= i < |markets| :: entries[i] == markets[i].entry
  {
    if markets == [] then [] else Entries(markets[..|markets| - 1]) + [markets[|markets| - 1].entry]
  }

  /** The market an index entry stands for. */
  function MarketOf(markets: seq<Market>, e: Entry): (m: Market)
    requires e in Entries(markets)
    ensures m in markets && m.entry == e
  {
    var n := |markets| - 1;
    if markets[n].entry == e then markets[n] else MarketOf(markets[..n], e)
  }

  /** Every candidate is one of the other venue's markets. */
  predicate Listed(candidates: seq<Entry>, other: seq<Market>) {
    forall e | e in candidates :: e in Entries(other)
  }

  /** The recorded pairs of one market with each of its candidates, every one of them evaluated. */
  function PairsOf(k: Market, candidates: seq<Entry>, other: seq<Market>, weights: Weights, c: Config,
                   teams: (string, string) -> bool): seq<Pair>
    requires Listed(candidates, other)
  {
    if candidates == [] then []
    else
      var n := |candidates| - 1;
      var rest := PairsOf(k, candidates[..n], other, weights, c, teams);
      var pair := Evaluate(k, MarketOf(other, candidates[n]), weights, c, teams);
      if pair.None? then rest else rest + [pair.value]
  }

  predicate AllListed(found: seq<seq<Entry>>, other: seq<Market>) {
    forall i | 0 <= i < |found| :: Listed(found[i], other)
  }

  function Gathered(kalshi: seq<Market>, found: seq<seq<Entry>>, other: seq<Market>, weights: Weights, c: Config,
                    teams: (string, string) -> bool): seq<Pair>
    requires |found| == |kalshi| && AllListed(found, other)
  {
    if kalshi == [] then []
    else
      var n := |kalshi| - 1;
      Gathered(kalshi[..n], found[..n], other, weights, c, teams)
      + PairsOf(kalshi[n], found[n], other, weights, c, teams)
  }

  /** A returned pair is of one market of each venue, and its outcome and its verdict can be believed. */
  ghost predicate Honest(pair: Pair, kalshi: seq<Market>, other: seq<Market>, c: Config,
                         teams: (string, string) -> bool)
  {
    pair.kalshi in kalshi && pair.other in other && SaysTruly(pair, c, teams)
  }

  lemma {:induction false} PairsAreHonest(k: Market, candidates: seq<Entry>, other: seq<Market>, weights: Weights,
                                          c: Config, teams: (string, string) -> bool)
    requires Listed(candidates, other)
    ensures forall p | p in PairsOf(k, candidates, other, weights, c, teams) :: Honest(p, [k], other, c, teams)
  {
    if candidates != [] {
      var n := |candidates| - 1;
      PairsAreHonest(k, candidates[..n], other, weights, c, teams);
      var o := MarketOf(other, candidates[n]);
      RecordedPairsSayTruly(k, o, weights, c, teams);
    }
  }

  lemma {:induction false} GatheredAreHonest(kalshi: seq<Market>, found: seq<seq<Entry>>, other: seq<Market>,
                                             weights: Weights, c: Config, teams: (string, string) -> bool)
    requires |found| == |kalshi| && AllListed(found, other)
    ensures forall p | p in Gathered(kalshi, found, other, weights, c, teams) :: Honest(p, kalshi, other, c, teams)
  {
    if kalshi != [] {
      var n := |kalshi| - 1;
      GatheredAreHonest(kalshi[..n], found[..n], other, weights, c, teams);
      PairsAreHonest(kalshi[n], found[n], other, weights, c, teams);
    }
  }

  lemma GatheredLast(kalshi: seq<Market>, found: seq<seq<Entry>>, other: seq<Market>, weights: Weights, c: Config,
                     teams: (string, string) -> bool)
    requires |found| == |kalshi| && AllListed(found, other) && kalshi != []
    ensures var n := |kalshi| - 1;
            forall p :: p in Gathered(kalshi, found, other, weights, c, teams) <==>
              || p in Gathered(kalshi[..n], found[..n], other, weights, c, teams)
              || p in PairsOf(kalshi[n], found[n], other, weights, c, teams)
  {
  }

  /** What a candidate found leads to: its pair, if that scores enough to be recorded, is among those gathered. */
  lemma {:induction false} EveryCandidateIsEvaluated(kalshi: seq<Market>, found: seq<seq<Entry>>, other: seq<Market>,
                                                     weights: Weights, c: Config, teams: (string, string) -> bool,
                                                     i: nat, j: nat)
    requires |found| == |kalshi| && AllListed(found, other) && i < |found| && j < |found[i]|
    ensures var pair := Evaluate(kalshi[i], MarketOf(other, found[i][j]), weights, c, teams);
            pair.Some? ==> pair.value in Gathered(kalshi, found, other, weights, c, teams)
  {
    var n := |kalshi| - 1;
    var markets, lists := kalshi[..n], found[..n];
    GatheredLast(kalshi, found, other, weights, c, teams);
    if i < n {
      assert markets[i] == kalshi[i] && lists[i] == found[i];
      EveryCandidateIsEvaluated(markets, lists, other, weights, c, teams, i, j);
    } else {
      CandidateIsEvaluated(kalshi[n], found[n], other, weights, c, teams, j);
    }
  }

  lemma {:induction false} CandidateIsEvaluated(k: Market, candidates: seq<Entry>, other: seq<Market>, weights: Weights,
                                                c: Config, teams: (string, string) -> bool, j: nat)
    requires Listed(candidates, other) && j < |candidates|
    ensures var pair := Evaluate(k, MarketOf(other, candidates[j]), weights, c, teams);
            pair.Some? ==> pair.value in PairsOf(k, candidates, other, weights, c, teams)
  {
    if j < |candidates| - 1 {
      CandidateIsEvaluated(k, candidates[..|candidates| - 1], other, weights, c, teams, j);
    }
  }

  /** How many of a market's candidates score enough to be recorded. */
  function Recordable(k: Market, candidates: seq<Entry>, other: seq<Market>, weights: Weights, c: Config,
                      teams: (string, string) -> bool): nat
    requires Listed(candidates, other)
  {
    if candidates == [] then 0
    else
      var n := |candidates| - 1;
      Recordable(k, candidates[..n], other, weights, c, teams)
      + if ScoreOf(k, MarketOf(other, candidates[n]), weights, c, teams) >= c.minScore then 1 else 0
  }

  function AllRecordable(kalshi: seq<Market>, found: seq<seq<Entry>>, other: seq<Market>, weights: Weights, c: Config,
                         teams: (string, string) -> bool): nat
    requires |found| == |kalshi| && AllListed(found, other)
  {
    if kalshi == [] then 0
    else
      var n := |kalshi| - 1;
      AllRecordable(kalshi[..n], found[..n], other, weights, c, teams)
      + Recordable(kalshi[n], found[n], other, weights, c, teams)
  }

  lemma {:induction false} PairsAreCounted(k: Market, candidates: seq<Entry>, other: seq<Market>, weights: Weights,
                                           c: Config, teams: (string, string) -> bool)
    requires Listed(candidates, other)
    ensures |PairsOf(k, candidates, other, weights, c, teams)| == Recordable(k, candidates, other, weights, c, teams)
  {
    if candidates != [] {
      var n := |candidates| - 1;
      PairsAreCounted(k, candidates[..n], other, weights, c, teams);
      RecordedPairsSayTruly(k, MarketOf(other, candidates[n]), weights, c, teams);
    }
  }

  /** Nothing is recorded twice: there are as many pairs as candidates that score enough. */
  lemma {:induction false} EveryPairIsRecordedOnce(kalshi: seq<Market>, found: seq<seq<Entry>>, other: seq<Market>,
                                                   weights: Weights, c: Config, teams: (string, string) -> bool)
    requires |found| == |kalshi| && AllListed(found, other)
    ensures |Gathered(kalshi, found, other, weights, c, teams)|
            == AllRecordable(kalshi, found, other, weights, c, teams)
  {
    if kalshi != [] {
      var n := |kalshi| - 1;
      EveryPairIsRecordedOnce(kalshi[..n], found[..n], other, weights, c, teams);
      PairsAreCounted(kalshi[n], found[n], other, weights, c, teams);
    }
  }

  /** These are the candidates a full scan of the other venue ranks first for a market. */
  ghost predicate ScanFinds(candidates: seq<Entry>, k: Market, other: seq<Market>, weights: Weights, c: Config) {
    IsTop(candidates, c.maxCandidates, Seeds(k.entry.tokens, weights), Entries(other))
  }

  ghost predicate ScanFindsAll(found: seq<seq<Entry>>, kalshi: seq<Market>, other: seq<Market>, weights: Weights,
                               c: Config)
  {
    |found| == |kalshi| && forall i | 0 <= i < |kalshi| :: ScanFinds(found[i], kalshi[i], other, weights, c)
  }

  /** What has been gathered from some markets: their pairs, from the candidates a scan finds for each. */
  ghost predicate GatheredFrom(pairs: seq<Pair>, found: seq<seq<Entry>>, kalshi: seq<Market>, other: seq<Market>,
                               weights: Weights, c: Config, teams: (string, string) -> bool)
  {
    && ScanFindsAll(found, kalshi, other, weights, c) && AllListed(found, other)
    && pairs == Gathered(kalshi, found, other, weights, c, teams)
  }

  lemma NothingGathered(other: seq<Market>, weights: Weights, c: Config, teams: (string, string) -> bool)
    ensures GatheredFrom([], [], [], other, weights, c, teams)
  {
  }

  lemma OneMoreMarket(pairs: seq<Pair>, found: seq<seq<Entry>>, kalshi: seq<Market>, k: Market, candidates: seq<Entry>,
                      other: seq<Market>, weights: Weights, c: Config, teams: (string, string) -> bool)
    requires GatheredFrom(pairs, found, kalshi, other, weights, c, teams)
    requires ScanFinds(candidates, k, other, weights, c) && Listed(candidates, other)
    ensures GatheredFrom(pairs + PairsOf(k, candidates, other, weights, c, teams),
                         found + [candidates], kalshi + [k], other, weights, c, teams)
  {
    assert (kalshi + [k])[..|kalshi|] == kalshi && (found + [candidates])[..|kalshi|] == found;
  }

  method EvaluateAll(k: Market, candidates: seq<Entry>, other: seq<Market>, weights: Weights, c: Config,
                     teams: (string, string) -> bool)
    returns (pairs: seq<Pair>)
    requires Listed(candidates, other)
    ensures pairs == PairsOf(k, candidates, other, weights, c, teams)
  {
    pairs := [];
    for i := 0 to |candidates|
      invariant pairs == PairsOf(k, candidates[..i], other, weights, c, teams)
    {
      var pair := Evaluate(k, MarketOf(other, candidates[i]), weights, c, teams);
      if pair.Some? {
        pairs := pairs + [pair.value];
      }
      assert candidates[..i + 1][..i] == candidates[..i];
    }
    assert candidates[..|candidates|] == candidates;
  }

  method MatchOne(k: Market, other: seq<Market>, index: Index, weights: Weights, c: Config,
                  teams: (string, string) -> bool)
    returns (pairs: seq<Pair>, ghost candidates: seq<Entry>)
    requires DistinctIds(Entries(other)) && Indexes(index, Entries(other))
    ensures ScanFinds(candidates, k, other, weights, c) && Listed(candidates, other)
    ensures pairs == PairsOf(k, candidates, other, weights, c, teams)
  {
    var found := Candidates(k.entry.tokens, index, weights, c.maxCandidates, Entries(other));
    pairs := EvaluateAll(k, found, other, weights, c, teams);
    candidates := found;
  }

  method Gather(kalshi: seq<Market>, other: seq<Market>, index: Index, weights: Weights, c: Config,
                teams: (string, string) -> bool)
    returns (pairs: seq<Pair>, ghost found: seq<seq<Entry>>)
    requires DistinctIds(Entries(other)) && Indexes(index, Entries(other))
    ensures GatheredFrom(pairs, found, kalshi, other, weights, c, teams)
  {
    pairs, found := [], [];
    ghost var before: seq<Market> := [];
    NothingGathered(other, weights, c, teams);
    for i := 0 to |kalshi|
      invariant before == kalshi[..i]
      invariant GatheredFrom(pairs, found, before, other, weights, c, teams)
    {
      var k := kalshi[i];
      var more;
      ghost var candidates;
      more, candidates := MatchOne(k, other, index, weights, c, teams);
      OneMoreMarket(pairs, found, before, k, candidates, other, weights, c, teams);
      TakeOneMore(kalshi, i);
      pairs := pairs + more;
      before, found := before + [k], found + [candidates];
    }
    TakeAll(kalshi);
  }

  /**
   Match two venues: for each Kalshi market, the candidates a full scan of the other venue would rank
   first, evaluated, and all recorded pairs sorted strongest first; every verdict can be believed.
   */
  method MatchAll(kalshi: seq<Market>, other: seq<Market>, c: Config, log: real -> real,
                  teams: (string, string) -> bool)
    returns (pairs: seq<Pair>, ghost found: seq<seq<Entry>>, ghost weights: Weights)
    requires DistinctIds(Entries(other))
    ensures StrongestFirst(pairs) && forall p | p in pairs :: Honest(p, kalshi, other, c, teams)
    ensures kalshi == [] || other == [] ==> pairs == []
    ensures kalshi != [] && other != [] ==>
              && WeighsByRarity(weights, Entries(kalshi) + Entries(other), log)
              && ScanFindsAll(found, kalshi, other, weights, c) && AllListed(found, other)
              && multiset(pairs) == multiset(Gathered(kalshi, found, other, weights, c, teams))
              && |pairs| == AllRecordable(kalshi, found, other, weights, c, teams)
  {
    if kalshi == [] || other == [] {
      return [], [], map[];
    }
    var rarity := InverseDocumentFrequency(Entries(kalshi) + Entries(other), log);
    var index, _ := BuildIndex(Entries(other));
    var gathered;
    gathered, found := Gather(kalshi, other, index, rarity, c, teams);
    weights := rarity;
    GatheredAreHonest(kalshi, found, other, rarity, c, teams);
    EveryPairIsRecordedOnce(kalshi, found, other, rarity, c, teams);
    SortPairsSorts(gathered);
    pairs := SortPairs(gathered);
    assert |pairs| == |multiset(pairs)| && |gathered| == |multiset(gathered)|;
    assert forall p | p in pairs :: p in multiset(pairs) && p in multiset(gathered);
  }
}
