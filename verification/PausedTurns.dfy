/**
  One turn across pauses, crashes and changes of provider: runs of the two loops
  that start from the same growing log.  How many replies they leave in it, and
  how many calls they make.
 */
module PausedTurns {
  import opened JsonValue
  import opened Tables
  import opened ContextEvents
  import opened ProviderMessages
  import opened OpenAiTranscript
  import opened ProviderEquivalence
  import opened TurnCompaction
  import opened AgentLoop
  import opened AnthropicLoop
  import opened EventStore
  import CrashRecovery

  const ANTHROPIC := "anthropic"

  // -------------------------------------------------------------- one attempt

  /** A run of one of the two loops, with the states in which it called the model. */
  datatype Attempt =
    | OnOpenAi(provider: string, cfg: Config, world: World<Reply>, start: LoopState, sent: seq<LoopState>)
    | OnAnthropic(cfg: Config, anthropic: World<ReplyBlocks>, first: TurnState, requests: seq<TurnState>)

  function ProviderOf(a: Attempt): string {
    if a.OnOpenAi? then a.provider else ANTHROPIC
  }

  function Made(a: Attempt): nat {
    if a.OnOpenAi? then |a.sent| else |a.requests|
  }

  /** `a` is what its loop does from the resumed offset on. */
  ghost predicate Runs(codec: Codec, a: Attempt, offset: nat) {
    match a
    case OnOpenAi(provider, cfg, world, start, sent) => provider != ANTHROPIC && Calls(codec, cfg, world, offset, start, sent)
    case OnAnthropic(cfg, world, start, sent) => Requests(codec, cfg, world, offset, start, sent)
  }

  /** The reply with this index came back and reached the log. */
  predicate Kept(a: Attempt, index: nat) {
    match a
    case OnOpenAi(_, _, world, _, _) => world.replies(index).Some? && world.recorded(index)
    case OnAnthropic(_, world, _, _) => world.replies(index).Some? && world.recorded(index)
  }

  /** A call is kept when the model answered and the answer reached the log, whichever loop made it. */
  lemma KeptExactly(a: Attempt, index: nat)
    ensures a.OnOpenAi? ==> (Kept(a, index) <==> a.world.replies(index) != None && a.world.recorded(index))
    ensures a.OnAnthropic? ==> (Kept(a, index) <==> a.anthropic.replies(index) != None && a.anthropic.recorded(index))
  {
  }

  /** The last call left no record: it raised, or its reply did not reach the log. */
  predicate Lost(a: Attempt, offset: nat) {
    Made(a) > 0 && !Kept(a, offset + Made(a))
  }

  /** The replies of an attempt that reached the log. */
  function KeptIndices(a: Attempt, offset: nat): set<nat> {
    set index | offset < index <= offset + Made(a) && Kept(a, index)
  }

  function UpTo(offset: nat, n: nat): set<nat> {
    if n == 0 then {} else UpTo(offset, n - 1) + {offset + n}
  }

  lemma {:induction false} UpToCount(offset: nat, n: nat)
    ensures |UpTo(offset, n)| == n
    ensures forall index :: index in UpTo(offset, n) <==> offset < index <= offset + n
  {
    if n > 0 { UpToCount(offset, n - 1); }
  }

  /** A loop goes on only behind a recorded reply. */
  lemma GoesOnlyWhenKept(codec: Codec, a: Attempt, offset: nat, k: nat)
    requires Runs(codec, a, offset) && k + 1 < Made(a)
    ensures Kept(a, offset + 1 + k)
  {
    match a
    case OnOpenAi(_, cfg, world, _, sent) => assert AfterReply(codec, cfg, world, offset + 1 + k, sent[k]).Goes?;
    case OnAnthropic(cfg, world, _, sent) => assert AfterBlocks(cfg, world, offset + 1 + k, sent[k]).Continues?;
  }

  /** An attempt leaves one record for each of its calls, except when the last one is lost, and stays within the turn limit. */
  lemma KeptCount(codec: Codec, a: Attempt, offset: nat)
    requires Runs(codec, a, offset)
    ensures |KeptIndices(a, offset)| + (if Lost(a, offset) then 1 else 0) == Made(a)
    ensures Made(a) > 0 ==> offset + Made(a) <= TotalTurns(a.cfg)
  {
    hide *;
    LimitHolds(codec, a, offset);
    AllButLastKept(codec, a, offset);
    KeptAreCounted(a, offset);
  }

  ghost predicate AllButLast(a: Attempt, offset: nat) {
    forall index | offset < index < offset + Made(a) :: Kept(a, index)
  }

  lemma AllButLastKept(codec: Codec, a: Attempt, offset: nat)
    requires Runs(codec, a, offset)
    ensures AllButLast(a, offset)
  {
    hide Runs, Kept;
    forall index | offset < index < offset + Made(a) ensures Kept(a, index) {
      GoesOnlyWhenKept(codec, a, offset, index - offset - 1);
    }
  }

  lemma KeptAreCounted(a: Attempt, offset: nat)
    requires AllButLast(a, offset)
    ensures |KeptIndices(a, offset)| + (if Lost(a, offset) then 1 else 0) == Made(a)
  {
    hide Kept;
    var n := if Lost(a, offset) then Made(a) - 1 else Made(a);
    UpToCount(offset, n);
    assert KeptIndices(a, offset) == UpTo(offset, n);
  }

  lemma LimitHolds(codec: Codec, a: Attempt, offset: nat)
    requires Runs(codec, a, offset)
    ensures Made(a) > 0 ==> offset + Made(a) <= TotalTurns(a.cfg)
  {
    hide TotalTurns, AfterReply, AfterBlocks, Prepared, TurnPrepared;
  }

  // ------------------------------------------------------ message identities

  /** `_new_message_id`: a name for turn, provider and reply index. */
  type Naming = (TurnId, string, nat) -> string

  ghost predicate Injective(naming: Naming) {
    forall t, p, i, t', p', i' :: naming(t, p, i) == naming(t', p', i') ==> t == t' && p == p' && i == i'
  }

  /** The name of some loop's reply in this turn. */
  ghost predicate OfLoop(naming: Naming, turn: TurnId, id: string) {
    exists provider, index :: id == naming(turn, provider, index)
  }

  /** The message ids in the log of a turn. */
  function RepliesIn(codec: Codec, log: Events, turn: TurnId): set<string> {
    ResponseIds(codec, CrashRecovery.OfTurn(log, turn))
  }

  function KeptIds(naming: Naming, turn: TurnId, a: Attempt, offset: nat): set<string> {
    set index | index in KeptIndices(a, offset) :: naming(turn, ProviderOf(a), index)
  }

  /**
    What an attempt leaves in the log: its recorded replies under their names,
    and anything else that carries no name of the loops.
   */
  ghost predicate Grew(codec: Codec, naming: Naming, turn: TurnId, log: Events, log': Events, names: set<string>) {
    && log <= log'
    && names <= RepliesIn(codec, log'[|log|..], turn)
    && forall id | id in RepliesIn(codec, log'[|log|..], turn) :: id in names || !OfLoop(naming, turn, id)
  }

  lemma {:induction false} OfTurnSplits(a: Events, b: Events, turn: TurnId)
    ensures CrashRecovery.OfTurn(a + b, turn) == CrashRecovery.OfTurn(a, turn) + CrashRecovery.OfTurn(b, turn)
    decreases |b|
  {
    if b == [] {
      assert a + b == a;
    } else {
      var init, last := b[..|b| - 1], b[|b| - 1];
      assert a + b == (a + init) + [last] && b == init + [last];
      OfTurnSplits(a, init, turn);
      CrashRecovery.OfTurnAppend(a + init, last, turn);
    }
  }

  lemma RepliesGrow(codec: Codec, log: Events, log': Events, turn: TurnId)
    requires log <= log'
    ensures RepliesIn(codec, log', turn) == RepliesIn(codec, log, turn) + RepliesIn(codec, log'[|log|..], turn)
  {
    var more := log'[|log|..];
    assert log' == log + more;
    OfTurnSplits(log, more, turn);
    hide CrashRecovery.OfTurn, TextOr;
  }

  lemma {:induction false} ImageCount(indices: set<nat>, names: set<string>, naming: Naming, turn: TurnId, provider: string)
    requires Injective(naming)
    requires names == set index | index in indices :: naming(turn, provider, index)
    ensures |names| == |indices|
  {
    if indices != {} {
      var one :| one in indices;
      var fewer := set index | index in indices - {one} :: naming(turn, provider, index);
      ImageCount(indices - {one}, fewer, naming, turn, provider);
      assert names == fewer + {naming(turn, provider, one)};
    }
  }

  // ---------------------------------------------------------------- a history

  /** An attempt and the log it left. */
  datatype Round = Round(attempt: Attempt, log: Events)

  datatype History = History(first: Events, rounds: seq<Round>)

  /** The log after `n` rounds. */
  function LogAt(h: History, n: nat): Events
    requires n <= |h.rounds|
  {
    if n == 0 then h.first else h.rounds[n - 1].log
  }

  /** Where a run that starts after `n` rounds resumes. */
  function OffsetAt(codec: Codec, turn: TurnId, h: History, n: nat): nat
    requires n <= |h.rounds|
  {
    |RepliesIn(codec, LogAt(h, n), turn)|
  }

  ghost predicate RoundPlayed(codec: Codec, naming: Naming, turn: TurnId, log: Events, round: Round) {
    var offset := |RepliesIn(codec, log, turn)|;
    && Runs(codec, round.attempt, offset)
    && Grew(codec, naming, turn, log, round.log, KeptIds(naming, turn, round.attempt, offset))
  }

  /** Every attempt resumes from the log as it finds it and leaves its replies there. */
  ghost predicate Played(codec: Codec, naming: Naming, turn: TurnId, h: History) {
    && (forall id | id in RepliesIn(codec, h.first, turn) :: !OfLoop(naming, turn, id))
    && forall i | 0 <= i < |h.rounds| :: RoundPlayed(codec, naming, turn, LogAt(h, i), h.rounds[i])
  }

  /** The replies that the first `n` attempts recorded. */
  function KeptIn(codec: Codec, turn: TurnId, h: History, n: nat): nat
    requires n <= |h.rounds|
  {
    if n == 0 then 0
    else KeptIn(codec, turn, h, n - 1) + |KeptIndices(h.rounds[n - 1].attempt, OffsetAt(codec, turn, h, n - 1))|
  }

  function KeptBy(codec: Codec, turn: TurnId, h: History, provider: string, n: nat): nat
    requires n <= |h.rounds|
  {
    if n == 0 then 0
    else
      var a := h.rounds[n - 1].attempt;
      KeptBy(codec, turn, h, provider, n - 1)
      + if ProviderOf(a) == provider then |KeptIndices(a, OffsetAt(codec, turn, h, n - 1))| else 0
  }

  /** The calls of one provider in the first `n` attempts. */
  function CallsBy(h: History, provider: string, n: nat): nat
    requires n <= |h.rounds|
  {
    if n == 0 then 0
    else CallsBy(h, provider, n - 1) + if ProviderOf(h.rounds[n - 1].attempt) == provider then Made(h.rounds[n - 1].attempt) else 0
  }

  /** Its attempts whose last call left no record. */
  function LostBy(codec: Codec, turn: TurnId, h: History, provider: string, n: nat): nat
    requires n <= |h.rounds|
  {
    if n == 0 then 0
    else
      var a := h.rounds[n - 1].attempt;
      LostBy(codec, turn, h, provider, n - 1)
      + if ProviderOf(a) == provider && Lost(a, OffsetAt(codec, turn, h, n - 1)) then 1 else 0
  }

  ghost function LoopIds(codec: Codec, naming: Naming, turn: TurnId, log: Events): set<string> {
    set id | id in RepliesIn(codec, log, turn) && OfLoop(naming, turn, id)
  }

  /** The names of the loops in the log are those of replies numbered up to the count of all message ids. */
  ghost predicate Numbered(codec: Codec, naming: Naming, turn: TurnId, log: Events) {
    forall provider: string, index: nat | naming(turn, provider, index) in RepliesIn(codec, log, turn) ::
      index <= |RepliesIn(codec, log, turn)|
  }

  lemma NamesAreNew(naming: Naming, turn: TurnId, provider: string, kept: set<nat>, names: set<string>, before: set<string>)
    requires Injective(naming)
    requires forall p: string, index: nat | naming(turn, p, index) in before :: index <= |before|
    requires forall index | index in kept :: index > |before|
    requires names == set index | index in kept :: naming(turn, provider, index)
    ensures names !! before && |names| == |kept|
    ensures forall id | id in names :: OfLoop(naming, turn, id)
  {
    ImageCount(kept, names, naming, turn, provider);
    hide Injective;
  }

  lemma KeptIdsAreNew(codec: Codec, naming: Naming, turn: TurnId, log: Events, a: Attempt)
    requires Injective(naming) && Numbered(codec, naming, turn, log)
    ensures var before := RepliesIn(codec, log, turn);
      var names := KeptIds(naming, turn, a, |before|);
      names !! before && |names| == |KeptIndices(a, |before|)| && forall id | id in names :: OfLoop(naming, turn, id)
  {
    hide Injective, RepliesIn, OfLoop, Kept;
    var before := RepliesIn(codec, log, turn);
    NamesAreNew(naming, turn, ProviderOf(a), KeptIndices(a, |before|), KeptIds(naming, turn, a, |before|), before);
  }

  /** A round adds exactly the names of its recorded replies to those of the loops. */
  lemma GrowthIsFresh(codec: Codec, naming: Naming, turn: TurnId, log: Events, round: Round)
    requires Injective(naming) && Numbered(codec, naming, turn, log) && RoundPlayed(codec, naming, turn, log, round)
    ensures |LoopIds(codec, naming, turn, round.log)|
      == |LoopIds(codec, naming, turn, log)| + |KeptIndices(round.attempt, |RepliesIn(codec, log, turn)|)|
  {
    hide RepliesIn, Injective, OfLoop, Numbered, KeptIds, KeptIndices, Runs, LoopIds;
    var before := RepliesIn(codec, log, turn);
    RepliesGrow(codec, log, round.log, turn);
    KeptIdsAreNew(codec, naming, turn, log, round.attempt);
    LoopIdsGrow(codec, naming, turn, log, round.log, KeptIds(naming, turn, round.attempt, |before|));
  }

  lemma LoopIdsGrow(codec: Codec, naming: Naming, turn: TurnId, log: Events, log': Events, names: set<string>)
    requires Grew(codec, naming, turn, log, log', names)
    requires names !! RepliesIn(codec, log, turn) && forall id | id in names :: OfLoop(naming, turn, id)
    ensures |LoopIds(codec, naming, turn, log')| == |LoopIds(codec, naming, turn, log)| + |names|
  {
    RepliesGrow(codec, log, log', turn);
    hide RepliesIn, OfLoop;
    assert LoopIds(codec, naming, turn, log') == LoopIds(codec, naming, turn, log) + names;
    assert LoopIds(codec, naming, turn, log) !! names;
  }

  lemma GrowthIsNumbered(codec: Codec, naming: Naming, turn: TurnId, log: Events, round: Round)
    requires Injective(naming) && Numbered(codec, naming, turn, log) && RoundPlayed(codec, naming, turn, log, round)
    ensures Numbered(codec, naming, turn, round.log)
  {
    var before, after := RepliesIn(codec, log, turn), RepliesIn(codec, round.log, turn);
    var a := round.attempt;
    var names := KeptIds(naming, turn, a, |before|);
    RepliesGrow(codec, log, round.log, turn);
    KeptIdsAreNew(codec, naming, turn, log, a);
    hide RepliesIn, KeptIndices, Runs;
    MoreIsLarger(before + names, after);
    forall provider: string, index: nat | naming(turn, provider, index) in after ensures index <= |after| {
      if naming(turn, provider, index) !in before {
        assert OfLoop(naming, turn, naming(turn, provider, index));
        KeptIdsIndex(naming, turn, a, |before|, provider, index);
        LastKept(codec, a, |before|, index);
      }
    }
  }

  lemma KeptIdsIndex(naming: Naming, turn: TurnId, a: Attempt, offset: nat, provider: string, index: nat)
    requires Injective(naming) && naming(turn, provider, index) in KeptIds(naming, turn, a, offset)
    ensures index in KeptIndices(a, offset)
  {
    hide KeptIndices;
  }

  lemma LastKept(codec: Codec, a: Attempt, offset: nat, index: nat)
    requires Runs(codec, a, offset) && index in KeptIndices(a, offset)
    ensures index <= offset + |KeptIndices(a, offset)|
  {
    KeptCount(codec, a, offset);
    hide Runs;
  }

  lemma MoreIsLarger<T>(a: set<T>, b: set<T>)
    requires a <= b
    ensures |a| <= |b|
  {
    assert b == a + (b - a);
  }

  lemma PlayedStep(codec: Codec, naming: Naming, turn: TurnId, h: History, i: nat)
    requires Played(codec, naming, turn, h) && i < |h.rounds|
    ensures OffsetAt(codec, turn, h, i) == |RepliesIn(codec, LogAt(h, i), turn)|
    ensures RoundPlayed(codec, naming, turn, LogAt(h, i), h.rounds[i])
    ensures Runs(codec, h.rounds[i].attempt, OffsetAt(codec, turn, h, i))
  {
    hide Runs, Grew, KeptIds, RepliesIn;
  }

  /**
    No reply is ever recorded under a name that is there already: in every
    history the names of the loops in the log are as many as the recorded
    replies, so the offset of a run is their number and that of the other
    messages of the turn.
   */
  lemma {:induction false} RepliesAreCounted(codec: Codec, naming: Naming, turn: TurnId, h: History, n: nat)
    requires Played(codec, naming, turn, h) && Injective(naming) && n <= |h.rounds|
    ensures Numbered(codec, naming, turn, LogAt(h, n))
    ensures |LoopIds(codec, naming, turn, LogAt(h, n))| == KeptIn(codec, turn, h, n)
    ensures |RepliesIn(codec, LogAt(h, n), turn)|
      == KeptIn(codec, turn, h, n) + |set id | id in RepliesIn(codec, LogAt(h, n), turn) && !OfLoop(naming, turn, id)|
  {
    hide *;
    if n == 0 {
      NoReplyYet(codec, naming, turn, h);
    } else {
      RepliesAreCounted(codec, naming, turn, h, n - 1);
      PlayedStep(codec, naming, turn, h, n - 1);
      GrowthIsFresh(codec, naming, turn, LogAt(h, n - 1), h.rounds[n - 1]);
      GrowthIsNumbered(codec, naming, turn, LogAt(h, n - 1), h.rounds[n - 1]);
      KeptInStep(codec, turn, h, n);
    }
    LoopsAndOthers(codec, naming, turn, LogAt(h, n));
  }

  lemma NoReplyYet(codec: Codec, naming: Naming, turn: TurnId, h: History)
    requires Played(codec, naming, turn, h)
    ensures Numbered(codec, naming, turn, LogAt(h, 0)) && |LoopIds(codec, naming, turn, LogAt(h, 0))| == KeptIn(codec, turn, h, 0)
  {
    hide Runs, Grew, RepliesIn;
    assert LoopIds(codec, naming, turn, LogAt(h, 0)) == {};
    forall provider: string, index: nat ensures naming(turn, provider, index) !in RepliesIn(codec, LogAt(h, 0), turn) {
      assert OfLoop(naming, turn, naming(turn, provider, index));
    }
  }

  lemma KeptInStep(codec: Codec, turn: TurnId, h: History, n: nat)
    requires 0 < n <= |h.rounds|
    ensures LogAt(h, n) == h.rounds[n - 1].log
    ensures KeptIn(codec, turn, h, n)
      == KeptIn(codec, turn, h, n - 1) + |KeptIndices(h.rounds[n - 1].attempt, OffsetAt(codec, turn, h, n - 1))|
  {
    hide KeptIndices, RepliesIn;
  }

  lemma LoopsAndOthers(codec: Codec, naming: Naming, turn: TurnId, log: Events)
    ensures |RepliesIn(codec, log, turn)|
      == |LoopIds(codec, naming, turn, log)| + |set id | id in RepliesIn(codec, log, turn) && !OfLoop(naming, turn, id)|
  {
    var all := RepliesIn(codec, log, turn);
    var others := set id | id in all && !OfLoop(naming, turn, id);
    hide RepliesIn, OfLoop;
    assert all == LoopIds(codec, naming, turn, log) + others;
  }

  lemma {:induction false} OneOfAll(codec: Codec, turn: TurnId, h: History, provider: string, n: nat)
    requires n <= |h.rounds|
    ensures KeptBy(codec, turn, h, provider, n) <= KeptIn(codec, turn, h, n)
  {
    hide *;
    CallsByCases(codec, turn, h, provider, n);
    if n > 0 {
      OneOfAll(codec, turn, h, provider, n - 1);
      KeptInStep(codec, turn, h, n);
    }
  }

  ghost predicate SameTotal(h: History, provider: string, total: nat) {
    forall r | r in h.rounds && ProviderOf(r.attempt) == provider :: TotalTurns(r.attempt.cfg) == total
  }

  /** One provider's recorded replies for a turn, counted across all pauses and switches, never exceed its turn limit. */
  lemma {:induction false} RepliesNeverExceedTotal(
    codec: Codec, naming: Naming, turn: TurnId, h: History, provider: string, total: nat, n: nat)
    requires Played(codec, naming, turn, h) && Injective(naming) && n <= |h.rounds| && SameTotal(h, provider, total)
    ensures KeptBy(codec, turn, h, provider, n) <= total
  {
    hide *;
    CallsByCases(codec, turn, h, provider, n);
    if n > 0 {
      RepliesNeverExceedTotal(codec, naming, turn, h, provider, total, n - 1);
      PlayedStep(codec, naming, turn, h, n - 1);
      if ProviderOf(h.rounds[n - 1].attempt) == provider { TotalIs(h, provider, total, n - 1); }
      KeptCount(codec, h.rounds[n - 1].attempt, OffsetAt(codec, turn, h, n - 1));
      OneOfAll(codec, turn, h, provider, n - 1);
      RepliesAreCounted(codec, naming, turn, h, n - 1);
    }
  }

  lemma TotalIs(h: History, provider: string, total: nat, i: nat)
    requires SameTotal(h, provider, total) && i < |h.rounds| && ProviderOf(h.rounds[i].attempt) == provider
    ensures TotalTurns(h.rounds[i].attempt.cfg) == total
  {
    hide TotalTurns;
    assert h.rounds[i] in h.rounds;
  }

  /** Every call left a reply in the log or was the lost last one of its attempt. */
  lemma {:induction false} CallsAreRepliesAndLosses(codec: Codec, naming: Naming, turn: TurnId, h: History, provider: string, n: nat)
    requires Played(codec, naming, turn, h) && n <= |h.rounds|
    ensures CallsBy(h, provider, n) == KeptBy(codec, turn, h, provider, n) + LostBy(codec, turn, h, provider, n)
  {
    hide *;
    CallsByCases(codec, turn, h, provider, n);
    if n > 0 {
      CallsAreRepliesAndLosses(codec, naming, turn, h, provider, n - 1);
      PlayedStep(codec, naming, turn, h, n - 1);
      KeptCount(codec, h.rounds[n - 1].attempt, OffsetAt(codec, turn, h, n - 1));
    }
  }

  lemma CallsByCases(codec: Codec, turn: TurnId, h: History, provider: string, n: nat)
    requires n <= |h.rounds|
    ensures n == 0 ==> CallsBy(h, provider, n) == KeptBy(codec, turn, h, provider, n) == LostBy(codec, turn, h, provider, n) == 0
    ensures n > 0 ==>
      var a, offset := h.rounds[n - 1].attempt, OffsetAt(codec, turn, h, n - 1);
      && CallsBy(h, provider, n) == CallsBy(h, provider, n - 1) + (if ProviderOf(a) == provider then Made(a) else 0)
      && LostBy(codec, turn, h, provider, n)
         == LostBy(codec, turn, h, provider, n - 1) + (if ProviderOf(a) == provider && Lost(a, offset) then 1 else 0)
      && KeptBy(codec, turn, h, provider, n)
         == KeptBy(codec, turn, h, provider, n - 1) + (if ProviderOf(a) == provider then |KeptIndices(a, offset)| else 0)
  {
    hide KeptIndices, RepliesIn, Lost;
  }

  /**
    The calls of one provider for a turn, across all pauses, stay within its turn
    limit if and only if its lost calls are no more than the replies it had left
    at the end; they exceed the limit by at most the lost calls.
   */
  lemma CallsWithinTotalExactly(codec: Codec, naming: Naming, turn: TurnId, h: History, provider: string, total: nat)
    requires Played(codec, naming, turn, h) && Injective(naming) && SameTotal(h, provider, total)
    ensures var n := |h.rounds|;
      var calls, lost := CallsBy(h, provider, n), LostBy(codec, turn, h, provider, n);
      && calls <= total + lost
      && (calls <= total <==> lost <= total - KeptBy(codec, turn, h, provider, n))
  {
    hide Played;
    RepliesNeverExceedTotal(codec, naming, turn, h, provider, total, |h.rounds|);
    CallsAreRepliesAndLosses(codec, naming, turn, h, provider, |h.rounds|);
  }

  // ------------------------------------------------------------- lost calls

  /** A turn limit of one, and a model that never answers. */
  const LIMIT_ONE := Config(1, 0, 0, 0, false)

  function Silent(): World<Reply> {
    World((n: nat) => None, (n: nat) => true, (n: nat) => [], (n: nat) => false, (n: nat) => false,
          (n: nat, k: nat) => Raised, (n: nat, k: nat) => Raised, (n: nat, k: nat, name: string) => "", (raw: string) => raw,
          (text: string) => false, (text: string) => false, (text: string) => false, false, "", (n: nat) => "")
  }

  function SilentRound(): Round {
    var start := LoopState([], 0, 0, 0, 0);
    Round(OnOpenAi("openai", LIMIT_ONE, Silent(), start, [start]), [])
  }

  function SilentHistory(n: nat): (h: History)
    ensures |h.rounds| == n
  {
    History([], seq(n, i => SilentRound()))
  }

  lemma SilentRoundPlayed(codec: Codec, naming: Naming, turn: TurnId)
    ensures RoundPlayed(codec, naming, turn, [], SilentRound())
    ensures RepliesIn(codec, [], turn) == {} && KeptIndices(SilentRound().attempt, 0) == {} && Lost(SilentRound().attempt, 0)
  {
    var start := LoopState([], 0, 0, 0, 0);
    assert RepliesIn(codec, [], turn) == {};
    assert start.messages + AgentLoop.Steered(Silent().steers(1)) == start.messages;
    assert KeptIndices(SilentRound().attempt, 0) == {};
  }

  lemma SilentPlayed(codec: Codec, naming: Naming, turn: TurnId, n: nat)
    ensures Played(codec, naming, turn, SilentHistory(n))
  {
    var h := SilentHistory(n);
    SilentRoundPlayed(codec, naming, turn);
    hide RoundPlayed, KeptIndices, Lost, RepliesIn;
    forall i | 0 <= i < n ensures RoundPlayed(codec, naming, turn, LogAt(h, i), h.rounds[i]) {
      SilentRoundIs(n, i);
    }
  }

  lemma SilentRoundIs(n: nat, i: nat)
    requires i < n
    ensures LogAt(SilentHistory(n), i) == [] && SilentHistory(n).rounds[i] == SilentRound()
  {
  }

  lemma {:induction false} SilentCounts(codec: Codec, naming: Naming, turn: TurnId, n: nat, m: nat)
    requires m <= n
    ensures CallsBy(SilentHistory(n), "openai", m) == m && KeptBy(codec, turn, SilentHistory(n), "openai", m) == 0
  {
    hide *;
    CallsByCases(codec, turn, SilentHistory(n), "openai", m);
    if m > 0 {
      SilentCounts(codec, naming, turn, n, m - 1);
      SilentRoundIs(n, m - 1);
      SilentRoundPlayed(codec, naming, turn);
      SilentRoundMakes(codec, turn, n, m - 1);
    }
  }

  lemma SilentRoundMakes(codec: Codec, turn: TurnId, n: nat, i: nat)
    requires i < n && RepliesIn(codec, [], turn) == {}
    requires LogAt(SilentHistory(n), i) == [] && SilentHistory(n).rounds[i] == SilentRound()
    ensures OffsetAt(codec, turn, SilentHistory(n), i) == 0
    ensures ProviderOf(SilentRound().attempt) == "openai" && Made(SilentRound().attempt) == 1
  {
    hide RepliesIn, LogAt, SilentHistory;
  }

  /**
    A call that raises leaves no reply, so the next attempt makes it again: with
    a turn limit of one, `n` such attempts make `n` calls and record none.
   */
  lemma LostCallsAddUp(codec: Codec, naming: Naming, turn: TurnId, n: nat)
    ensures var h := SilentHistory(n);
      && Played(codec, naming, turn, h) && SameTotal(h, "openai", 1)
      && CallsBy(h, "openai", n) == n && KeptBy(codec, turn, h, "openai", n) == 0
  {
    SilentPlayed(codec, naming, turn, n);
    SilentCounts(codec, naming, turn, n, n);
    assert TotalTurns(LIMIT_ONE) == 1;
    hide Played, CallsBy, KeptBy;
  }

  // ---------------------------------------------------------- the next record

  /** The message id an event counts under. */
  function ReplyId(codec: Codec, e: Event): string {
    TextOr(codec, e.payload, "message_id", e.id)
  }

  /** The events under a reply's key are that reply, in the turn whose loop named it. */
  ghost predicate KeyedReplies(codec: Codec, naming: Naming, conversation: ConversationId, log: Events) {
    forall e | e in log && e.conversation == conversation && e.key.Some? && e.key.value.AssistantOf? ::
      && e.kind.AssistantMessage? && ReplyId(codec, e) == e.key.value.reply
      && forall turn | OfLoop(naming, turn, e.key.value.reply) :: e.turn == turn
  }

  /** The record of a reply past the offset never meets an event under its key: it is appended, or nothing is. */
  lemma NextReplyIsAppended(
    codec: Codec, naming: Naming, turns: Turns, log: Events, d: Draft, provider: string, index: nat, id: string, at: Time, quota: nat)
    requires Injective(naming) && Numbered(codec, naming, d.turn, log) && KeyedReplies(codec, naming, d.conversation, log)
    requires index > |RepliesIn(codec, log, d.turn)|
    requires d.key == Some(AssistantOf(naming(d.turn, provider, index)))
    ensures !AppendOutcome(turns, log, d, true, id, at, quota).Existing?
    ensures !AppendOutcome(turns, log, d, true, id, at, quota).KeyTaken?
  {
    var name := naming(d.turn, provider, index);
    FindKeyMeans(log, d.conversation, AssistantOf(name));
    hide FindKey, Placed, CountIn, RepliesIn;
    if FindKey(log, d.conversation, AssistantOf(name)).Some? {
      assert OfLoop(naming, d.turn, name);
      KeyedReplyCounts(codec, naming, log, FindKey(log, d.conversation, AssistantOf(name)).value, d.conversation, d.turn, name);
      assert false;
    }
  }

  lemma KeyedReplyCounts(
    codec: Codec, naming: Naming, log: Events, e: Event, conversation: ConversationId, turn: TurnId, name: string)
    requires KeyedReplies(codec, naming, conversation, log) && OfLoop(naming, turn, name)
    requires e in log && HasKey(e, conversation, AssistantOf(name))
    ensures name in RepliesIn(codec, log, turn)
  {
    CrashRecovery.OfTurnMembers(log, turn);
    hide CrashRecovery.OfTurn;
  }

  // --------------------------------------------------- from the log to its run

  function OpenAiStart(codec: Codec, log: Events, turn: TurnId, prompt: string, system: string): LoopState {
    LoopState([SystemMsg(system)] + ProviderChat(codec, log, prompt, Some(turn)), 0, |EditIds(codec, CrashRecovery.OfTurn(log, turn))|, 0, 0)
  }

  function AnthropicStart(codec: Codec, log: Events, turn: TurnId, prompt: string): TurnState {
    TurnState(ProviderTurns(codec, log, prompt, Some(turn)), 0, |EditIds(codec, CrashRecovery.OfTurn(log, turn))|, 0, 0)
  }

  /** `_run_agent_with_provider`: the history and the progress of the turn, and the loop of its provider from there. */
  method RunAgent(
    codec: Codec, provider: string, cfg: Config, openAi: World<Reply>, anthropic: World<ReplyBlocks>,
    log: Events, turn: TurnId, prompt: string, system: string)
    returns (a: Attempt, outcome: Outcome)
    ensures ProviderOf(a) == provider && Runs(codec, a, |RepliesIn(codec, log, turn)|)
    ensures a.OnOpenAi? ==> a.start == OpenAiStart(codec, log, turn, prompt, system) && a.world == openAi && a.cfg == cfg
    ensures a.OnAnthropic? ==> a.first == AnthropicStart(codec, log, turn, prompt) && a.anthropic == anthropic && a.cfg == cfg
  {
    var offset, edits := ResumeProgress(codec, CrashRecovery.OfTurn(log, turn));
    hide Calls, Requests, TotalTurns, AfterReply, AfterBlocks, ProviderChat, ProviderTurns, ResponseIds, EditIds;
    if provider == ANTHROPIC {
      var messages := BuildProviderTurns(codec, log, prompt, Some(turn));
      var first := TurnState(messages, 0, edits, 0, 0);
      var requests;
      requests, outcome := RunAnthropic(codec, cfg, anthropic, offset, first);
      a := OnAnthropic(cfg, anthropic, first, requests);
    } else {
      var messages := BuildProviderChat(codec, log, prompt, Some(turn));
      var start := LoopState([SystemMsg(system)] + messages, 0, edits, 0, 0);
      var sent;
      sent, outcome := RunOpenAi(codec, cfg, openAi, offset, start);
      a := OnOpenAi(provider, cfg, openAi, start, sent);
    }
  }

  /**
    From the log to the provider: when no call id is shown under two messages of
    the selected log, every request of the run that starts from it is well-formed.
   */
  lemma EveryRequestFromLogFormed(
    codec: Codec, log: Events, turn: TurnId, prompt: string, system: string, a: Attempt, k: nat)
    requires NoReuse(SelectContext(codec, log))
    requires a.OnOpenAi? && a.start == OpenAiStart(codec, log, turn, prompt, system)
    requires Runs(codec, a, |RepliesIn(codec, log, turn)|) && k < |a.sent|
    ensures WellFormed(a.sent[k].messages)
  {
    hide Calls, ProviderChat, RepliesIn, SelectContext, NoReuse, WellFormed;
    ProviderHistoryFormed(codec, log, prompt, Some(turn));
    StartFormed(system, ProviderChat(codec, log, prompt, Some(turn)));
    EveryRequestFormed(codec, a.cfg, a.world, |RepliesIn(codec, log, turn)|, a.start, a.sent, k);
  }

  /** The same for the other provider, whose compaction also needs the rebuilt answers unmixed. */
  lemma EveryRequestFromLogProper(codec: Codec, log: Events, turn: TurnId, prompt: string, a: Attempt, k: nat)
    requires NoReuse(SelectContext(codec, log)) && PureAnswers(ProviderTurns(codec, log, prompt, Some(turn)))
    requires a.OnAnthropic? && a.first == AnthropicStart(codec, log, turn, prompt)
    requires Runs(codec, a, |RepliesIn(codec, log, turn)|) && k < |a.requests|
    ensures Proper(a.requests[k].messages)
  {
    hide Requests, ProviderTurns, RepliesIn, SelectContext, NoReuse, AnsweredTurns, PureAnswers;
    ProviderHistoryFormed(codec, log, prompt, Some(turn));
    EveryRequestProper(codec, a.cfg, a.anthropic, |RepliesIn(codec, log, turn)|, a.first, a.requests, k);
  }
}
