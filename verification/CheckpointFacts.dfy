/**
  What a checkpoint says, told from the events: the facts each event offers, that
  the summary holds each of them once, and when a summary is due.
 */
module CheckpointFacts {
  import opened JsonValue
  import opened Tables
  import opened EventStore
  import opened ContextEvents
  import opened Checkpoints

  // ------------------------------------------------------------- blanks squeezed

  /** The non-blank characters of a text, each with whether a blank or the start stands before it. */
  function Marks(s: string, gap: bool): seq<(char, bool)> {
    if s == "" then []
    else if Space(s[0]) then Marks(s[1..], true)
    else [(s[0], gap)] + Marks(s[1..], false)
  }

  /** No blank at either end, no two together, and no other blank than the space. */
  ghost predicate Neat(s: string) {
    && (s != "" ==> !Space(s[0]) && !Space(s[|s| - 1]))
    && forall i | 0 <= i < |s| && Space(s[i]) :: s[i] == ' ' && (i + 1 < |s| ==> !Space(s[i + 1]))
  }

  lemma {:induction false} LeadingBlanks(s: string)
    ensures Marks(StripLeft(s), true) == Marks(s, true)
  {
    if s != "" && Space(s[0]) { LeadingBlanks(s[1..]); }
  }

  lemma {:induction false} MarksOfWord(s: string, gap: bool)
    ensures Word(s) <= s && (forall i | 0 <= i < |Word(s)| :: !Space(s[i]))
    ensures |Word(s)| < |s| ==> Space(s[|Word(s)|])
    ensures Word(s) != "" ==> Marks(s, gap) == Marks(Word(s), gap) + Marks(s[|Word(s)|..], false)
  {
    if s != "" && !Space(s[0]) {
      MarksOfWord(s[1..], false);
      var w := Word(s[1..]);
      assert Word(s) == [s[0]] + w && Word(s)[1..] == w;
      assert s[1..][|w|..] == s[|Word(s)|..];
      if w == "" { assert Marks(w, false) == [] && s[1..] == s[|Word(s)|..]; }
    }
  }

  lemma {:induction false} MarksJoin(w: string, rest: string, gap: bool)
    requires forall i | 0 <= i < |w| :: !Space(w[i])
    ensures w != "" ==> Marks(w + rest, gap) == Marks(w, gap) + Marks(rest, false)
  {
    if w != "" {
      assert (w + rest)[1..] == w[1..] + rest;
      MarksJoin(w[1..], rest, false);
      if w[1..] == "" { assert w[1..] + rest == rest; }
    }
  }

  lemma MarksAtGap(s: string)
    requires s != "" && Space(s[0])
    ensures Marks(s, false) == Marks(s, true)
  {
  }

  /** Squeezing changes nothing but the blanks: the words stay, apart by one space each. */
  lemma {:induction false} SqueezedExactly(s: string)
    ensures Marks(Squeezed(s), true) == Marks(s, true) && Neat(Squeezed(s))
    decreases |s|
  {
    StripLeftShrinks(s);
    LeadingBlanks(s);
    var t := StripLeft(s);
    if t != "" {
      MarksOfWord(t, true);
      var w := Word(t);
      assert w == [t[0]] + Word(t[1..]);
      var tail := t[|w|..];
      SqueezedExactly(tail);
      var rest := Squeezed(tail);
      if tail != "" { MarksAtGap(tail); } else { assert Marks(tail, true) == [] == Marks(tail, false); }
      if rest == "" {
        assert Marks(rest, true) == [];
        assert Squeezed(s) == w;
      } else {
        assert Squeezed(s) == w + (" " + rest);
        MarksJoin(w, " " + rest, true);
        assert (" " + rest)[1..] == rest;
        JoinIsNeat(w, rest);
      }
    }
  }

  lemma JoinIsNeat(w: string, rest: string)
    requires w != "" && (forall i | 0 <= i < |w| :: !Space(w[i])) && rest != "" && Neat(rest)
    ensures Neat(w + (" " + rest))
  {
    var s := w + (" " + rest);
    hide Space;
    assert forall i | 0 <= i < |s| :: s[i] == if i < |w| then w[i] else if i == |w| then ' ' else rest[i - |w| - 1];
  }

  // ---------------------------------------------------------- what events offer

  /** The text of a field, or `other` when there is nothing in it. */
  function Spelled(codec: Codec, payload: Json, key: string, other: string): string {
    if !Holds(payload, key) then other
    else
      match Get(payload, key).value
      case Str(s) => s
      case v => codec.show(v)
  }

  /** The changed file that an entry of a list of changes names. */
  ghost predicate NamesFile(item: Json, path: string, change: Json) {
    && path != ""
    && match item
       case Str(s) => s == path && change == Str("changed")
       case Obj(fields) =>
         "path" in fields && fields["path"] == Str(path) && change == (if "change" in fields then fields["change"] else Null)
       case _ => false
  }

  ghost predicate OfTool(codec: Codec, payload: Json, status: string, extra: map<string, Json>) {
    extra == map["tool_call_id" := ValueAt(payload, "tool_call_id"), "name" := Str(Spelled(codec, payload, "name", "tool")), "status" := Str(status)]
  }

  ghost predicate ResultOffers(codec: Codec, payload: Json, c: Category, text: string, extra: map<string, Json>) {
    var name, output := Spelled(codec, payload, "name", "tool"), Spelled(codec, payload, "model_output", "");
    var good := Get(payload, "ok") == Some(Bool(true));
    match c
    case ToolFacts =>
      && text == name + (if good then " succeeded: " else " failed: ") + output
      && OfTool(codec, payload, if good then "succeeded" else "failed", extra)
    case Tests => name == "run_gradle" && text == output && extra == map["ok" := Bool(good), "name" := Str("run_gradle")]
    case Errors =>
      && !good && text == (if output != "" then output else name + " failed")
      && extra == map["error_type" := ValueAt(payload, "error_type"), "tool_call_id" := ValueAt(payload, "tool_call_id")]
    case Unresolved => !good && text == "Resolve failed tool " + name && extra == map[]
    case _ => false
  }

  /** The changes an event lists, under the newer key or else the older one. */
  function ListedChanges(payload: Json): seq<Json> {
    match (Get(payload, "files"), Get(payload, "changed_files"))
    case (Some(Arr(items)), _) => items
    case (None, Some(Arr(items))) => items
    case _ => []
  }

  function Reply(codec: Codec, payload: Json): string {
    match Get(payload, "text_blocks")
    case Some(Arr(blocks)) => JoinTextBlocks(blocks)
    case _ => Spelled(codec, payload, "text", "")
  }

  /** What an event offers to the summary: a category, a text and the fields that go with it. */
  ghost predicate Offers(codec: Codec, digest: Digest, e: Event, c: Category, text: string, extra: map<string, Json>) {
    e.seqNo > 0 &&
    match e.kind
    case UserMessage =>
      extra == map[] && ((c == Goal && text == UserText(e.payload)) || (c == Constraints && text in digest.constraintLines(UserText(e.payload))))
    case AssistantMessage =>
      c == Decisions && text == Reply(codec, e.payload) && text != "" && Get(e.payload, "is_final") == Some(Bool(true)) && extra == map[]
    case ToolCall =>
      && c == ToolFacts && text == Spelled(codec, e.payload, "name", "tool") + " called with " + digest.calledText(e.payload)
      && OfTool(codec, e.payload, "requested", extra)
    case ToolResult => ResultOffers(codec, e.payload, c, text, extra)
    case Changes => c == Files && exists item, change :: item in ListedChanges(e.payload) && NamesFile(item, text, change) && extra == map["change" := change]
    case _ =>
      && e.kind in {TurnFailed, TurnInterrupted, TurnCanceled}
      && text == Spelled(codec, e.payload, "error", Spelled(codec, e.payload, "message", digest.kindName(e.kind)))
      && ((c == Errors && extra == map["error_type" := Str(digest.kindName(e.kind))]) || (c == Unresolved && extra == map[]))
  }

  lemma SpelledIs(codec: Codec, payload: Json, key: string, other: string)
    ensures TextOr(codec, payload, key, other) == Spelled(codec, payload, key, other)
  {
    hide Truthy;
  }

  lemma {:induction false} FilesOffered(items: seq<Json>, source: int, f: Fact)
    ensures f in FileFacts(items, source) <==>
      f.category == Files && f.source == source
      && exists item, change :: item in items && NamesFile(item, f.text, change) && f.extra == map["change" := change]
  {
    if items != [] {
      FilesOffered(items[1..], source, f);
      assert items == [items[0]] + items[1..];
      FilesSplit(items, source);
      FirstFile(items[0], source, f);
      hide NamesFile, FileFacts;
    }
  }

  lemma FilesSplit(items: seq<Json>, source: int)
    requires items != []
    ensures FileFacts(items, source) == FileFacts([items[0]], source) + FileFacts(items[1..], source)
  {
    assert [items[0]][1..] == [] && FileFacts([], source) == [];
  }

  lemma FirstFile(item: Json, source: int, f: Fact)
    ensures f in FileFacts([item], source) <==>
      f.category == Files && f.source == source && exists change :: NamesFile(item, f.text, change) && f.extra == map["change" := change]
  {
    assert [item][1..] == [] && FileFacts([], source) == [];
    match item
    case Str(path) =>
      if f in FileFacts([item], source) { assert NamesFile(item, f.text, Str("changed")); }
    case Obj(fields) =>
      if f in FileFacts([item], source) { assert NamesFile(item, f.text, ValueAt(item, "change")); }
    case _ =>
  }

  /** An event's facts are what it offers, with its own number as their source. */
  lemma FactsAreOffered(codec: Codec, digest: Digest, e: Event, f: Fact)
    ensures f in FactsOf(codec, digest, e) <==> f.source == e.seqNo && Offers(codec, digest, e, f.category, f.text, f.extra)
  {
    SpelledIs(codec, e.payload, "name", "tool");
    SpelledIs(codec, e.payload, "text", "");
    match e.kind
    case UserMessage => hide UserText; LinesOffered(digest.constraintLines(UserText(e.payload)), e.seqNo, f);
    case ToolResult => ResultIsOffered(codec, e, f);
    case Changes =>
      hide NamesFile;
      FilesOffered(ListedChanges(e.payload), e.seqNo, f);
    case AssistantMessage => hide JoinTextBlocks, Spelled, TextOr;
    case ToolCall => hide Spelled, TextOr;
    case _ =>
      SpelledIs(codec, e.payload, "message", digest.kindName(e.kind));
      SpelledIs(codec, e.payload, "error", Spelled(codec, e.payload, "message", digest.kindName(e.kind)));
      hide Spelled, TextOr;
  }

  lemma LinesOffered(lines: seq<string>, source: int, f: Fact)
    ensures f in LineFacts(lines, source) <==> f.category == Constraints && f.text in lines && f.source == source && f.extra == map[]
  {
    if f.category == Constraints && f.text in lines && f.source == source && f.extra == map[] {
      var i :| 0 <= i < |lines| && lines[i] == f.text;
      assert LineFacts(lines, source)[i] == f;
    }
  }

  lemma ResultIsOffered(codec: Codec, e: Event, f: Fact)
    ensures f in ResultFacts(codec, e) <==> f.source == e.seqNo && ResultOffers(codec, e.payload, f.category, f.text, f.extra)
  {
    SpelledIs(codec, e.payload, "name", "tool");
    SpelledIs(codec, e.payload, "model_output", "");
    hide Spelled, TextOr;
  }

  // ----------------------------------------------------- each once, in order

  /** The same fact, whatever event it is from. */
  predicate Alike(a: Fact, b: Fact) {
    a.category == b.category && a.text == b.text && a.extra == b.extra
  }

  function Clean(f: Fact): Fact {
    f.(text := Squeezed(f.text))
  }

  ghost predicate BySource(facts: seq<Fact>) {
    forall i, j | 0 <= i < j < |facts| :: facts[i].source <= facts[j].source
  }

  /** Each member is one of the first `n` facts, cleaned. */
  ghost predicate Founded(facts: seq<Fact>, n: nat, state: seq<Fact>)
    requires n <= |facts|
  {
    forall f | f in state :: f.text != "" && exists k :: 0 <= k < n && f == Clean(facts[k])
  }

  /** The fact is there, from no later an event. */
  ghost predicate Told(state: seq<Fact>, f: Fact) {
    exists g :: g in state && Alike(g, f) && g.source <= f.source
  }

  ghost predicate Once(state: seq<Fact>) {
    forall i, j | 0 <= i < j < |state| :: !Alike(state[i], state[j])
  }

  /** The first `n` facts, cleaned of blanks, each once and from where it was first offered. */
  ghost predicate Distilled(facts: seq<Fact>, n: nat, state: seq<Fact>)
    requires n <= |facts|
  {
    && Founded(facts, n, state) && Once(state) && BySource(state)
    && forall k | 0 <= k < n && Clean(facts[k]).text != "" :: Told(state, Clean(facts[k]))
  }

  lemma AddedIs(state: seq<Fact>, f: Fact)
    ensures Added(state, f)
      == if Clean(f).text == "" || exists g :: g in state && Alike(g, Clean(f)) then state else state + [Clean(f)]
  {
    hide Squeezed;
    if exists g :: g in state && Alike(g, Clean(f)) {
      var g :| g in state && Alike(g, Clean(f));
      assert SameFact(g, Clean(f));
    } else {
      assert forall g | g in state :: SameFact(g, Clean(f)) ==> Alike(g, Clean(f));
    }
  }

  lemma DistilNext(facts: seq<Fact>, n: nat, state: seq<Fact>)
    requires n < |facts| && BySource(facts) && Distilled(facts, n, state)
    ensures Distilled(facts, n + 1, Added(state, facts[n]))
  {
    hide *;
    AddedIs(state, facts[n]);
    if Clean(facts[n]).text == "" || exists g :: g in state && Alike(g, Clean(facts[n])) {
      NothingNew(facts, n, state);
    } else {
      SomethingNew(facts, n, state);
    }
  }

  lemma NothingNew(facts: seq<Fact>, n: nat, state: seq<Fact>)
    requires n < |facts| && BySource(facts) && Distilled(facts, n, state)
    requires Clean(facts[n]).text == "" || exists g :: g in state && Alike(g, Clean(facts[n]))
    ensures Distilled(facts, n + 1, state)
  {
    SourcesBound(facts, n, state);
    hide Alike, Clean, BySource, Told, Once;
    if Clean(facts[n]).text != "" { KnownIsTold(state, Clean(facts[n])); }
  }

  lemma SomethingNew(facts: seq<Fact>, n: nat, state: seq<Fact>)
    requires n < |facts| && BySource(facts) && Distilled(facts, n, state)
    requires Clean(facts[n]).text != "" && !(exists g :: g in state && Alike(g, Clean(facts[n])))
    ensures Distilled(facts, n + 1, state + [Clean(facts[n])])
  {
    SourcesBound(facts, n, state);
    hide Alike, Clean, BySource, Told, Once;
    OneMoreFact(state, Clean(facts[n]));
  }

  lemma SourcesBound(facts: seq<Fact>, n: nat, state: seq<Fact>)
    requires n < |facts| && BySource(facts) && Founded(facts, n, state)
    ensures forall g | g in state :: g.source <= Clean(facts[n]).source
  {
    hide Squeezed;
  }

  lemma KnownIsTold(state: seq<Fact>, f: Fact)
    requires exists g :: g in state && Alike(g, f)
    requires forall g | g in state :: g.source <= f.source
    ensures Told(state, f)
  {
    hide Alike;
  }

  lemma OneMoreFact(state: seq<Fact>, f: Fact)
    requires Once(state) && BySource(state) && !(exists g :: g in state && Alike(g, f))
    requires forall g | g in state :: g.source <= f.source
    ensures Once(state + [f]) && BySource(state + [f]) && Told(state + [f], f)
    ensures forall x | Told(state, x) :: Told(state + [f], x)
  {
    AlikeItself(f);
    hide Alike;
    var after := state + [f];
    forall i, j | 0 <= i < j < |after| ensures !Alike(after[i], after[j]) && after[i].source <= after[j].source {
      assert after[i] == state[i] && state[i] in state;
      if j < |state| { assert after[j] == state[j]; }
    }
    assert f in after;
    forall x | Told(state, x) ensures Told(after, x) {
      var g :| g in state && Alike(g, x) && g.source <= x.source;
      assert g in after;
    }
  }

  lemma AlikeItself(f: Fact)
    ensures Alike(f, f)
  {
  }

  lemma {:induction false} AddedDistils(facts: seq<Fact>, n: nat)
    requires n <= |facts| && BySource(facts)
    ensures Distilled(facts, n, AddedAll([], facts, n))
  {
    if n == 0 {
      hide Clean, Alike, Told;
    } else {
      hide *;
      AddedDistils(facts, n - 1);
      DistilNext(facts, n - 1, AddedAll([], facts, n - 1));
      AddedUnfold([], facts, n);
    }
  }

  lemma AddedUnfold(state: seq<Fact>, facts: seq<Fact>, n: nat)
    requires 0 < n <= |facts|
    ensures AddedAll(state, facts, n) == Added(AddedAll(state, facts, n - 1), facts[n - 1])
  {
    hide Added;
  }

  /** All that the first `n` events offer, in order. */
  function AllFacts(codec: Codec, digest: Digest, events: Events, n: nat): seq<Fact>
    requires n <= |events|
  {
    if n == 0 then [] else AllFacts(codec, digest, events, n - 1) + FactsOf(codec, digest, events[n - 1])
  }

  lemma {:induction false} AddedJoin(state: seq<Fact>, a: seq<Fact>, b: seq<Fact>, n: nat)
    requires n <= |b|
    ensures AddedAll(state, a + b, |a| + n) == AddedAll(AddedAll(state, a, |a|), b, n)
  {
    hide Added;
    if n > 0 {
      AddedJoin(state, a, b, n - 1);
      assert (a + b)[|a| + n - 1] == b[n - 1];
    } else {
      AddedPrefix(state, a, b, |a|);
    }
  }

  lemma {:induction false} AddedPrefix(state: seq<Fact>, a: seq<Fact>, b: seq<Fact>, n: nat)
    requires n <= |a|
    ensures AddedAll(state, a + b, n) == AddedAll(state, a, n)
  {
    hide Added;
    if n > 0 { AddedPrefix(state, a, b, n - 1); }
  }

  lemma {:induction false} StateIsAdded(codec: Codec, digest: Digest, events: Events, n: nat)
    requires n <= |events|
    ensures var facts := AllFacts(codec, digest, events, n); StateUpTo(codec, digest, events, n) == AddedAll([], facts, |facts|)
  {
    hide FactsOf, AddedAll;
    if n > 0 {
      StateIsAdded(codec, digest, events, n - 1);
      var facts := FactsOf(codec, digest, events[n - 1]);
      AddedJoin([], AllFacts(codec, digest, events, n - 1), facts, |facts|);
    } else {
      AddedNothing();
    }
  }

  lemma AddedNothing()
    ensures AddedAll([], [], 0) == []
  {
  }

  ghost predicate Numbered(events: Events) {
    forall i, j | 0 <= i < j < |events| :: events[i].seqNo <= events[j].seqNo
  }

  ghost predicate Given(codec: Codec, digest: Digest, events: Events, n: nat, f: Fact)
    requires n <= |events|
  {
    exists i :: 0 <= i < n && f in FactsOf(codec, digest, events[i])
  }

  lemma GivenNext(codec: Codec, digest: Digest, events: Events, n: nat, f: Fact)
    requires 0 < n <= |events|
    ensures Given(codec, digest, events, n, f) <==>
      Given(codec, digest, events, n - 1, f) || f in FactsOf(codec, digest, events[n - 1])
    ensures f in AllFacts(codec, digest, events, n) <==>
      f in AllFacts(codec, digest, events, n - 1) || f in FactsOf(codec, digest, events[n - 1])
  {
    hide FactsOf;
  }

  lemma {:induction false} AllFactsAre(codec: Codec, digest: Digest, events: Events, n: nat)
    requires n <= |events| && Numbered(events)
    ensures forall f :: f in AllFacts(codec, digest, events, n) <==> Given(codec, digest, events, n, f)
    ensures BySource(AllFacts(codec, digest, events, n))
  {
    if n == 0 {
      hide FactsOf;
    } else {
      hide *;
      AllFactsAre(codec, digest, events, n - 1);
      forall f ensures f in AllFacts(codec, digest, events, n) <==> Given(codec, digest, events, n, f) {
        GivenNext(codec, digest, events, n, f);
      }
      AllFactsJoin(codec, digest, events, n - 1);
    }
  }

  lemma AllFactsJoin(codec: Codec, digest: Digest, events: Events, n: nat)
    requires n < |events| && Numbered(events) && BySource(AllFacts(codec, digest, events, n))
    requires forall f | f in AllFacts(codec, digest, events, n) :: Given(codec, digest, events, n, f)
    ensures BySource(AllFacts(codec, digest, events, n + 1))
  {
    var before, facts := AllFacts(codec, digest, events, n), FactsOf(codec, digest, events[n]);
    assert AllFacts(codec, digest, events, n + 1) == before + facts;
    hide FactsOf, AllFacts, BySource;
    forall f | f in before ensures f.source <= events[n].seqNo {
      var i :| 0 <= i < n && f in FactsOf(codec, digest, events[i]);
      FactsAreOffered(codec, digest, events[i], f);
    }
    forall f | f in facts ensures f.source == events[n].seqNo { FactsAreOffered(codec, digest, events[n], f); }
    JoinBySource(before, facts, events[n].seqNo);
  }

  lemma JoinBySource(before: seq<Fact>, facts: seq<Fact>, source: int)
    requires BySource(before) && (forall f | f in before :: f.source <= source) && forall f | f in facts :: f.source == source
    ensures BySource(before + facts)
  {
    var all := before + facts;
    assert forall i | 0 <= i < |all| :: if i < |before| then all[i] == before[i] && all[i] in before else all[i] in facts;
  }

  /** The summary of some events: what they offer, cleaned of blanks, each once, by the first event that offers it. */
  ghost predicate Summarises(codec: Codec, digest: Digest, events: Events, state: seq<Fact>) {
    && (forall f | f in state :: f.text != "" && Source(codec, digest, events, f))
    && (forall e, c, text, extra | e in events && Offers(codec, digest, e, c, text, extra) && Squeezed(text) != "" ::
          Told(state, Fact(c, Squeezed(text), e.seqNo, extra)))
    && Once(state) && BySource(state)
  }

  /** An event offers the fact. */
  ghost predicate Source(codec: Codec, digest: Digest, events: Events, f: Fact) {
    exists e, text :: e in events && e.seqNo == f.source && Offers(codec, digest, e, f.category, text, f.extra) && f.text == Squeezed(text)
  }

  /**
    The state of a checkpoint is the summary of the events it was built from:
    nothing is made up, nothing offered is left out, and nothing is said twice.
   */
  lemma StateSummarises(codec: Codec, digest: Digest, events: Events)
    requires Numbered(events)
    ensures Summarises(codec, digest, events, StateUpTo(codec, digest, events, |events|))
  {
    hide *;
    var facts, state := AllFacts(codec, digest, events, |events|), StateUpTo(codec, digest, events, |events|);
    AllFactsAre(codec, digest, events, |events|);
    StateIsAdded(codec, digest, events, |events|);
    AddedDistils(facts, |facts|);
    DistilledSummarises(codec, digest, events, facts, state);
  }

  lemma DistilledSummarises(codec: Codec, digest: Digest, events: Events, facts: seq<Fact>, state: seq<Fact>)
    requires Distilled(facts, |facts|, state)
    requires forall f :: f in facts <==> Given(codec, digest, events, |events|, f)
    ensures Summarises(codec, digest, events, state)
  {
    hide FactsOf, Offers, Squeezed, Once, Told, BySource;
    forall f | f in state ensures f.text != "" && Source(codec, digest, events, f) {
      var k :| 0 <= k < |facts| && f == Clean(facts[k]);
      assert facts[k] in facts;
      var i :| 0 <= i < |events| && facts[k] in FactsOf(codec, digest, events[i]);
      FactsAreOffered(codec, digest, events[i], facts[k]);
    }
    forall e, c, text, extra | e in events && Offers(codec, digest, e, c, text, extra) && Squeezed(text) != ""
      ensures Told(state, Fact(c, Squeezed(text), e.seqNo, extra))
    {
      var i :| 0 <= i < |events| && events[i] == e;
      var fact := Fact(c, text, e.seqNo, extra);
      FactsAreOffered(codec, digest, e, fact);
      assert fact in facts;
      var k :| 0 <= k < |facts| && facts[k] == fact;
      assert Clean(facts[k]) == Fact(c, Squeezed(text), e.seqNo, extra);
    }
  }

  // --------------------------------------------------------------- validation

  /** An event of the source makes the call with this id. */
  ghost predicate Calls(codec: Codec, source: Events, id: string) {
    exists e :: e in source && e.kind == ToolCall && Holds(e.payload, "tool_call_id") && Spelled(codec, e.payload, "tool_call_id", "") == id
  }

  /** What is wrong with a fact, if anything: a source that is not there or not covered, a request for a call nobody made. */
  ghost predicate Wrong(codec: Codec, f: Fact, source: Events, covers: int, p: Problem) {
    match p
    case UnknownSource(c) => c == f.category && forall e | e in source :: e.seqNo != f.source
    case BeyondCoverage(c) => c == f.category && (exists e :: e in source && e.seqNo == f.source) && f.source > covers
    case UnknownCall(c) =>
      && c == f.category && Get(Obj(f.extra), "status") == Some(Str("requested")) && Holds(Obj(f.extra), "tool_call_id")
      && !Calls(codec, source, Spelled(codec, Obj(f.extra), "tool_call_id", ""))
  }

  lemma CallsIs(codec: Codec, source: Events, id: string)
    ensures HasCall(codec, source, id) <==> Calls(codec, source, id)
  {
    hide Truthy;
    assert !Truthy(Null) by { NullIsFalse(); }
    if HasCall(codec, source, id) {
      var e :| e in source && e.kind.ToolCall? && Truthy(ValueAt(e.payload, "tool_call_id")) && ShowText(codec, ValueAt(e.payload, "tool_call_id")) == id;
      assert Holds(e.payload, "tool_call_id") && Spelled(codec, e.payload, "tool_call_id", "") == id;
    }
    if Calls(codec, source, id) {
      var e :| e in source && e.kind == ToolCall && Holds(e.payload, "tool_call_id") && Spelled(codec, e.payload, "tool_call_id", "") == id;
      assert Truthy(ValueAt(e.payload, "tool_call_id"));
    }
  }

  lemma ProblemIs(codec: Codec, f: Fact, source: Events, covers: int, p: Problem)
    ensures p in ProblemsOf(codec, f, source, covers) <==> Wrong(codec, f, source, covers, p)
  {
    var id := Spelled(codec, Obj(f.extra), "tool_call_id", "");
    CallsIs(codec, source, id);
    hide HasCall, Calls, Truthy;
  }

  /** Validation reports exactly what is wrong with some fact. */
  lemma {:induction false} ProblemsExactly(codec: Codec, state: seq<Fact>, source: Events, covers: int, n: nat, p: Problem)
    requires n <= |state|
    ensures p in ProblemsUpTo(codec, state, source, covers, n) <==> exists i :: 0 <= i < n && Wrong(codec, state[i], source, covers, p)
  {
    hide Wrong, ProblemsOf;
    if n > 0 {
      ProblemsExactly(codec, state, source, covers, n - 1, p);
      ProblemIs(codec, state[n - 1], source, covers, p);
    }
  }

  // ------------------------------------------------------------- when it is due

  /** The event is to be summarised and no standing checkpoint covers it yet. */
  ghost predicate NewToSummary(events: Events, retained: set<TurnId>, prior: int, e: Event) {
    e in events && e.turn !in retained && !e.kind.ContextCheckpoint? && !e.kind.CheckpointInvalidated? && e.seqNo > prior
  }

  /** A checkpoint that nobody invalidated. */
  ghost predicate Stands(codec: Codec, events: Events, e: Event) {
    && e in events && e.kind == ContextCheckpoint && Get(e.payload, "valid") != Some(Bool(false))
    && !exists x :: x in events && x.kind == CheckpointInvalidated && ShowText(codec, ValueAt(x.payload, "checkpoint_event_id")) == e.id
  }

  function Covered(e: Event): int {
    match Get(e.payload, "covers_through_seq")
    case Some(Int(n)) => n
    case Some(Bool(b)) => if b then 1 else 0
    case _ => 0
  }

  /** The furthest that standing checkpoints reach, 0 without any. */
  ghost predicate Reach(codec: Codec, events: Events, n: int) {
    && n >= 0 && (forall e | Stands(codec, events, e) :: Covered(e) <= n)
    && (n == 0 || exists e :: Stands(codec, events, e) && Covered(e) == n)
  }

  lemma {:induction false} PriorIsReached(events: Events, invalid: set<string>)
    ensures var n := PriorCovers(events, invalid);
      && n >= 0 && (forall e | e in events && Standing(e, invalid) :: CoverOf(e) <= n)
      && (n == 0 || exists e :: e in events && Standing(e, invalid) && CoverOf(e) == n)
  {
    if events != [] {
      PriorIsReached(events[1..], invalid);
      hide Standing, CoverOf;
      assert events == [events[0]] + events[1..];
      var n := PriorCovers(events, invalid);
      if n != 0 && n != CoverOf(events[0]) {
        var e :| e in events[1..] && Standing(e, invalid) && CoverOf(e) == n;
        assert e in events;
      } else if n != 0 && !Standing(events[0], invalid) {
        var e :| e in events[1..] && Standing(e, invalid) && CoverOf(e) == n;
        assert e in events;
      } else if n != 0 && PriorCovers(events[1..], invalid) == n {
        var e :| e in events[1..] && Standing(e, invalid) && CoverOf(e) == n;
        assert e in events;
      }
    }
  }

  lemma StandingIs(codec: Codec, events: Events, e: Event)
    ensures e in events && Standing(e, NamedInvalid(codec, events)) <==> Stands(codec, events, e)
    ensures CoverOf(e) == Covered(e)
  {
    hide ShowText, ValueAt;
    assert e.id in NamedInvalid(codec, events) <==>
      exists x :: x in events && x.kind == CheckpointInvalidated && ShowText(codec, ValueAt(x.payload, "checkpoint_event_id")) == e.id;
  }

  lemma PriorReaches(codec: Codec, events: Events)
    ensures Reach(codec, events, PriorCovers(events, NamedInvalid(codec, events)))
  {
    var invalid := NamedInvalid(codec, events);
    PriorIsReached(events, invalid);
    hide Stands, Standing, NamedInvalid, PriorCovers, CoverOf, Covered;
    forall e
      ensures (e in events && Standing(e, invalid) <==> Stands(codec, events, e)) && CoverOf(e) == Covered(e)
    {
      StandingIs(codec, events, e);
    }
  }

  lemma ReachIsOne(codec: Codec, events: Events, a: int, b: int)
    requires Reach(codec, events, a) && Reach(codec, events, b)
    ensures a == b
  {
    hide Stands, Covered;
  }

  function TurnsOf(events: Events): set<TurnId> {
    set e | e in events :: e.turn
  }

  /** An event that a summary takes in, and that no standing checkpoint covers. */
  predicate IsNew(e: Event, retained: set<TurnId>, prior: int) {
    e.turn !in retained && e.kind !in {ContextCheckpoint, CheckpointInvalidated} && e.seqNo > prior
  }

  function NewCount(events: Events, retained: set<TurnId>, prior: int): nat {
    if events == [] then 0 else (if IsNew(events[0], retained, prior) then 1 else 0) + NewCount(events[1..], retained, prior)
  }

  function NewChars(codec: Codec, events: Events, retained: set<TurnId>, prior: int): nat {
    if events == [] then 0
    else
      (if IsNew(events[0], retained, prior) then |codec.spaced(events[0].payload)| else 0) + NewChars(codec, events[1..], retained, prior)
  }

  lemma {:induction false} DeltaIs(codec: Codec, events: Events, retained: set<TurnId>, prior: int)
    ensures var delta := Above(Summarized(events, retained), prior);
      |delta| == NewCount(events, retained, prior) && PayloadChars(codec, delta) == NewChars(codec, events, retained, prior)
  {
    if events != [] {
      DeltaIs(codec, events[1..], retained, prior);
      var rest := Summarized(events[1..], retained);
      if Summarizable(events[0], retained) {
        assert ([events[0]] + rest)[1..] == rest;
        if events[0].seqNo > prior {
          assert ([events[0]] + Above(rest, prior))[1..] == Above(rest, prior);
        } else {
          assert [] + Above(rest, prior) == Above(rest, prior);
        }
      } else {
        assert [] + rest == rest;
      }
    }
  }

  lemma SeenAreTurns(events: Events)
    ensures |TurnsSeen(events, |events|)| == |TurnsOf(events)|
  {
    var seen := TurnsSeen(events, |events|);
    SeenByFirst(events, |events|);
    TurnSetCount(seen);
    forall t ensures t in TurnSet(seen) <==> t in TurnsOf(events) {
      if t in TurnSet(seen) {
        var i :| 0 <= i < |events| && FirstOf(events, i, t);
        assert events[i] in events;
      }
      if t in TurnsOf(events) {
        var e :| e in events && e.turn == t;
        var i :| 0 <= i < |events| && events[i] == e;
        var f := FirstExists(events, i);
      }
    }
    assert TurnSet(seen) == TurnsOf(events);
  }

  /**
    A summary is due exactly when there are more turns than the kept ones, there
    is something to summarise, and the attempt is forced or what no checkpoint
    covers yet has reached one of the two thresholds.
   */
  lemma DueExactly(codec: Codec, events: Events, policy: Policy, prior: int)
    requires Reach(codec, events, prior)
    ensures var retained := RetainedTurns(events, policy.keepRecentTurns);
      PlanOf(codec, events, policy).Plan? <==>
      && |TurnsOf(events)| > (if policy.keepRecentTurns > 1 then policy.keepRecentTurns else 1)
      && (exists e :: e in events && e.turn !in retained && e.kind !in {ContextCheckpoint, CheckpointInvalidated})
      && (policy.force
          || NewCount(events, retained, prior) >= (if policy.eventThreshold > 1 then policy.eventThreshold else 1)
          || NewChars(codec, events, retained, prior) >= (if policy.charThreshold > 1 then policy.charThreshold else 1))
  {
    var retained := RetainedTurns(events, policy.keepRecentTurns);
    PriorReaches(codec, events);
    ReachIsOne(codec, events, prior, PriorCovers(events, NamedInvalid(codec, events)));
    DeltaIs(codec, events, retained, prior);
    SeenAreTurns(events);
    var summarized := Summarized(events, retained);
    forall e ensures e in summarized <==> e in events && Summarizable(e, retained) { SummarizedMember(events, retained, e); }
    if summarized != [] { assert summarized[0] in summarized; }
    hide Reach, NamedInvalid, PriorCovers, Summarized, Above, PayloadChars, NewCount, NewChars, TurnsSeen, RetainedTurns, TurnsOf, MaxOf;
  }

  // -------------------------------------------------------------- how it reads

  function Part(state: seq<Fact>, title: string, c: Category): string {
    if forall f | f in state :: f.category != c then "" else "\n\n" + title + ":" + Lines(state, c)
  }

  lemma {:induction false} LinesAre(state: seq<Fact>, c: Category)
    ensures Lines(state, c) == "" <==> forall f | f in state :: f.category != c
  {
    if state != [] {
      LinesAre(state[1..], c);
      assert state == [state[0]] + state[1..];
      hide Decimal;
    }
  }

  lemma PartIs(state: seq<Fact>, c: Category)
    ensures Part(state, Label(c), c) == if Lines(state, c) == "" then "" else "\n\n" + Label(c) + ":" + Lines(state, c)
  {
    LinesAre(state, c);
  }

  /** The summary under its title: the facts of each category under the heading of the category. */
  lemma SummaryReads(state: seq<Fact>)
    ensures Formatted(state) == "Earlier conversation structured checkpoint:"
      + (Part(state, "Goals", Goal) + (Part(state, "Constraints", Constraints) + (Part(state, "Decisions and outcomes", Decisions)
      + (Part(state, "Unresolved items", Unresolved) + (Part(state, "File state", Files) + (Part(state, "Tests", Tests)
      + (Part(state, "Tool facts", ToolFacts) + (Part(state, "Errors", Errors) + ""))))))))
  {
    SectionsStep(state, CATEGORIES);
    SectionsStep(state, CATEGORIES[1..]);
    SectionsStep(state, CATEGORIES[1..][1..]);
    SectionsStep(state, CATEGORIES[1..][1..][1..]);
    SectionsStep(state, CATEGORIES[1..][1..][1..][1..]);
    SectionsStep(state, CATEGORIES[1..][1..][1..][1..][1..]);
    SectionsStep(state, CATEGORIES[1..][1..][1..][1..][1..][1..]);
    SectionsStep(state, CATEGORIES[1..][1..][1..][1..][1..][1..][1..]);
    SectionsStep(state, CATEGORIES[1..][1..][1..][1..][1..][1..][1..][1..]);
    hide Sections, Part;
  }

  lemma SectionsStep(state: seq<Fact>, categories: seq<Category>)
    ensures Sections(state, categories)
      == if categories == [] then "" else Part(state, Label(categories[0]), categories[0]) + Sections(state, categories[1..])
  {
    if categories != [] { PartIs(state, categories[0]); }
    hide Label, Part, Lines;
  }

  /** Each fact stands in its part, on a line of its own with the number of its event. */
  lemma {:induction false} FactIsShown(state: seq<Fact>, f: Fact) returns (before: string, after: string)
    requires f in state && f.source >= 0
    ensures Lines(state, f.category) == before + ("\n- [source seq " + Decimal(f.source) + "] " + f.text) + after
  {
    hide Decimal;
    if state[0] == f {
      before, after := "", Lines(state[1..], f.category);
    } else {
      assert state == [state[0]] + state[1..];
      var b, a := FactIsShown(state[1..], f);
      before, after := Lines([state[0]], f.category) + b, a;
      assert [state[0]][1..] == [];
      var first := Lines([state[0]], f.category);
      assert Lines([], f.category) == "";
      assert Lines(state, f.category) == first + Lines(state[1..], f.category);
    }
  }

  /** The checkpoint event itself: shown to the model, valid, with the summary as it reads and the coverage of its plan. */
  lemma CheckpointSays(codec: Codec, digest: Digest, render: Render, plan: Plan, e: Event)
    requires plan.Plan? && IsCheckpointOf(codec, digest, render, plan, e)
    ensures var state := StateUpTo(codec, digest, plan.summarized, |plan.summarized|);
      && e.kind == ContextCheckpoint && e.visible && Get(e.payload, "summary") == Some(Str(Formatted(state)))
      && Get(e.payload, "covers_through_seq") == Some(Int(plan.covers)) && Get(e.payload, "valid") == Some(Bool(true))
      && Get(e.payload, "source_event_count") == Some(Int(|plan.summarized|))
      && Get(e.payload, "state") == Some(render.json(state)) && |Formatted(state)| <= 80_000
  {
    hide StateUpTo, Formatted;
  }

  /** Repair invalidates exactly the standing checkpoints whose stored facts are wrong against the log they cover. */
  lemma CorruptExactly(codec: Codec, render: Render, events: Events, e: Event)
    requires e in events
    ensures Corrupt(codec, render, events, e) <==>
      && Stands(codec, events, e)
      && Get(e.payload, "state").Some? && Get(e.payload, "state").value.Obj?
      && Get(e.payload, "covers_through_seq").Some?
      && (Get(e.payload, "covers_through_seq").value.Int? || Get(e.payload, "covers_through_seq").value.Bool?)
      && SomethingWrong(codec, render.facts(Get(e.payload, "state").value), SourceOf(events, Covered(e)), Covered(e))
  {
    StandingIs(codec, events, e);
    if Get(e.payload, "state").Some? {
      SomeProblem(codec, render.facts(Get(e.payload, "state").value), SourceOf(events, Covered(e)), Covered(e));
    }
    hide NamedInvalid, ProblemsUpTo, SourceOf, SomethingWrong, Stands;
  }

  ghost predicate SomethingWrong(codec: Codec, state: seq<Fact>, source: Events, covers: int) {
    exists i, p :: 0 <= i < |state| && Wrong(codec, state[i], source, covers, p)
  }

  lemma SomeProblem(codec: Codec, state: seq<Fact>, source: Events, covers: int)
    ensures ProblemsUpTo(codec, state, source, covers, |state|) != [] <==> SomethingWrong(codec, state, source, covers)
  {
    hide Wrong, ProblemsUpTo;
    var problems := ProblemsUpTo(codec, state, source, covers, |state|);
    if problems != [] {
      assert problems[0] in problems;
      ProblemsExactly(codec, state, source, covers, |state|, problems[0]);
    }
    if SomethingWrong(codec, state, source, covers) {
      var i, p :| 0 <= i < |state| && Wrong(codec, state[i], source, covers, p);
      ProblemsExactly(codec, state, source, covers, |state|, p);
    }
  }
}
