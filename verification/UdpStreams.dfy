/** A UDP stream under interception: like TCP, but a rule may also drop or rewrite one
    datagram without settling the stream, and data is not cut to an analyzer's quota. */
module UdpStreams {
  import opened Entries
  import opened Folds
  import opened Options
  import opened Reports
  import opened Rulesets

  datatype State = State(virgin: bool, active: seq<Entry>, finished: seq<Entry>, last: Verdict, props: Props)

  datatype Passage = Passage(state: State, verdict: Verdict, packet: Option<Bytes>, fed: Option<Chunk>, answer: Option<Action>)

  function New(created: seq<Entry>): State {
    State(true, created, [], Accept, map[])
  }

  function ActionToVerdict(a: Action): (Verdict, bool) {
    match a
    case ActionMaybe => (Accept, false)
    case ActionAllow => (AcceptStream, true)
    case ActionBlock => (DropStream, true)
    case ActionDrop => (Drop, false)
    case ActionModify => (AcceptModify, false)
    case OtherAction(_) => (Accept, false)
  }

  /** The ruleset's answer after a modify rule has tried to rewrite the payload. */
  function Effective(m: MatchResult, payload: Bytes): (Action, Option<Bytes>) {
    if !m.action.ActionModify? then (m.action, None)
    else match m.modifier
      case NotForUdp => (ActionMaybe, None)
      case UdpModifier(process) =>
        var r := process(payload);
        (if r.failed then ActionMaybe else ActionModify, r.packet)
  }

  function Conclude(s: State, verdict: Verdict, packet: Option<Bytes>, c: Chunk, answer: Option<Action>): Passage {
    if |s.active| == 0 && verdict.Accept? then Passage(s.(last := AcceptStream), AcceptStream, packet, Some(c), answer)
    else Passage(s, verdict, packet, Some(c), answer)
  }

  /** What the ruleset's answer makes of a stream whose analyzers were just fed. */
  function Decide(s: State, a: Action, packet: Option<Bytes>, c: Chunk): Passage {
    var (v, final) := ActionToVerdict(a);
    if a.ActionMaybe? then Conclude(s, Accept, packet, c, Some(a))
    else if final then
      Conclude(State(s.virgin, [], s.finished + CloseAll(s.active), v, PropsAfterClose(s.active, s.props)), v, packet, c, Some(a))
    else Conclude(s.(last := v), v, packet, c, Some(a))
  }

  function FedState(s: State, c: Chunk): State {
    State(false, Survivors(false, s.active, c), s.finished + Leavers(false, s.active, c),
          s.last, PropsAfter(false, s.active, c, s.props))
  }

  function Fed(rules: seq<Rule>, info: StreamInfo, s: State, c: Chunk): Passage {
    var fed := FedState(s, c);
    if !AnyUpdate(false, s.active, c) && !s.virgin then Conclude(fed, Accept, None, c, None)
    else
      var (a, packet) := Effective(Match(rules, info, fed.props), c.data);
      Decide(fed, a, packet, c)
  }

  function OnDatagram(rules: seq<Rule>, info: StreamInfo, s: State, c: Chunk): Passage {
    if |s.active| == 0 && !s.virgin then Passage(s, s.last, None, None, None)
    else Fed(rules, info, s, c)
  }

  /** A run so far: with each datagram's verdict and rewritten payload, if any. */
  datatype Trace = Trace(state: State, verdicts: seq<Verdict>, packets: seq<Option<Bytes>>, fed: seq<Chunk>, answers: seq<Action>)

  function Extend(rules: seq<Rule>, info: StreamInfo, t: Trace, c: Chunk): Trace {
    var p := OnDatagram(rules, info, t.state, c);
    Trace(p.state, t.verdicts + [p.verdict], t.packets + [p.packet], t.fed + Opt(p.fed), t.answers + Opt(p.answer))
  }

  function Step(rules: seq<Rule>, info: StreamInfo): (Trace, Chunk) -> Trace {
    (t, c) => Extend(rules, info, t, c)
  }

  function RunFrom(rules: seq<Rule>, info: StreamInfo, t: Trace, datagrams: seq<Chunk>): Trace {
    Fold(Step(rules, info), t, datagrams)
  }

  function Start(created: seq<Entry>): Trace {
    Trace(New(created), [], [], [], [])
  }

  function Run(rules: seq<Rule>, info: StreamInfo, created: seq<Entry>, datagrams: seq<Chunk>): Trace {
    RunFrom(rules, info, Start(created), datagrams)
  }

  ghost predicate Settled(s: State) {
    !s.virgin && |s.active| == 0
  }

  /** A stream verdict is only on record once the stream is settled, and a settled stream
      never holds a plain accept. */
  ghost predicate VerdictOk(s: State) {
    && (s.last == AcceptStream || s.last == DropStream ==> Settled(s))
    && (Settled(s) ==> s.last != Accept)
  }

  /** Allow and block are only ever the last answer, and the stream is dropped exactly
      when that was block. */
  ghost predicate AnswersOk(s: State, answers: seq<Action>) {
    && (forall i :: 0 <= i < |answers| - 1 ==> !answers[i].ActionAllow? && !answers[i].ActionBlock?)
    && (s.last == DropStream <==> answers != [] && answers[|answers| - 1].ActionBlock?)
    && (answers != [] && answers[|answers| - 1].ActionAllow? ==> s.last == AcceptStream)
  }

  /** A datagram drop or rewrite on record was some answer's wish. */
  ghost predicate WishesOk(s: State, answers: seq<Action>) {
    && (s.last == Drop ==> ActionDrop in answers)
    && (s.last == AcceptModify ==> ActionModify in answers)
  }

  /** What comes of a stream just fed: it was left as it is, or its ruleset was asked. */
  lemma FedCases(rules: seq<Rule>, info: StreamInfo, s: State, c: Chunk) returns (a: Action, packet: Option<Bytes>)
    ensures var p := Fed(rules, info, s, c);
      p == Conclude(FedState(s, c), Accept, None, c, None) || p == Decide(FedState(s, c), a, packet, c)
  {
    a, packet := Effective(Match(rules, info, FedState(s, c).props), c.data).0, Effective(Match(rules, info, FedState(s, c).props), c.data).1;
  }

  lemma ListsAfter(rules: seq<Rule>, info: StreamInfo, s: State, c: Chunk)
    ensures var p := Fed(rules, info, s, c);
      var stay, gone := Survivors(false, s.active, c), s.finished + Leavers(false, s.active, c);
      && p.fed == Some(c)
      && ((p.state.active == stay && p.state.finished == gone)
          || (p.state.active == [] && p.state.finished == gone + CloseAll(stay)))
  {
    var a, packet := FedCases(rules, info, s, c);
    var fed, p := FedState(s, c), Decide(FedState(s, c), a, packet, c);
    assert (p.state.active == fed.active && p.state.finished == fed.finished)
        || (p.state.active == [] && p.state.finished == fed.finished + CloseAll(fed.active));
  }

  lemma EntriesStep(rules: seq<Rule>, info: StreamInfo, created: seq<Entry>, t: Trace, c: Chunk)
    requires EntriesOk(false, created, t.fed, t.state.active, t.state.finished)
    ensures var t' := Extend(rules, info, t, c);
      EntriesOk(false, created, t'.fed, t'.state.active, t'.state.finished)
  {
    var s := t.state;
    if |s.active| == 0 && !s.virgin {
      assert t.fed + [] == t.fed;
    } else {
      FeedStep(false, created, t.fed, s.active, s.finished, c);
      CloseStep(false, created, t.fed + [c], Survivors(false, s.active, c), s.finished + Leavers(false, s.active, c));
      ListsAfter(rules, info, s, c);
    }
  }

  ghost predicate Undecided(s: State) {
    !s.virgin && s.last != AcceptStream && s.last != DropStream
  }

  lemma DecideVerdict(s: State, a: Action, packet: Option<Bytes>, c: Chunk)
    requires Undecided(s)
    ensures VerdictOk(Decide(s, a, packet, c).state) && VerdictOk(Conclude(s, Accept, None, c, None).state)
  {}

  lemma VerdictStep(rules: seq<Rule>, info: StreamInfo, s: State, c: Chunk)
    requires VerdictOk(s)
    ensures VerdictOk(OnDatagram(rules, info, s, c).state)
  {
    if |s.active| != 0 || s.virgin {
      var a, packet := FedCases(rules, info, s, c);
      DecideVerdict(FedState(s, c), a, packet, c);
    }
  }

  ghost predicate AnswersKept(p: Passage, answers: seq<Action>) {
    AnswersOk(p.state, answers + Opt(p.answer))
  }

  lemma DecideAnswers(s: State, a: Action, packet: Option<Bytes>, c: Chunk, answers: seq<Action>)
    requires Undecided(s) && AnswersOk(s, answers)
    ensures AnswersKept(Decide(s, a, packet, c), answers) && AnswersKept(Conclude(s, Accept, None, c, None), answers)
  {
    assert (answers + [a])[|answers|] == a;
    assert answers + [] == answers;
  }

  lemma AnswersStep(rules: seq<Rule>, info: StreamInfo, s: State, answers: seq<Action>, c: Chunk)
    requires VerdictOk(s) && AnswersOk(s, answers)
    ensures AnswersKept(OnDatagram(rules, info, s, c), answers)
  {
    if |s.active| != 0 || s.virgin {
      var a, packet := FedCases(rules, info, s, c);
      DecideAnswers(FedState(s, c), a, packet, c, answers);
    } else {
      assert answers + [] == answers;
    }
  }

  ghost predicate WishesKept(p: Passage, answers: seq<Action>) {
    WishesOk(p.state, answers + Opt(p.answer))
  }

  lemma DecideWishes(s: State, a: Action, packet: Option<Bytes>, c: Chunk, answers: seq<Action>)
    requires WishesOk(s, answers)
    ensures WishesKept(Decide(s, a, packet, c), answers) && WishesKept(Conclude(s, Accept, None, c, None), answers)
  {}

  lemma WishesStep(rules: seq<Rule>, info: StreamInfo, s: State, answers: seq<Action>, c: Chunk)
    requires WishesOk(s, answers)
    ensures WishesKept(OnDatagram(rules, info, s, c), answers)
  {
    if |s.active| != 0 || s.virgin {
      var a, packet := FedCases(rules, info, s, c);
      DecideWishes(FedState(s, c), a, packet, c, answers);
    }
  }

  /** Typestate, quotas and permutation of the analyzers after every run of datagrams. */
  lemma {:induction false} RunKeepsEntries(rules: seq<Rule>, info: StreamInfo, created: seq<Entry>, datagrams: seq<Chunk>)
    requires Unused(created)
    ensures var t := Run(rules, info, created, datagrams);
      EntriesOk(false, created, t.fed, t.state.active, t.state.finished)
  {
    if datagrams == [] {
      FreshEntriesOk(false, created);
    } else {
      var n := |datagrams| - 1;
      RunKeepsEntries(rules, info, created, datagrams[..n]);
      EntriesStep(rules, info, created, Run(rules, info, created, datagrams[..n]), datagrams[n]);
    }
  }

  /** What the verdict on record means after every run of datagrams. */
  lemma {:induction false} RunKeepsVerdict(rules: seq<Rule>, info: StreamInfo, created: seq<Entry>, datagrams: seq<Chunk>)
    ensures var t := Run(rules, info, created, datagrams);
      VerdictOk(t.state) && AnswersOk(t.state, t.answers) && WishesOk(t.state, t.answers) && |t.verdicts| == |datagrams|
  {
    if datagrams != [] {
      var n := |datagrams| - 1;
      RunKeepsVerdict(rules, info, created, datagrams[..n]);
      var t := Run(rules, info, created, datagrams[..n]);
      VerdictStep(rules, info, t.state, datagrams[n]);
      AnswersStep(rules, info, t.state, t.answers, datagrams[n]);
      WishesStep(rules, info, t.state, t.answers, datagrams[n]);
    }
  }

  /** Closing ends the stream: every analyzer it was created with is then finished, after a
      legal history. */
  lemma ClosingFinishesAll(rules: seq<Rule>, info: StreamInfo, created: seq<Entry>, datagrams: seq<Chunk>)
    requires Unused(created)
    ensures var t := Run(rules, info, created, datagrams);
      EntriesOk(false, created, t.fed, [], t.state.finished + CloseAll(t.state.active))
  {
    var t := Run(rules, info, created, datagrams);
    RunKeepsEntries(rules, info, created, datagrams);
    CloseStep(false, created, t.fed, t.state.active, t.state.finished);
  }

  lemma SettledStep(rules: seq<Rule>, info: StreamInfo, t: Trace, c: Chunk)
    requires Settled(t.state)
    ensures Extend(rules, info, t, c) == t.(verdicts := t.verdicts + [t.state.last], packets := t.packets + [None])
  {
    assert t.fed + [] == t.fed && t.answers + [] == t.answers;
  }

  /** A trace after `n` more datagrams that are answered from the record. */
  function Stood(t: Trace, n: nat): Trace {
    t.(verdicts := t.verdicts + Repeat(t.state.last, n), packets := t.packets + Repeat(None, n))
  }

  lemma StoodStep(rules: seq<Rule>, info: StreamInfo, t: Trace, n: nat, c: Chunk)
    requires Settled(t.state)
    ensures Extend(rules, info, Stood(t, n), c) == Stood(t, n + 1)
  {
    SettledStep(rules, info, Stood(t, n), c);
    assert t.verdicts + Repeat(t.state.last, n) + [t.state.last] == t.verdicts + Repeat(t.state.last, n + 1);
    assert t.packets + Repeat(None, n) + [None] == t.packets + Repeat(None, n + 1);
  }

  lemma {:induction false} SettledRun(rules: seq<Rule>, info: StreamInfo, t: Trace, datagrams: seq<Chunk>)
    requires Settled(t.state)
    ensures RunFrom(rules, info, t, datagrams) == Stood(t, |datagrams|)
  {
    if datagrams == [] {
      assert t.verdicts + [] == t.verdicts && t.packets + [] == t.packets;
    } else {
      var n := |datagrams| - 1;
      SettledRun(rules, info, t, datagrams[..n]);
      StoodStep(rules, info, t, n, datagrams[n]);
    }
  }

  /** Finality: once a stream verdict is on record, or the stream is settled in any other
      way, nothing else changes and every later datagram gets the verdict on record. */
  lemma VerdictIsFinal(rules: seq<Rule>, info: StreamInfo, created: seq<Entry>, before: seq<Chunk>, later: seq<Chunk>)
    requires var s := Run(rules, info, created, before).state;
      s.last == AcceptStream || s.last == DropStream || Settled(s)
    ensures var t := Run(rules, info, created, before);
      Run(rules, info, created, before + later) == t.(verdicts := t.verdicts + Repeat(t.state.last, |later|), packets := t.packets + Repeat(None, |later|))
  {
    RunKeepsVerdict(rules, info, created, before);
    FoldConcat(Step(rules, info), Start(created), before, later);
    SettledRun(rules, info, Run(rules, info, created, before), later);
  }

  /** Whether a datagram makes the stream ask its ruleset again, and the answer is drop. */
  predicate AskedToDrop(rules: seq<Rule>, info: StreamInfo, s: State, c: Chunk) {
    (s.virgin || AnyUpdate(false, s.active, c))
    && Effective(Match(rules, info, PropsAfter(false, s.active, c, s.props)), c.data).0 == ActionDrop
  }

  lemma DropStep(rules: seq<Rule>, info: StreamInfo, s: State, c: Chunk)
    ensures OnDatagram(rules, info, s, c).verdict == Drop
       <==> if Settled(s) then s.last == Drop else AskedToDrop(rules, info, s, c)
  {}

  /** A datagram drop is not a stream verdict. Exactly these datagrams of a run are dropped:
      those on which the ruleset answers drop, asked anew because an analyzer reported
      something; and all that follow once the stream has settled with a drop on record. */
  lemma DroppedIff(rules: seq<Rule>, info: StreamInfo, created: seq<Entry>, before: seq<Chunk>, c: Chunk)
    ensures var s := Run(rules, info, created, before).state;
            Run(rules, info, created, before + [c]).verdicts == Run(rules, info, created, before).verdicts + [Drop]
            <==> if Settled(s) then s.last == Drop else AskedToDrop(rules, info, s, c)
  {
    var t := Run(rules, info, created, before);
    FoldSnoc(Step(rules, info), Start(created), before, c);
    DropStep(rules, info, t.state, c);
    var v := OnDatagram(rules, info, t.state, c).verdict;
    assert (t.verdicts + [v])[|t.verdicts|] == v && (t.verdicts + [Drop])[|t.verdicts|] == Drop;
  }

  /** So with a drop on record and an analyzer still at work, a datagram on which nothing is
      reported goes through, though the drop stays on record; and if it finishes the last
      analyzer, the stream is accepted for good. */
  lemma DropIsPerDatagram(rules: seq<Rule>, info: StreamInfo, created: seq<Entry>, before: seq<Chunk>, c: Chunk)
    requires var s := Run(rules, info, created, before).state;
      s.last == Drop && !Settled(s) && !AnyUpdate(false, s.active, c)
    ensures var s := Run(rules, info, created, before).state;
      var p := OnDatagram(rules, info, s, c);
      if |Survivors(false, s.active, c)| > 0
      then p.verdict == Accept && p.state.last == Drop
      else p.verdict == AcceptStream && p.state.last == AcceptStream
  {
    NotVirgin(rules, info, created, before);
  }

  lemma VirginLost(rules: seq<Rule>, info: StreamInfo, s: State, c: Chunk)
    ensures !OnDatagram(rules, info, s, c).state.virgin
  {}

  /** A stream that has seen nothing yet has nothing on record. */
  lemma NotVirgin(rules: seq<Rule>, info: StreamInfo, created: seq<Entry>, datagrams: seq<Chunk>)
    ensures Run(rules, info, created, datagrams).state.virgin ==> Run(rules, info, created, datagrams).state.last == Accept
  {
    if datagrams != [] {
      var n := |datagrams| - 1;
      VirginLost(rules, info, Run(rules, info, created, datagrams[..n]).state, datagrams[n]);
    }
  }

  /** A part of a sequence from its start, all of it unless cut. */
  ghost predicate Begins(part: seq<Chunk>, all: seq<Chunk>, cut: bool) {
    |part| <= |all| && part == all[..|part|] && (|part| == |all| || cut)
  }

  lemma BeginsSnoc(part: seq<Chunk>, all: seq<Chunk>, cut: bool, c: Chunk)
    requires Begins(part, all, cut)
    ensures cut ==> Begins(part, all + [c], true)
    ensures !cut ==> Begins(part + [c], all + [c], false)
  {
    assert (all + [c])[..|part|] == all[..|part|];
    if !cut {
      assert part == all;
      assert (all + [c])[..|all| + 1] == all + [c];
    }
  }

  lemma FedStep(rules: seq<Rule>, info: StreamInfo, t: Trace, c: Chunk)
    ensures var t' := Extend(rules, info, t, c);
            if Settled(t.state) then t'.fed == t.fed && Settled(t'.state) else t'.fed == t.fed + [c]
  {
    if Settled(t.state) {
      SettledStep(rules, info, t, c);
    } else {
      assert OnDatagram(rules, info, t.state, c) == Fed(rules, info, t.state, c);
      ListsAfter(rules, info, t.state, c);
    }
  }

  lemma PrefixStep(rules: seq<Rule>, info: StreamInfo, t: Trace, datagrams: seq<Chunk>, c: Chunk)
    requires Begins(t.fed, datagrams, Settled(t.state))
    ensures var t' := Extend(rules, info, t, c); Begins(t'.fed, datagrams + [c], Settled(t'.state))
  {
    FedStep(rules, info, t, c);
    BeginsSnoc(t.fed, datagrams, Settled(t.state), c);
  }

  /** The analyzers are fed the datagrams from the first on, until the stream is settled. */
  lemma {:induction false} FedIsPrefix(rules: seq<Rule>, info: StreamInfo, created: seq<Entry>, datagrams: seq<Chunk>)
    ensures var t := Run(rules, info, created, datagrams); Begins(t.fed, datagrams, Settled(t.state))
  {
    if datagrams != [] {
      var front, last := datagrams[..|datagrams| - 1], datagrams[|datagrams| - 1];
      FedIsPrefix(rules, info, created, front);
      FrontLast(datagrams);
      FoldSnoc(Step(rules, info), Start(created), front, last);
      PrefixStep(rules, info, Run(rules, info, created, front), front, last);
    }
  }

  // ---- What each datagram is answered, and why ----

  lemma FedOrSame(rules: seq<Rule>, info: StreamInfo, s: State, c: Chunk)
    ensures var p := OnDatagram(rules, info, s, c);
            if p.fed.Some? then !p.state.virgin else p.state == s
  {}

  lemma UnfedStep(rules: seq<Rule>, info: StreamInfo, t: Trace, c: Chunk)
    requires t.state.virgin <==> t.fed == []
    ensures var t' := Extend(rules, info, t, c); t'.state.virgin <==> t'.fed == []
  {
    FedOrSame(rules, info, t.state, c);
    assert t.fed + [] == t.fed;
  }

  lemma {:induction false} VirginIffUnfed(rules: seq<Rule>, info: StreamInfo, created: seq<Entry>, datagrams: seq<Chunk>)
    ensures var t := Run(rules, info, created, datagrams); t.state.virgin <==> t.fed == []
  {
    if datagrams != [] {
      var n := |datagrams| - 1;
      VirginIffUnfed(rules, info, created, datagrams[..n]);
      UnfedStep(rules, info, Run(rules, info, created, datagrams[..n]), datagrams[n]);
    }
  }

  /** The ruleset is asked about a datagram: it is the stream's first, or some active
      analyzer has something to say to it. */
  ghost predicate Asked(t: Trace, c: Chunk) {
    t.fed == [] || SomeSpeak(false, t.state.active, c)
  }

  /** The properties it is asked about: what the analyzers said to this datagram applied, in
      the order they said it, to what was known before. */
  ghost function PropsNow(t: Trace, c: Chunk): Props {
    Fold(Noted, t.state.props, AllSaid(false, t.state.active, c))
  }

  /** A modifier ran: the ruleset was asked, and the first matching rule modifies datagrams. */
  ghost predicate Modifies(t: Trace, c: Chunk, m: MatchResult) {
    Asked(t, c) && m.action == ActionModify && m.modifier.UdpModifier?
  }

  /** What a stream that is not settled makes of a datagram, `m` being the answer of the first
      rule that matches now. */
  ghost predicate Answered(t: Trace, c: Chunk, m: MatchResult, t': Trace, verdict: Verdict, packet: Option<Bytes>) {
    var asked, final := Asked(t, c), Asked(t, c) && (m.action == ActionAllow || m.action == ActionBlock);
    && t'.fed == t.fed + [c]
    && t'.answers == t.answers + (if !asked then []
                                  else if m.action != ActionModify || (Modifies(t, c, m) && !m.modifier.process(c.data).failed) then [m.action]
                                  else [ActionMaybe])
    && packet == (if Modifies(t, c, m) then m.modifier.process(c.data).packet else None)
    && verdict == (if asked && m.action == ActionAllow then AcceptStream
                   else if asked && m.action == ActionBlock then DropStream
                   else if asked && m.action == ActionDrop then Drop
                   else if Modifies(t, c, m) && !m.modifier.process(c.data).failed then AcceptModify
                   else if AllEnd(false, t.state.active, c) then AcceptStream
                   else Accept)
    && t'.state.active == (if final then [] else Remaining(false, t.state.active, c))
    && t'.state.props == (if final then Fold(Noted, PropsNow(t, c), ClosingSaid(Remaining(false, t.state.active, c))) else PropsNow(t, c))
    && (Settled(t'.state) ==> t'.state.last == verdict)
  }

  lemma EffectiveIs(m: MatchResult, data: Bytes)
    ensures var (a, packet) := Effective(m, data);
            && packet == (if m.action == ActionModify && m.modifier.UdpModifier? then m.modifier.process(data).packet else None)
            && (if m.action != ActionModify then a == m.action
                else a == if m.modifier.UdpModifier? && !m.modifier.process(data).failed then ActionModify else ActionMaybe)
  {}

  lemma DecidedPassage(f: State, asked: bool, a: Action, packet: Option<Bytes>, c: Chunk)
    requires !f.virgin
    ensures var p := if asked then Decide(f, a, packet, c) else Conclude(f, Accept, None, c, None);
            var final := asked && (a == ActionAllow || a == ActionBlock);
            && p.fed == Some(c) && p.answer == (if asked then Some(a) else None) && p.packet == (if asked then packet else None)
            && p.verdict == (if asked && a == ActionAllow then AcceptStream
                             else if asked && a == ActionBlock then DropStream
                             else if asked && a == ActionDrop then Drop
                             else if asked && a == ActionModify then AcceptModify
                             else if |f.active| == 0 then AcceptStream
                             else Accept)
            && p.state.active == (if final then [] else f.active)
            && p.state.props == (if final then PropsAfterClose(f.active, f.props) else f.props)
            && (Settled(p.state) ==> p.state.last == p.verdict)
  {}

  lemma FedIsAnswered(rules: seq<Rule>, info: StreamInfo, t: Trace, c: Chunk, m: MatchResult)
    requires AllRunning(false, t.state.active) && (t.state.virgin <==> t.fed == [])
    requires m == Match(rules, info, PropsNow(t, c))
    ensures var f, (a, packet) := FedState(t.state, c), Effective(m, c.data);
            && f.props == PropsNow(t, c) && f.active == Remaining(false, t.state.active, c)
            && (|f.active| == 0 <==> AllEnd(false, t.state.active, c))
            && Fed(rules, info, t.state, c) == if Asked(t, c) then Decide(f, a, packet, c) else Conclude(f, Accept, None, c, None)
  {
    AnyUpdateIff(false, t.state.active, c);
    SurvivorsAre(false, t.state.active, c);
    PropsAre(false, t.state.active, c, t.state.props);
  }

  lemma AnsweredStep(rules: seq<Rule>, info: StreamInfo, t: Trace, c: Chunk)
    returns (m: MatchResult, verdict: Verdict, packet: Option<Bytes>)
    requires !Settled(t.state) && AllRunning(false, t.state.active) && (t.state.virgin <==> t.fed == [])
    ensures var t' := Extend(rules, info, t, c);
            && t'.verdicts == t.verdicts + [verdict] && t'.packets == t.packets + [packet]
            && IsFirstMatch(rules, info, PropsNow(t, c), m)
            && Answered(t, c, m, t', verdict, packet)
  {
    m := Match(rules, info, PropsNow(t, c));
    var p := Fed(rules, info, t.state, c);
    verdict, packet := p.verdict, p.packet;
    FedIsAnswered(rules, info, t, c, m);
    EffectiveIs(m, c.data);
    var e := Effective(m, c.data);
    DecidedPassage(FedState(t.state, c), Asked(t, c), e.0, e.1, c);
    ClosingPropsAre(FedState(t.state, c).active, PropsNow(t, c));
  }

  /** Over every run, datagram by datagram. On a settled stream: the verdict on record, and
      nothing else happens. Otherwise the ruleset is asked exactly if it is the first datagram
      or an analyzer has something to say to it; its answer is that of the first rule matching
      the properties after all that was said. A payload goes out exactly when that is a
      modify rule with a modifier for datagrams that yields one, and it is that one; the
      verdict is then accept-modified exactly if the modifier did not fail. Allow, block and
      drop are the datagram's own verdict; without any of these it is accepted, for good if
      no analyzer goes on. */
  lemma DatagramAnswered(rules: seq<Rule>, info: StreamInfo, created: seq<Entry>, before: seq<Chunk>, c: Chunk)
    returns (m: MatchResult, verdict: Verdict, packet: Option<Bytes>)
    requires Unused(created)
    ensures var t, t' := Run(rules, info, created, before), Run(rules, info, created, before + [c]);
            && t'.verdicts == t.verdicts + [verdict] && t'.packets == t.packets + [packet]
            && if Settled(t.state)
               then verdict == t.state.last && packet == None && t' == t.(verdicts := t'.verdicts, packets := t'.packets)
               else IsFirstMatch(rules, info, PropsNow(t, c), m) && Answered(t, c, m, t', verdict, packet)
  {
    var t := Run(rules, info, created, before);
    FoldSnoc(Step(rules, info), Start(created), before, c);
    RunKeepsEntries(rules, info, created, before);
    VirginIffUnfed(rules, info, created, before);
    ActiveRuns(false, t.state.active, t.fed);
    if Settled(t.state) {
      SettledStep(rules, info, t, c);
      m, verdict, packet := MatchResult(ActionMaybe, NotForUdp), t.state.last, None;
    } else {
      m, verdict, packet := AnsweredStep(rules, info, t, c);
    }
  }

  class UdpContext {
    var verdict: Verdict
    var packet: Option<Bytes>
    constructor () ensures verdict == Accept && packet == None { verdict, packet := Accept, None; }
  }

  /** The stream object; Value() is its value and the functions above are its specification. */
  class UdpStream {
    const rules: seq<Rule>
    const info: StreamInfo
    var virgin: bool
    var active: seq<Entry>
    var finished: seq<Entry>
    var last: Verdict
    var props: Props

    function Value(): State reads this {
      State(virgin, active, finished, last, props)
    }

    constructor (rules: seq<Rule>, info: StreamInfo, created: seq<Entry>)
      ensures this.rules == rules && this.info == info && Value() == New(created)
    {
      this.rules, this.info := rules, info;
      virgin, active, finished, last, props := true, created, [], Verdict.Accept, map[];
    }

    method FeedOne(entry: Entry, c: Chunk) returns (r: FeedResult)
      ensures r == FeedEntry(false, entry, c)
    {
      var (fed, answer) := entry.Invoke(Entries.Feed(c));
      r := FeedResult(fed, answer.update, NoUpdate, answer.done);
      if entry.limit > 0 {
        fed := fed.(quota := fed.quota - |c.data|);
        r := r.(entry := fed);
        if fed.quota <= 0 {
          var (closed, final) := fed.Invoke(Entries.Close(true));
          r := FeedResult(closed, answer.update, final.update, true);
        }
      }
    }

    method FeedActive(c: Chunk) returns (updated: bool)
      modifies this`active, this`finished, this`props
      ensures active == Survivors(false, old(active), c)
      ensures finished == old(finished) + Leavers(false, old(active), c)
      ensures props == PropsAfter(false, old(active), c, old(props))
      ensures updated == AnyUpdate(false, old(active), c)
    {
      updated := false;
      var i := |active|;
      while i > 0
        invariant 0 <= i <= |old(active)|
        invariant active == old(active)[..i] + Survivors(false, old(active)[i..], c)
        invariant finished == old(finished) + Leavers(false, old(active)[i..], c)
        invariant props == PropsAfter(false, old(active)[i..], c, old(props))
        invariant updated == AnyUpdate(false, old(active)[i..], c)
      {
        i := i - 1;
        ghost var rest := Survivors(false, old(active)[i + 1..], c);
        OneTurn(false, old(active), i, c, old(props));
        WriteBack(old(active), i, rest, FeedEntry(false, old(active)[i], c).entry);
        AddLast(old(finished), Leavers(false, old(active)[i + 1..], c), FeedEntry(false, old(active)[i], c).entry);
        var r := FeedOne(active[i], c);
        props := Apply(props, active[i].name, r.update);
        props := Apply(props, active[i].name, r.closeUpdate);
        updated := updated || r.Updates();
        active := active[i := r.entry];
        if r.done {
          active := active[..i] + active[i + 1..];
          finished := finished + [r.entry];
        }
      }
      assert old(active)[0..] == old(active);
    }

    method CloseActiveEntries()
      modifies this`active, this`finished, this`props
      ensures active == []
      ensures finished == old(finished) + CloseAll(old(active))
      ensures props == PropsAfterClose(old(active), old(props))
    {
      var closed: seq<Entry> := [];
      for i := 0 to |active|
        invariant active == old(active) && finished == old(finished)
        invariant closed == CloseAll(active[..i])
        invariant props == PropsAfterClose(active[..i], old(props))
      {
        var (entry, answer) := CloseEntry(active[i]);
        props := Apply(props, active[i].name, answer.update);
        closed := closed + [entry];
        assert active[..i + 1][..i] == active[..i];
      }
      assert active[..|active|] == old(active);
      finished := finished + closed;
      active := [];
    }

    method Accept(ctx: UdpContext) returns (ok: bool)
      modifies ctx`verdict
      ensures ok == (|active| > 0 || virgin)
      ensures ctx.verdict == if ok then old(ctx.verdict) else last
    {
      if |active| > 0 || virgin {
        return true;
      }
      ctx.verdict := last;
      return false;
    }

    method Feed(c: Chunk, ctx: UdpContext)
      requires ctx.verdict == Verdict.Accept && ctx.packet == None
      modifies this, ctx
      ensures Value() == Fed(rules, info, old(Value()), c).state
      ensures ctx.verdict == Fed(rules, info, old(Value()), c).verdict
      ensures ctx.packet == Fed(rules, info, old(Value()), c).packet
    {
      var updated := FeedActive(c);
      if updated || virgin {
        virgin := false;
        var result := RunMatch(rules, info, props);
        var action := result.action;
        if action == ActionModify {
          match result.modifier {
            case NotForUdp => action := ActionMaybe;
            case UdpModifier(process) =>
              var done := process(c.data);
              ctx.packet := done.packet;
              if done.failed {
                action := ActionMaybe;
              }
          }
        }
        if action != ActionMaybe {
          var (verdict, final) := ActionToVerdict(action);
          last := verdict;
          ctx.verdict := verdict;
          if final {
            CloseActiveEntries();
          }
        }
      }
      if |active| == 0 && ctx.verdict.Accept? {
        last := AcceptStream;
        ctx.verdict := AcceptStream;
      }
    }

    method Close()
      modifies this
      ensures Value() == State(old(virgin), [], old(finished) + CloseAll(old(active)), old(last),
                               PropsAfterClose(old(active), old(props)))
    {
      CloseActiveEntries();
    }

    /** One datagram with a fresh context. */
    method Handle(c: Chunk) returns (verdict: Verdict, packet: Option<Bytes>)
      modifies this
      ensures Value() == OnDatagram(rules, info, old(Value()), c).state
      ensures verdict == OnDatagram(rules, info, old(Value()), c).verdict
      ensures packet == OnDatagram(rules, info, old(Value()), c).packet
    {
      var ctx := new UdpContext();
      var ok := Accept(ctx);
      if ok {
        Feed(c, ctx);
      }
      verdict, packet := ctx.verdict, ctx.packet;
    }
  }
}
