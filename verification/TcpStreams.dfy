/** A TCP stream under interception: its verdict and its analyzers. */
module TcpStreams {
  import opened Entries
  import opened Folds
  import opened Options
  import opened Reports
  import opened Rulesets

  datatype State = State(virgin: bool, active: seq<Entry>, finished: seq<Entry>, last: Verdict, props: Props)

  /** One packet's passage: the verdict it got, the segment handed to the analyzers if
      any, and the answer of the ruleset if it was asked. */
  datatype Passage = Passage(state: State, verdict: Verdict, fed: Option<Chunk>, answer: Option<Action>)

  function New(created: seq<Entry>): State {
    State(true, created, [], Accept, map[])
  }

  function ActionToVerdict(a: Action): Verdict {
    match a
    case ActionMaybe | ActionAllow | ActionModify => AcceptStream
    case ActionBlock | ActionDrop => DropStream
    case OtherAction(_) => AcceptStream
  }

  predicate Decisive(a: Action) {
    !a.ActionMaybe? && !a.ActionModify?
  }

  function Conclude(s: State, verdict: Verdict, c: Chunk, answer: Option<Action>): Passage {
    if |s.active| == 0 && verdict.Accept? then Passage(s.(last := AcceptStream), AcceptStream, Some(c), answer)
    else Passage(s, verdict, Some(c), answer)
  }

  function FedState(s: State, c: Chunk): State {
    State(false, Survivors(true, s.active, c), s.finished + Leavers(true, s.active, c),
          s.last, PropsAfter(true, s.active, c, s.props))
  }

  /** What the ruleset's answer makes of a stream whose analyzers were just fed. */
  function Decide(s: State, a: Action, c: Chunk): Passage {
    if !Decisive(a) then Conclude(s, Accept, c, Some(a))
    else
      var v := ActionToVerdict(a);
      Conclude(State(s.virgin, [], s.finished + CloseAll(s.active), v, PropsAfterClose(s.active, s.props)), v, c, Some(a))
  }

  function Reassembled(rules: seq<Rule>, info: StreamInfo, s: State, c: Chunk): Passage {
    var fed := FedState(s, c);
    if !AnyUpdate(true, s.active, c) && !s.virgin then Conclude(fed, Accept, c, None)
    else Decide(fed, Match(rules, info, fed.props).action, c)
  }

  /** A packet as the assembler presents it: Accept first; its segment, when there is
      one to deliver, only after Accept agreed. */
  function OnPacket(rules: seq<Rule>, info: StreamInfo, s: State, segment: Option<Chunk>): Passage {
    if |s.active| == 0 && !s.virgin then Passage(s, s.last, None, None)
    else if segment.None? then Passage(s, Accept, None, None)
    else Reassembled(rules, info, s, segment.value)
  }

  datatype Trace = Trace(state: State, verdicts: seq<Verdict>, fed: seq<Chunk>, answers: seq<Action>)

  /** A verdict is on record exactly when the stream is settled: looked at, and with no
      analyzer left. */
  ghost predicate VerdictOk(s: State) {
    && (s.last == Accept || s.last == AcceptStream || s.last == DropStream)
    && (s.last != Accept <==> !s.virgin && |s.active| == 0)
  }

  /** The verdict on record is the ruleset's: at most the last answer is decisive, and
      then the verdict is what that action stands for; otherwise it never drops. */
  ghost predicate AnswersOk(s: State, answers: seq<Action>) {
    && (forall i :: 0 <= i < |answers| - 1 ==> !Decisive(answers[i]))
    && (if answers != [] && Decisive(answers[|answers| - 1])
        then s.last == ActionToVerdict(answers[|answers| - 1])
        else s.last != DropStream)
  }

  function Extend(rules: seq<Rule>, info: StreamInfo, t: Trace, segment: Option<Chunk>): Trace {
    var p := OnPacket(rules, info, t.state, segment);
    Trace(p.state, t.verdicts + [p.verdict], t.fed + Opt(p.fed), t.answers + Opt(p.answer))
  }

  function Step(rules: seq<Rule>, info: StreamInfo): (Trace, Option<Chunk>) -> Trace {
    (t, segment) => Extend(rules, info, t, segment)
  }

  function RunFrom(rules: seq<Rule>, info: StreamInfo, t: Trace, packets: seq<Option<Chunk>>): Trace {
    Fold(Step(rules, info), t, packets)
  }

  /** The life of a stream over any packets. */
  function Run(rules: seq<Rule>, info: StreamInfo, created: seq<Entry>, packets: seq<Option<Chunk>>): Trace {
    RunFrom(rules, info, Trace(New(created), [], [], []), packets)
  }

  /** What a delivered segment does to the two lists: feed all, then perhaps close all. */
  lemma ListsAfter(rules: seq<Rule>, info: StreamInfo, s: State, c: Chunk)
    ensures var p := Reassembled(rules, info, s, c);
      var stay, gone := Survivors(true, s.active, c), s.finished + Leavers(true, s.active, c);
      && p.fed == Some(c)
      && ((p.state.active == stay && p.state.finished == gone)
          || (p.state.active == [] && p.state.finished == gone + CloseAll(stay)))
  {}

  lemma EntriesStep(rules: seq<Rule>, info: StreamInfo, created: seq<Entry>, t: Trace, segment: Option<Chunk>)
    requires EntriesOk(true, created, t.fed, t.state.active, t.state.finished)
    ensures var t' := Extend(rules, info, t, segment);
      EntriesOk(true, created, t'.fed, t'.state.active, t'.state.finished)
  {
    var s := t.state;
    if segment.None? || (|s.active| == 0 && !s.virgin) {
      assert t.fed + [] == t.fed;
    } else {
      var c := segment.value;
      FeedStep(true, created, t.fed, s.active, s.finished, c);
      CloseStep(true, created, t.fed + [c], Survivors(true, s.active, c), s.finished + Leavers(true, s.active, c));
      ListsAfter(rules, info, s, c);
    }
  }

  lemma VerdictStep(rules: seq<Rule>, info: StreamInfo, s: State, segment: Option<Chunk>)
    requires VerdictOk(s)
    ensures VerdictOk(OnPacket(rules, info, s, segment).state)
  {}

  ghost predicate AnswersKept(p: Passage, answers: seq<Action>) {
    AnswersOk(p.state, answers + Opt(p.answer))
  }

  lemma DecideAnswers(s: State, a: Action, c: Chunk, answers: seq<Action>)
    requires s.last == Accept && !s.virgin && AnswersOk(s, answers)
    ensures AnswersKept(Decide(s, a, c), answers) && AnswersKept(Conclude(s, Accept, c, None), answers)
  {
    assert (answers + [a])[|answers|] == a;
    assert answers + [] == answers;
  }

  lemma AnswersStep(rules: seq<Rule>, info: StreamInfo, s: State, answers: seq<Action>, segment: Option<Chunk>)
    requires VerdictOk(s) && AnswersOk(s, answers)
    ensures AnswersKept(OnPacket(rules, info, s, segment), answers)
  {
    assert answers + [] == answers;
    if segment.Some? && (|s.active| != 0 || s.virgin) {
      var fed := FedState(s, segment.value);
      DecideAnswers(fed, Match(rules, info, fed.props).action, segment.value, answers);
    }
  }

  /** Typestate, quotas and permutation of the analyzers after every run of packets. */
  lemma {:induction false} RunKeepsEntries(rules: seq<Rule>, info: StreamInfo, created: seq<Entry>, packets: seq<Option<Chunk>>)
    requires Unused(created)
    ensures var t := Run(rules, info, created, packets);
      EntriesOk(true, created, t.fed, t.state.active, t.state.finished)
  {
    if packets == [] {
      FreshEntriesOk(true, created);
    } else {
      RunKeepsEntries(rules, info, created, packets[..|packets| - 1]);
      EntriesStep(rules, info, created, Run(rules, info, created, packets[..|packets| - 1]), packets[|packets| - 1]);
    }
  }

  /** What the verdict on record means after every run of packets. */
  lemma {:induction false} RunKeepsVerdict(rules: seq<Rule>, info: StreamInfo, created: seq<Entry>, packets: seq<Option<Chunk>>)
    ensures var t := Run(rules, info, created, packets);
      VerdictOk(t.state) && AnswersOk(t.state, t.answers) && |t.verdicts| == |packets|
  {
    if packets != [] {
      RunKeepsVerdict(rules, info, created, packets[..|packets| - 1]);
      var t := Run(rules, info, created, packets[..|packets| - 1]);
      VerdictStep(rules, info, t.state, packets[|packets| - 1]);
      AnswersStep(rules, info, t.state, t.answers, packets[|packets| - 1]);
    }
  }

  /** ReassemblyComplete ends the stream: every analyzer it was created with is then
      finished, after a legal history. */
  lemma CompletionFinishesAll(rules: seq<Rule>, info: StreamInfo, created: seq<Entry>, packets: seq<Option<Chunk>>)
    requires Unused(created)
    ensures var t := Run(rules, info, created, packets);
      EntriesOk(true, created, t.fed, [], t.state.finished + CloseAll(t.state.active))
  {
    var t := Run(rules, info, created, packets);
    RunKeepsEntries(rules, info, created, packets);
    CloseStep(true, created, t.fed, t.state.active, t.state.finished);
  }

  ghost predicate Settled(s: State) {
    !s.virgin && |s.active| == 0
  }

  lemma SettledStep(rules: seq<Rule>, info: StreamInfo, t: Trace, segment: Option<Chunk>)
    requires Settled(t.state)
    ensures Extend(rules, info, t, segment) == t.(verdicts := t.verdicts + [t.state.last])
  {
    assert t.fed + [] == t.fed && t.answers + [] == t.answers;
  }

  lemma {:induction false} SettledRun(rules: seq<Rule>, info: StreamInfo, t: Trace, packets: seq<Option<Chunk>>)
    requires Settled(t.state)
    ensures RunFrom(rules, info, t, packets) == t.(verdicts := t.verdicts + Repeat(t.state.last, |packets|))
  {
    if packets != [] {
      var n := |packets| - 1;
      SettledRun(rules, info, t, packets[..n]);
      SettledStep(rules, info, RunFrom(rules, info, t, packets[..n]), packets[n]);
    }
  }

  /** Finality: once a verdict is on record nothing else changes, and every later packet
      gets that verdict. */
  lemma VerdictIsFinal(rules: seq<Rule>, info: StreamInfo, created: seq<Entry>,
                       before: seq<Option<Chunk>>, later: seq<Option<Chunk>>)
    requires Run(rules, info, created, before).state.last != Accept
    ensures var t := Run(rules, info, created, before);
      Run(rules, info, created, before + later) == t.(verdicts := t.verdicts + Repeat(t.state.last, |later|))
  {
    RunKeepsVerdict(rules, info, created, before);
    FoldConcat(Step(rules, info), Trace(New(created), [], [], []), before, later);
    SettledRun(rules, info, Run(rules, info, created, before), later);
  }

  // ---- What each packet is answered, and why ----

  lemma {:induction false} VirginIffUnfed(rules: seq<Rule>, info: StreamInfo, created: seq<Entry>, packets: seq<Option<Chunk>>)
    ensures var t := Run(rules, info, created, packets); t.state.virgin <==> t.fed == []
  {
    if packets != [] {
      var n := |packets| - 1;
      VirginIffUnfed(rules, info, created, packets[..n]);
      UnfedStep(rules, info, Run(rules, info, created, packets[..n]), packets[n]);
    }
  }

  lemma FedOrSame(rules: seq<Rule>, info: StreamInfo, s: State, segment: Option<Chunk>)
    ensures var p := OnPacket(rules, info, s, segment);
            if p.fed.Some? then !p.state.virgin else p.state == s
  {}

  lemma UnfedStep(rules: seq<Rule>, info: StreamInfo, t: Trace, segment: Option<Chunk>)
    requires t.state.virgin <==> t.fed == []
    ensures var t' := Extend(rules, info, t, segment); t'.state.virgin <==> t'.fed == []
  {
    FedOrSame(rules, info, t.state, segment);
    assert t.fed + [] == t.fed;
  }

  /** The ruleset is asked about a segment: it is the stream's first, or some active analyzer
      has something to say to it. */
  ghost predicate Asked(t: Trace, c: Chunk) {
    t.fed == [] || SomeSpeak(true, t.state.active, c)
  }

  /** The properties it is asked about: what the analyzers said to this segment applied, in
      the order they said it, to what was known before. */
  ghost function PropsNow(t: Trace, c: Chunk): Props {
    Fold(Noted, t.state.props, AllSaid(true, t.state.active, c))
  }

  /** What a stream that is not settled makes of a segment, `m` being the answer of the first
      rule that matches now. */
  ghost predicate Answered(t: Trace, c: Chunk, m: MatchResult, t': Trace, verdict: Verdict) {
    var decided := Asked(t, c) && m.action != ActionMaybe && m.action != ActionModify;
    && t'.fed == t.fed + [c]
    && t'.answers == t.answers + (if Asked(t, c) then [m.action] else [])
    && verdict == (if decided then (if m.action == ActionBlock || m.action == ActionDrop then DropStream else AcceptStream)
                   else if AllEnd(true, t.state.active, c) then AcceptStream
                   else Accept)
    && t'.state.active == (if decided then [] else Remaining(true, t.state.active, c))
    && t'.state.props == (if decided then Fold(Noted, PropsNow(t, c), ClosingSaid(Remaining(true, t.state.active, c))) else PropsNow(t, c))
    && (Settled(t'.state) ==> t'.state.last == verdict)
  }

  lemma DecidedPassage(f: State, asked: bool, a: Action, c: Chunk)
    requires !f.virgin
    ensures var p := if asked then Decide(f, a, c) else Conclude(f, Accept, c, None);
            var decided := asked && a != ActionMaybe && a != ActionModify;
            && p.fed == Some(c) && p.answer == (if asked then Some(a) else None)
            && p.verdict == (if decided then (if a == ActionBlock || a == ActionDrop then DropStream else AcceptStream)
                             else if |f.active| == 0 then AcceptStream
                             else Accept)
            && p.state.active == (if decided then [] else f.active)
            && p.state.props == (if decided then PropsAfterClose(f.active, f.props) else f.props)
            && (Settled(p.state) ==> p.state.last == p.verdict)
  {}

  lemma ReassembledIs(rules: seq<Rule>, info: StreamInfo, t: Trace, c: Chunk, m: MatchResult)
    requires AllRunning(true, t.state.active) && (t.state.virgin <==> t.fed == [])
    requires m == Match(rules, info, PropsNow(t, c))
    ensures var f := FedState(t.state, c);
            && f.props == PropsNow(t, c) && f.active == Remaining(true, t.state.active, c)
            && (|f.active| == 0 <==> AllEnd(true, t.state.active, c))
            && Reassembled(rules, info, t.state, c) == if Asked(t, c) then Decide(f, m.action, c) else Conclude(f, Accept, c, None)
  {
    AnyUpdateIff(true, t.state.active, c);
    SurvivorsAre(true, t.state.active, c);
    PropsAre(true, t.state.active, c, t.state.props);
  }

  lemma AnsweredStep(rules: seq<Rule>, info: StreamInfo, t: Trace, c: Chunk) returns (m: MatchResult, verdict: Verdict)
    requires !Settled(t.state) && AllRunning(true, t.state.active) && (t.state.virgin <==> t.fed == [])
    ensures var t' := Extend(rules, info, t, Some(c));
            && t'.verdicts == t.verdicts + [verdict]
            && IsFirstMatch(rules, info, PropsNow(t, c), m)
            && Answered(t, c, m, t', verdict)
  {
    m := Match(rules, info, PropsNow(t, c));
    verdict := Reassembled(rules, info, t.state, c).verdict;
    ReassembledIs(rules, info, t, c, m);
    DecidedPassage(FedState(t.state, c), Asked(t, c), m.action, c);
    ClosingPropsAre(FedState(t.state, c).active, PropsNow(t, c));
  }

  /** Over every run, packet by packet. On a settled stream: the verdict on record, and
      nothing else happens. With nothing to deliver: accepted for now. On a segment: the
      ruleset is asked exactly if it is the first one or an analyzer has something to say to
      it; its answer is that of the first rule matching the properties after all that was
      said; and the segment's own verdict is what a decisive answer stands for, accept for
      good if there is none and no analyzer goes on, and accept for now otherwise. */
  lemma PacketAnswered(rules: seq<Rule>, info: StreamInfo, created: seq<Entry>, before: seq<Option<Chunk>>, segment: Option<Chunk>)
    returns (m: MatchResult, verdict: Verdict)
    requires Unused(created)
    ensures var t, t' := Run(rules, info, created, before), Run(rules, info, created, before + [segment]);
            && t'.verdicts == t.verdicts + [verdict]
            && if Settled(t.state) then verdict == t.state.last && t' == t.(verdicts := t'.verdicts)
               else if segment.None? then verdict == Accept && t' == t.(verdicts := t'.verdicts)
               else IsFirstMatch(rules, info, PropsNow(t, segment.value), m) && Answered(t, segment.value, m, t', verdict)
  {
    var t := Run(rules, info, created, before);
    FoldSnoc(Step(rules, info), Trace(New(created), [], [], []), before, segment);
    RunKeepsVerdict(rules, info, created, before);
    RunKeepsEntries(rules, info, created, before);
    VirginIffUnfed(rules, info, created, before);
    ActiveRuns(true, t.state.active, t.fed);
    m, verdict := MatchResult(ActionMaybe, NotForUdp), OnPacket(rules, info, t.state, segment).verdict;
    if Settled(t.state) {
      SettledStep(rules, info, t, segment);
    } else if segment.None? {
      assert t.fed + [] == t.fed && t.answers + [] == t.answers;
    } else {
      m, verdict := AnsweredStep(rules, info, t, segment.value);
    }
  }

  class TcpContext {
    var verdict: Verdict
    constructor () ensures verdict == Accept { verdict := Accept; }
  }

  /** The stream object; State() is its value and the functions above are its specification. */
  class TcpStream {
    const rules: seq<Rule>
    const info: StreamInfo
    var virgin: bool
    var active: seq<Entry>
    var finished: seq<Entry>
    var last: Verdict
    var props: Props

    function Value(): State reads this {
      State(virgin, active, finished, last, props)
    }

    constructor (rules: seq<Rule>, info: StreamInfo, created: seq<Entry>)
      ensures this.rules == rules && this.info == info && Value() == New(created)
    {
      this.rules, this.info := rules, info;
      virgin, active, finished, last, props := true, created, [], Verdict.Accept, map[];
    }

    method FeedOne(entry: Entry, c: Chunk) returns (r: FeedResult)
      ensures r == FeedEntry(true, entry, c)
    {
      if entry.limit <= 0 {
        var (fed, answer) := entry.Invoke(Feed(c));
        return FeedResult(fed, answer.update, NoUpdate, answer.done);
      }
      var data := c.data;
      if |data| > entry.quota {
        data := if entry.quota < 0 then [] else data[..entry.quota];
      }
      var (fed, answer) := entry.Invoke(Feed(c.(data := data)));
      fed := fed.(quota := fed.quota - |data|);
      if fed.quota <= 0 {
        var (closed, final) := fed.Invoke(Close(true));
        return FeedResult(closed, answer.update, final.update, true);
      }
      return FeedResult(fed, answer.update, NoUpdate, answer.done);
    }

    /** Feeds every active entry, last first, taking finished ones out of the list in place. */
    method FeedActive(c: Chunk) returns (updated: bool)
      modifies this`active, this`finished, this`props
      ensures active == Survivors(true, old(active), c)
      ensures finished == old(finished) + Leavers(true, old(active), c)
      ensures props == PropsAfter(true, old(active), c, old(props))
      ensures updated == AnyUpdate(true, old(active), c)
    {
      updated := false;
      var i := |active|;
      while i > 0
        invariant 0 <= i <= |old(active)|
        invariant active == old(active)[..i] + Survivors(true, old(active)[i..], c)
        invariant finished == old(finished) + Leavers(true, old(active)[i..], c)
        invariant props == PropsAfter(true, old(active)[i..], c, old(props))
        invariant updated == AnyUpdate(true, old(active)[i..], c)
      {
        i := i - 1;
        ghost var rest := Survivors(true, old(active)[i + 1..], c);
        OneTurn(true, old(active), i, c, old(props));
        WriteBack(old(active), i, rest, FeedEntry(true, old(active)[i], c).entry);
        AddLast(old(finished), Leavers(true, old(active)[i + 1..], c), FeedEntry(true, old(active)[i], c).entry);
        var r := FeedOne(active[i], c);
        props := Apply(props, active[i].name, r.update);
        props := Apply(props, active[i].name, r.closeUpdate);
        updated := updated || r.Updates();
        active := active[i := r.entry];
        if r.done {
          active := active[..i] + active[i + 1..];
          finished := finished + [r.entry];
        }
      }
      assert old(active)[0..] == old(active);
    }

    method CloseActiveEntries()
      modifies this`active, this`finished, this`props
      ensures active == []
      ensures finished == old(finished) + CloseAll(old(active))
      ensures props == PropsAfterClose(old(active), old(props))
    {
      var closed: seq<Entry> := [];
      for i := 0 to |active|
        invariant active == old(active) && finished == old(finished)
        invariant closed == CloseAll(active[..i])
        invariant props == PropsAfterClose(active[..i], old(props))
      {
        var (entry, answer) := CloseEntry(active[i]);
        props := Apply(props, active[i].name, answer.update);
        closed := closed + [entry];
        assert active[..i + 1][..i] == active[..i];
      }
      assert active[..|active|] == old(active);
      assert closed == CloseAll(old(active));
      finished := finished + closed;
      active := [];
    }

    method Accept(ctx: TcpContext) returns (ok: bool)
      modifies ctx
      ensures ok == (|active| > 0 || virgin)
      ensures ctx.verdict == if ok then old(ctx.verdict) else last
    {
      if |active| > 0 || virgin {
        return true;
      }
      ctx.verdict := last;
      return false;
    }

    method ReassembledSG(c: Chunk, ctx: TcpContext)
      requires ctx.verdict == Verdict.Accept
      modifies this, ctx
      ensures Value() == Reassembled(rules, info, old(Value()), c).state
      ensures ctx.verdict == Reassembled(rules, info, old(Value()), c).verdict
    {
      var updated := FeedActive(c);
      if updated || virgin {
        virgin := false;
        var result := RunMatch(rules, info, props);
        if Decisive(result.action) {
          last := ActionToVerdict(result.action);
          ctx.verdict := last;
          CloseActiveEntries();
        }
      }
      if |active| == 0 && ctx.verdict.Accept? {
        last := AcceptStream;
        ctx.verdict := AcceptStream;
      }
    }

    method ReassemblyComplete() returns (remove: bool)
      modifies this
      ensures remove
      ensures Value() == State(old(virgin), [], old(finished) + CloseAll(old(active)), old(last),
                               PropsAfterClose(old(active), old(props)))
    {
      CloseActiveEntries();
      return true;
    }

    /** One packet with a fresh context, as the worker and the assembler run it. */
    method Handle(segment: Option<Chunk>) returns (verdict: Verdict)
      modifies this
      ensures Value() == OnPacket(rules, info, old(Value()), segment).state
      ensures verdict == OnPacket(rules, info, old(Value()), segment).verdict
    {
      var ctx := new TcpContext();
      var ok := Accept(ctx);
      if ok && segment.Some? {
        ReassembledSG(segment.value, ctx);
      }
      verdict := ctx.verdict;
    }
  }
}
