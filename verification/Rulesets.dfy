/** Rule actions, packet verdicts and the first-match rule scan. */
module Rulesets {
  import opened Entries
  import opened Options

  /** Actions are integers in the program; any other code is OtherAction. */
  datatype Action = ActionMaybe | ActionAllow | ActionBlock | ActionDrop | ActionModify | OtherAction(code: int)

  datatype Verdict = Accept | AcceptModify | AcceptStream | Drop | DropStream

  datatype Processed = Processed(packet: Option<Bytes>, failed: bool)

  /** The instance a rule's modifier was built into, if it can modify datagrams at all. */
  datatype ModInstance = NotForUdp | UdpModifier(process: Bytes -> Processed)

  datatype StreamInfo = StreamInfo(id: int, srcIP: Bytes, dstIP: Bytes, srcPort: nat, dstPort: nat)

  /** Running a rule's program: an error, the value true, or anything else. */
  datatype RunResult = RunError | RunTrue | RunOther

  /** A compiled rule; a rule without an action only logs. */
  datatype Rule = Rule(action: Option<Action>, modifier: ModInstance, program: (StreamInfo, Props) -> RunResult)

  datatype MatchResult = MatchResult(action: Action, modifier: ModInstance)

  predicate Decides(rule: Rule, info: StreamInfo, props: Props) {
    rule.program(info, props).RunTrue? && rule.action.Some?
  }

  /** r is the answer of the first rule that decides, or maybe when none does. */
  ghost predicate IsFirstMatch(rules: seq<Rule>, info: StreamInfo, props: Props, r: MatchResult) {
    || (r == MatchResult(ActionMaybe, NotForUdp) && forall i :: 0 <= i < |rules| ==> !Decides(rules[i], info, props))
    || (exists i :: 0 <= i < |rules| && Decides(rules[i], info, props)
          && r == MatchResult(rules[i].action.value, rules[i].modifier)
          && forall j :: 0 <= j < i ==> !Decides(rules[j], info, props))
  }

  function Match(rules: seq<Rule>, info: StreamInfo, props: Props): (r: MatchResult)
    ensures IsFirstMatch(rules, info, props, r)
  {
    if rules == [] then MatchResult(ActionMaybe, NotForUdp)
    else if Decides(rules[0], info, props) then MatchResult(rules[0].action.value, rules[0].modifier)
    else
      var r := Match(rules[1..], info, props);
      assert forall i :: 0 <= i < |rules[1..]| ==> rules[1..][i] == rules[i + 1];
      r
  }

  lemma FirstMatchUnique(rules: seq<Rule>, info: StreamInfo, props: Props, r: MatchResult, q: MatchResult)
    requires IsFirstMatch(rules, info, props, r) && IsFirstMatch(rules, info, props, q)
    ensures r == q
  {}

  /** The rule loop of the program; errors and log-only rules fall through. */
  method RunMatch(rules: seq<Rule>, info: StreamInfo, props: Props) returns (r: MatchResult)
    ensures r == Match(rules, info, props)
  {
    for i := 0 to |rules|
      invariant forall j :: 0 <= j < i ==> !Decides(rules[j], info, props)
    {
      match rules[i].program(info, props) {
        case RunError =>
        case RunOther =>
        case RunTrue =>
          if rules[i].action.Some? {
            r := MatchResult(rules[i].action.value, rules[i].modifier);
            FirstMatchUnique(rules, info, props, r, Match(rules, info, props));
            return;
          }
      }
    }
    r := MatchResult(ActionMaybe, NotForUdp);
    FirstMatchUnique(rules, info, props, r, Match(rules, info, props));
  }
}
