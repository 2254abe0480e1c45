/** Every packet counted by an agent is, at any moment, in exactly one place on its way to
    the server's totals. */
module Accounting {
  import opened Aggregator
  import opened FlowKeys
  import opened Ledger
  import opened Trackers

  /** Which of the four counters of a tally. */
  datatype Column = BytesSent | PacketsSent | BytesReceived | PacketsReceived

  function At(t: Tally, c: Column): nat {
    match c
    case BytesSent => t.sent.bytes
    case PacketsSent => t.sent.packets
    case BytesReceived => t.received.bytes
    case PacketsReceived => t.received.packets
  }

  /** An agent's packet pipe, by node and interface name. */
  datatype Place = Place(node: string, iface: string)

  type Pipes = map<Place, Books>

  function PipeAt(pipes: Pipes, p: Place): Books {
    if p in pipes then pipes[p] else EMPTY
  }

  datatype Seen = Seen(place: Place, packet: Packet)

  /** The agents' trackers, the messages under way, the server; and what became of the rest. */
  datatype System = System(pipes: Pipes, wire: seq<Message>, server: Server,
                           processed: seq<Seen>, dropped: seq<Message>, expired: seq<Message>)

  datatype Step =
    | Process(place: Place, packet: Packet)
    | Drain(message: Message)
    | Deliver(index: nat)
    | Lose(index: nat)
    | Expire(place: Place, gone: seq<Item<string>>)
    | Enrol(node: string, names: seq<string>)

  /** What the three trackers of a pipe are credited with for one packet. */
  function Items(p: Packet): Report {
    Report(HostItems(p), FlowItems(p), ProtocolItems(p))
  }

  /** Snapshots of the interfaces in turn, each emptying its trackers. */
  function Drained(pipes: Pipes, node: string, parts: seq<Part>): Pipes {
    if parts == [] then pipes
    else Drained(pipes, node, parts[..|parts| - 1])[Place(node, parts[|parts| - 1].iface) := EMPTY]
  }

  ghost predicate ListsBooks(report: Report, books: Books) {
    Lists(report.hosts, books.hosts) && Lists(report.flows, books.flows) && Lists(report.protocols, books.protocols)
  }

  ghost predicate CanDrain(pipes: Pipes, node: string, parts: seq<Part>) {
    parts != [] ==>
      var n := |parts| - 1;
      && CanDrain(pipes, node, parts[..n])
      && ListsBooks(parts[n].report, PipeAt(Drained(pipes, node, parts[..n]), Place(node, parts[n].iface)))
  }

  ghost predicate CanStep(s: System, step: Step) {
    match step
    case Process(place, packet) => true
    case Drain(m) => CanDrain(s.pipes, m.node, Parts(m))
    case Deliver(i) => i < |s.wire|
    case Lose(i) => i < |s.wire|
    case Expire(place, gone) => Sublists(gone, PipeAt(s.pipes, place).flows)
    case Enrol(node, names) => true
  }

  function Without(ms: seq<Message>, i: nat): seq<Message>
    requires i < |ms|
  {
    ms[..i] + ms[i + 1..]
  }

  function Flows(place: Place, items: seq<Item<string>>): Message {
    Message(place.node, [], place.iface, Report([], items, []))
  }

  function Next(s: System, step: Step): System
    requires CanStep(s, step)
  {
    match step
    case Process(place, packet) =>
      s.(pipes := s.pipes[place := Merge(PipeAt(s.pipes, place), Items(packet))],
         processed := s.processed + [Seen(place, packet)])
    case Drain(m) =>
      s.(pipes := Drained(s.pipes, m.node, Parts(m)), wire := s.wire + [m])
    case Deliver(i) =>
      s.(wire := Without(s.wire, i), server := Ingested(s.server, s.wire[i]))
    case Lose(i) =>
      s.(wire := Without(s.wire, i), dropped := s.dropped + [s.wire[i]])
    case Expire(place, gone) =>
      var books := PipeAt(s.pipes, place);
      s.(pipes := s.pipes[place := books.(flows := books.flows - KeysOf(gone))],
         expired := s.expired + [Flows(place, gone)])
    case Enrol(node, names) =>
      s.(server := Registered(s.server, node, names))
  }

  const START := System(map[], [], map[], [], [], [])

  /** Any schedule: each state follows from the one before by a possible step. */
  ghost predicate IsRun(states: seq<System>, steps: seq<Step>) {
    && |states| == |steps| + 1 && states[0] == START
    && forall i :: 0 <= i < |steps| ==>
         CanStep(states[i], steps[i]) && states[i + 1] == Next(states[i], steps[i])
  }

  /** The sums, for one key and one column. */

  function PartsWorth(parts: seq<Part>, iface: string, key: Key, c: Column): nat {
    if parts == [] then 0
    else
      var last := parts[|parts| - 1];
      PartsWorth(parts[..|parts| - 1], iface, key, c) + if last.iface == iface then At(Worth(last.report, key), c) else 0
  }

  function LetterWorth(m: Message, p: Place, key: Key, c: Column): nat {
    if m.node == p.node then PartsWorth(Parts(m), p.iface, key, c) else 0
  }

  function MailWorth(ms: seq<Message>, p: Place, key: Key, c: Column): nat {
    if ms == [] then 0 else MailWorth(ms[..|ms| - 1], p, key, c) + LetterWorth(ms[|ms| - 1], p, key, c)
  }

  /** The plain sum over the packets of a pipe. */
  function SeenWorth(seen: seq<Seen>, p: Place, key: Key, c: Column): nat {
    if seen == [] then 0
    else
      var last := seen[|seen| - 1];
      SeenWorth(seen[..|seen| - 1], p, key, c) + if last.place == p then At(Share(last.packet, key), c) else 0
  }

  function Held(server: Server, p: Place, key: Key, c: Column): nat {
    At(Find(BooksAt(NodeAt(server, p.node), p.iface), key), c)
  }

  /** Everything that became of the packets of a pipe. */
  function Owned(s: System, p: Place, key: Key, c: Column): nat {
    Held(s.server, p, key, c)
    + At(Find(PipeAt(s.pipes, p), key), c)
    + MailWorth(s.wire, p, key, c) + MailWorth(s.dropped, p, key, c) + MailWorth(s.expired, p, key, c)
  }

  /** By how much that exceeds the plain sum over the packets. */
  function Gap(s: System, p: Place, key: Key, c: Column): int {
    Owned(s, p, key, c) - SeenWorth(s.processed, p, key, c)
  }

  lemma MailSnoc(ms: seq<Message>, m: Message, p: Place, key: Key, c: Column)
    ensures MailWorth(ms + [m], p, key, c) == MailWorth(ms, p, key, c) + LetterWorth(m, p, key, c)
  {
    assert (ms + [m])[..|ms|] == ms;
  }

  lemma {:induction false} MailConcat(a: seq<Message>, b: seq<Message>, p: Place, key: Key, c: Column)
    ensures MailWorth(a + b, p, key, c) == MailWorth(a, p, key, c) + MailWorth(b, p, key, c)
  {
    if b == [] {
      assert a + b == a;
    } else {
      var n := |b| - 1;
      assert (a + b)[..|a| + n] == a + b[..n];
      MailConcat(a, b[..n], p, key, c);
    }
  }

  lemma MailWithout(ms: seq<Message>, i: nat, p: Place, key: Key, c: Column)
    requires i < |ms|
    ensures MailWorth(ms, p, key, c) == MailWorth(Without(ms, i), p, key, c) + LetterWorth(ms[i], p, key, c)
  {
    MailConcat(ms[..i], ms[i + 1..], p, key, c);
    MailSnoc(ms[..i], ms[i], p, key, c);
    MailConcat(ms[..i] + [ms[i]], ms[i + 1..], p, key, c);
    assert ms[..i] + [ms[i]] + ms[i + 1..] == ms;
  }

  /** Draining moves what is pending into the message, whatever the order and the names. */
  lemma {:induction false} DrainMoves(pipes: Pipes, node: string, parts: seq<Part>, iface: string, key: Key, c: Column)
    requires CanDrain(pipes, node, parts)
    ensures At(Find(PipeAt(pipes, Place(node, iface)), key), c)
         == At(Find(PipeAt(Drained(pipes, node, parts), Place(node, iface)), key), c) + PartsWorth(parts, iface, key, c)
  {
    if parts != [] {
      var n := |parts| - 1;
      DrainMoves(pipes, node, parts[..n], iface, key, c);
      ListedWorth(parts[n].report, PipeAt(Drained(pipes, node, parts[..n]), Place(node, parts[n].iface)), key);
    }
  }

  lemma {:induction false} DrainLeaves(pipes: Pipes, node: string, parts: seq<Part>, p: Place)
    requires p.node != node
    ensures PipeAt(Drained(pipes, node, parts), p) == PipeAt(pipes, p)
  {
    if parts != [] {
      DrainLeaves(pipes, node, parts[..|parts| - 1], p);
    }
  }

  lemma ListedWorth(report: Report, books: Books, key: Key)
    requires ListsBooks(report, books)
    ensures Worth(report, key) == Find(books, key)
    ensures Find(EMPTY, key) == ZERO
  {
    match key
    case Host(ip) => ListedAmount(report.hosts, books.hosts, ip);
    case Flow(flow) => ListedAmount(report.flows, books.flows, flow);
    case Protocol(name) => ListedAmount(report.protocols, books.protocols, name);
  }

  lemma AtPlus(a: Tally, b: Tally, c: Column)
    ensures At(Plus(a, b), c) == At(a, c) + At(b, c)
  {}

  lemma ItemsWorth(p: Packet, key: Key)
    ensures Worth(Items(p), key) == Share(p, key)
  {
    match key
    case Host(ip) => HostShare(p, ip);
    case Flow(flow) => FlowShare(p, flow);
    case Protocol(name) => ProtocolShare(p, name);
  }

  lemma CountAdds(books: Books, p: Packet, key: Key, c: Column)
    ensures At(Find(Merge(books, Items(p)), key), c) == At(Find(books, key), c) + At(Share(p, key), c)
  {
    ItemsWorth(p, key);
    MergeAdds(books, Items(p), key);
    AtPlus(Find(books, key), Share(p, key), c);
  }

  lemma ExpireMoves(books: Books, gone: seq<Item<string>>, place: Place, key: Key, c: Column)
    requires Sublists(gone, books.flows)
    ensures At(Find(books, key), c)
         == At(Find(books.(flows := books.flows - KeysOf(gone)), key), c)
          + PartsWorth(Parts(Flows(place, gone)), place.iface, key, c)
  {
    var part := Part(place.iface, Report([], gone, []));
    assert [part][..0] == [];
    assert PartsWorth([part], place.iface, key, c) == At(Worth(part.report, key), c);
    if key.Flow? {
      SublistedAmount(gone, books.flows, key.flow);
    }
  }

  /** What the server books under one name, seen from the node's first interface name. */
  function RoutedWorth(interfaces: seq<string>, parts: seq<Part>, name: string, key: Key, c: Column): nat {
    if parts == [] then 0
    else
      var last := parts[|parts| - 1];
      RoutedWorth(interfaces, parts[..|parts| - 1], name, key, c)
      + if Route(interfaces, last.iface) == name then At(Worth(last.report, key), c) else 0
  }

  lemma TakePartAdds(n: Node, part: Part, name: string, key: Key, c: Column)
    ensures At(Find(BooksAt(TakePart(n, part), name), key), c)
         == At(Find(BooksAt(n, name), key), c)
          + if Route(n.interfaces, part.iface) == name then At(Worth(part.report, key), c) else 0
  {
    var routed := Route(n.interfaces, part.iface);
    MergeAdds(BooksAt(n, routed), part.report, key);
    AtPlus(Find(BooksAt(n, routed), key), Worth(part.report, key), c);
    assert BooksAt(TakePart(n, part), name)
        == if routed == name then Merge(BooksAt(n, routed), part.report) else BooksAt(n, name);
  }

  lemma {:induction false} TakePartsNames(n: Node, parts: seq<Part>)
    ensures TakeParts(n, parts).interfaces == n.interfaces
  {
    if parts != [] {
      TakePartsNames(n, parts[..|parts| - 1]);
    }
  }

  lemma {:induction false} TakePartsAdds(n: Node, parts: seq<Part>, name: string, key: Key, c: Column)
    ensures At(Find(BooksAt(TakeParts(n, parts), name), key), c)
         == At(Find(BooksAt(n, name), key), c) + RoutedWorth(n.interfaces, parts, name, key, c)
  {
    if parts != [] {
      var k := |parts| - 1;
      TakePartsAdds(n, parts[..k], name, key, c);
      TakePartsNames(n, parts[..k]);
      TakePartAdds(TakeParts(n, parts[..k]), parts[k], name, key, c);
    }
  }

  /** Nothing is booked twice or nowhere: unnamed parts go to the first name, the rest stay put. */
  lemma {:induction false} RoutedParts(interfaces: seq<string>, parts: seq<Part>, name: string, key: Key, c: Column)
    ensures RoutedWorth(interfaces, parts, name, key, c)
         == if |interfaces| == 0 || interfaces[0] == "" then PartsWorth(parts, name, key, c)
            else if name == "" then 0
            else if name == interfaces[0] then PartsWorth(parts, name, key, c) + PartsWorth(parts, "", key, c)
            else PartsWorth(parts, name, key, c)
  {
    if parts != [] {
      RoutedParts(interfaces, parts[..|parts| - 1], name, key, c);
    }
  }

  /** What a message adds to a counter of its node: the amounts of its parts of that name, or
      of its own report if it has no parts; unnamed ones count for the first name, if there
      is one. Other nodes' counters stay. */
  lemma IngestedWorth(server: Server, m: Message, p: Place, key: Key, c: Column)
    ensures var names := NodeAt(server, m.node).interfaces;
            var parts := if |m.parts| > 0 then m.parts else [Part(m.iface, m.own)];
            Held(Ingested(server, m), p, key, c)
            == Held(server, p, key, c)
             + (if p.node != m.node then 0
                else if |names| == 0 || names[0] == "" then PartsWorth(parts, p.iface, key, c)
                else if p.iface == "" then 0
                else PartsWorth(parts, p.iface, key, c) + if p.iface == names[0] then PartsWorth(parts, "", key, c) else 0)
  {
    var n := NodeAt(server, m.node);
    TakePartsAdds(n, Parts(m), p.iface, key, c);
    RoutedParts(n.interfaces, Parts(m), p.iface, key, c);
  }

  lemma {:induction false} OpenAllKeeps(n: Node, names: seq<string>, name: string)
    ensures OpenAll(n, names).interfaces == n.interfaces
    ensures BooksAt(OpenAll(n, names), name) == BooksAt(n, name)
  {
    if names != [] {
      OpenAllKeeps(n, names[..|names| - 1], name);
      OpenAllKeeps(n, names[..|names| - 1], names[|names| - 1]);
    }
  }

  lemma {:induction false} AddNamesKeeps(n: Node, names: seq<string>, name: string)
    ensures n.interfaces <= AddNames(n, names).interfaces
    ensures BooksAt(AddNames(n, names), name) == BooksAt(n, name)
  {
    if names != [] {
      AddNamesKeeps(n, names[..|names| - 1], name);
      AddNamesKeeps(n, names[..|names| - 1], names[|names| - 1]);
    }
  }

  function Interfaces(s: System, node: string): seq<string> {
    NodeAt(s.server, node).interfaces
  }

  /** What a step changes in the balance of one pipe: only routing an unnamed part can. */
  function Shift(s: System, step: Step, p: Place, key: Key, c: Column): int
    requires CanStep(s, step)
  {
    if step.Deliver? && s.wire[step.index].node == p.node then
      var parts := Parts(s.wire[step.index]);
      RoutedWorth(Interfaces(s, p.node), parts, p.iface, key, c) - PartsWorth(parts, p.iface, key, c)
    else 0
  }

  lemma ProcessStep(s: System, place: Place, packet: Packet, p: Place, key: Key, c: Column)
    ensures Gap(Next(s, Process(place, packet)), p, key, c) == Gap(s, p, key, c)
  {
    CountAdds(PipeAt(s.pipes, place), packet, key, c);
    assert (s.processed + [Seen(place, packet)])[..|s.processed|] == s.processed;
  }

  lemma DrainStep(s: System, m: Message, p: Place, key: Key, c: Column)
    requires CanStep(s, Drain(m))
    ensures Gap(Next(s, Drain(m)), p, key, c) == Gap(s, p, key, c)
  {
    MailSnoc(s.wire, m, p, key, c);
    if p.node == m.node {
      DrainMoves(s.pipes, m.node, Parts(m), p.iface, key, c);
    } else {
      DrainLeaves(s.pipes, m.node, Parts(m), p);
    }
  }

  lemma ExpireElsewhere(s: System, place: Place, gone: seq<Item<string>>, p: Place, key: Key, c: Column)
    requires CanStep(s, Expire(place, gone)) && p != place
    ensures Gap(Next(s, Expire(place, gone)), p, key, c) == Gap(s, p, key, c)
  {
    MailSnoc(s.expired, Flows(place, gone), p, key, c);
    OtherLetter(place, gone, p, key, c);
    assert PipeAt(Next(s, Expire(place, gone)).pipes, p) == PipeAt(s.pipes, p);
  }

  lemma ExpireHere(s: System, place: Place, gone: seq<Item<string>>, key: Key, c: Column)
    requires CanStep(s, Expire(place, gone))
    ensures Gap(Next(s, Expire(place, gone)), place, key, c) == Gap(s, place, key, c)
  {
    MailSnoc(s.expired, Flows(place, gone), place, key, c);
    ExpireMoves(PipeAt(s.pipes, place), gone, place, key, c);
  }

  lemma ExpireStep(s: System, place: Place, gone: seq<Item<string>>, p: Place, key: Key, c: Column)
    requires CanStep(s, Expire(place, gone))
    ensures Gap(Next(s, Expire(place, gone)), p, key, c) == Gap(s, p, key, c)
  {
    if p == place {
      ExpireHere(s, place, gone, key, c);
    } else {
      ExpireElsewhere(s, place, gone, p, key, c);
    }
  }

  lemma OtherLetter(place: Place, gone: seq<Item<string>>, p: Place, key: Key, c: Column)
    requires p != place
    ensures LetterWorth(Flows(place, gone), p, key, c) == 0
  {
    var part := Part(place.iface, Report([], gone, []));
    assert Parts(Flows(place, gone)) == [part] && [part][..0] == [];
    if p.iface != place.iface {
      assert PartsWorth([part], p.iface, key, c) == 0;
    }
  }

  lemma DeliverStep(s: System, i: nat, p: Place, key: Key, c: Column)
    requires CanStep(s, Deliver(i))
    ensures Gap(Next(s, Deliver(i)), p, key, c) == Gap(s, p, key, c) + Shift(s, Deliver(i), p, key, c)
  {
    MailWithout(s.wire, i, p, key, c);
    TakePartsAdds(NodeAt(s.server, p.node), Parts(s.wire[i]), p.iface, key, c);
  }

  lemma LoseStep(s: System, i: nat, p: Place, key: Key, c: Column)
    requires CanStep(s, Lose(i))
    ensures Gap(Next(s, Lose(i)), p, key, c) == Gap(s, p, key, c)
  {
    MailWithout(s.wire, i, p, key, c);
    MailSnoc(s.dropped, s.wire[i], p, key, c);
  }

  lemma EnrolStep(s: System, node: string, names: seq<string>, p: Place, key: Key, c: Column)
    ensures Gap(Next(s, Enrol(node, names)), p, key, c) == Gap(s, p, key, c)
  {
    AddNamesKeeps(NodeAt(s.server, node), names, p.iface);
    OpenAllKeeps(Node(names, map[]), names, p.iface);
  }

  /** The first interface name of a node never changes once there is one. */
  lemma NamesGrow(s: System, step: Step, node: string)
    requires CanStep(s, step)
    ensures Interfaces(s, node) <= Interfaces(Next(s, step), node)
  {
    match step
    case Deliver(i) => TakePartsNames(NodeAt(s.server, node), Parts(s.wire[i]));
    case Enrol(name, names) => AddNamesKeeps(NodeAt(s.server, name), names, "");
    case _ =>
  }

  /** The name that unnamed parts are booked under; "" when they have none to go to. */
  function First(names: seq<string>): string {
    if |names| > 0 then names[0] else ""
  }

  lemma GapStep(s: System, step: Step, p: Place, key: Key, c: Column)
    requires CanStep(s, step)
    ensures Gap(Next(s, step), p, key, c) == Gap(s, p, key, c) + Shift(s, step, p, key, c)
    ensures First(Interfaces(s, p.node)) in ["", First(Interfaces(Next(s, step), p.node))]
  {
    match step {
      case Process(place, packet) => ProcessStep(s, place, packet, p, key, c);
      case Drain(m) => DrainStep(s, m, p, key, c);
      case Deliver(i) => DeliverStep(s, i, p, key, c);
      case Lose(i) => LoseStep(s, i, p, key, c);
      case Expire(place, gone) => ExpireStep(s, place, gone, p, key, c);
      case Enrol(node, names) => EnrolStep(s, node, names, p, key, c);
    }
    NamesGrow(s, step, p.node);
  }

  /** What a step books under a node's first interface though no interface was named. */
  function Stray(s: System, step: Step, node: string, key: Key, c: Column): (r: int)
    requires CanStep(s, step)
    ensures r >= 0
  {
    if step.Deliver? && s.wire[step.index].node == node && First(Interfaces(s, node)) != ""
    then PartsWorth(Parts(s.wire[step.index]), "", key, c) else 0
  }

  /** What a stray amount means to an interface, given the node's first one. */
  function Displaced(first: string, iface: string, stray: int): int {
    if first == "" then 0 else if iface == first then stray else if iface == "" then -stray else 0
  }

  lemma ShiftIs(s: System, step: Step, p: Place, key: Key, c: Column)
    requires CanStep(s, step)
    ensures var first := First(Interfaces(s, p.node));
            Shift(s, step, p, key, c) == Displaced(first, p.iface, Stray(s, step, p.node, key, c))
            && (first == "" ==> Stray(s, step, p.node, key, c) == 0)
  {
    if step.Deliver? {
      RoutedParts(Interfaces(s, p.node), Parts(s.wire[step.index]), p.iface, key, c);
    }
  }

  lemma StartGap(p: Place, key: Key, c: Column)
    ensures Gap(START, p, key, c) == 0
  {
    assert Find(EMPTY, key) == ZERO;
  }

  /** What a run booked under a node's first interface though no interface was named. */
  ghost function Strayed(states: seq<System>, steps: seq<Step>, node: string, key: Key, c: Column): (r: int)
    requires IsRun(states, steps)
    ensures r >= 0
  {
    if steps == [] then 0
    else
      var n := |steps| - 1;
      Strayed(states[..n + 1], steps[..n], node, key, c) + Stray(states[n], steps[n], node, key, c)
  }

  /** By how much the books of a place exceed its packets: nothing, but for what strayed
      from the unnamed interface to the first one. */
  ghost function Surplus(states: seq<System>, steps: seq<Step>, p: Place, key: Key, c: Column): int
    requires IsRun(states, steps)
  {
    Displaced(First(Interfaces(states[|steps|], p.node)), p.iface, Strayed(states, steps, p.node, key, c))
  }

  lemma {:induction false} NothingStrays(states: seq<System>, steps: seq<Step>, node: string, key: Key, c: Column)
    requires IsRun(states, steps) && First(Interfaces(states[|steps|], node)) == ""
    ensures Strayed(states, steps, node, key, c) == 0
  {
    if steps != [] {
      var n := |steps| - 1;
      NamesGrow(states[n], steps[n], node);
      NothingStrays(states[..n + 1], steps[..n], node, key, c);
    }
  }

  lemma DisplacedAdds(before: string, after: string, iface: string, strayed: int, stray: int)
    requires before in ["", after] && (before == "" ==> strayed == 0 && stray == 0)
    ensures Displaced(after, iface, strayed + stray) == Displaced(before, iface, strayed) + Displaced(before, iface, stray)
  {}

  lemma SurplusStep(states: seq<System>, steps: seq<Step>, p: Place, key: Key, c: Column)
    requires IsRun(states, steps) && steps != []
    ensures var n := |steps| - 1;
            Surplus(states, steps, p, key, c)
            == Surplus(states[..n + 1], steps[..n], p, key, c) + Shift(states[n], steps[n], p, key, c)
  {
    var n := |steps| - 1;
    var before, after := First(Interfaces(states[n], p.node)), First(Interfaces(states[n + 1], p.node));
    var strayed := Strayed(states[..n + 1], steps[..n], p.node, key, c);
    var stray := Stray(states[n], steps[n], p.node, key, c);
    assert Strayed(states, steps, p.node, key, c) == strayed + stray;
    ShiftIs(states[n], steps[n], p, key, c);
    NamesGrow(states[n], steps[n], p.node);
    if before == "" {
      NothingStrays(states[..n + 1], steps[..n], p.node, key, c);
    }
    DisplacedAdds(before, after, p.iface, strayed, stray);
  }

  lemma ConservedStep(states: seq<System>, steps: seq<Step>, p: Place, key: Key, c: Column)
    requires IsRun(states, steps) && steps != []
    requires var n := |steps| - 1; Gap(states[n], p, key, c) == Surplus(states[..n + 1], steps[..n], p, key, c)
    ensures Gap(states[|steps|], p, key, c) == Surplus(states, steps, p, key, c)
  {
    var n := |steps| - 1;
    GapStep(states[n], steps[n], p, key, c);
    SurplusStep(states, steps, p, key, c);
  }

  /** Conservation, for every place: at every moment of every schedule, the server's total,
      the tracker's, and what is under way, dropped or expired exceed the packets processed
      by exactly what strayed. */
  lemma {:induction false} Conserved(states: seq<System>, steps: seq<Step>, p: Place, key: Key, c: Column)
    requires IsRun(states, steps)
    ensures Gap(states[|steps|], p, key, c) == Surplus(states, steps, p, key, c)
  {
    if steps == [] {
      StartGap(p, key, c);
    } else {
      var n := |steps| - 1;
      Conserved(states[..n + 1], steps[..n], p, key, c);
      ConservedStep(states, steps, p, key, c);
    }
  }

  /** Every part of the message names its interface. */
  ghost predicate Named(m: Message) {
    forall i :: 0 <= i < |Parts(m)| ==> Parts(m)[i].iface != ""
  }

  /** No message of the node is ever drained with an unnamed part. */
  ghost predicate AllNamed(steps: seq<Step>, node: string) {
    forall i :: 0 <= i < |steps| && steps[i].Drain? && steps[i].message.node == node ==> Named(steps[i].message)
  }

  /** What is under way was under way before, or was just drained. */
  lemma WireFrom(s: System, step: Step, m: Message)
    requires CanStep(s, step) && m in Next(s, step).wire
    ensures step == Drain(m) || m in s.wire
  {}

  lemma {:induction false} NamedWire(states: seq<System>, steps: seq<Step>, m: Message)
    requires IsRun(states, steps) && AllNamed(steps, m.node) && m in states[|steps|].wire
    ensures Named(m)
  {
    if steps != [] {
      var n := |steps| - 1;
      WireFrom(states[n], steps[n], m);
      if m in states[n].wire {
        NamedWire(states[..n + 1], steps[..n], m);
      }
    }
  }

  lemma {:induction false} NamedPartsWorth(parts: seq<Part>, key: Key, c: Column)
    requires forall i :: 0 <= i < |parts| ==> parts[i].iface != ""
    ensures PartsWorth(parts, "", key, c) == 0
  {
    if parts != [] {
      NamedPartsWorth(parts[..|parts| - 1], key, c);
    }
  }

  lemma {:induction false} NamedNeverStrays(states: seq<System>, steps: seq<Step>, node: string, key: Key, c: Column)
    requires IsRun(states, steps) && AllNamed(steps, node)
    ensures Strayed(states, steps, node, key, c) == 0
  {
    if steps != [] {
      var n := |steps| - 1;
      NamedNeverStrays(states[..n + 1], steps[..n], node, key, c);
      if steps[n].Deliver? && states[n].wire[steps[n].index].node == node {
        NamedWire(states[..n + 1], steps[..n], states[n].wire[steps[n].index]);
        NamedPartsWorth(Parts(states[n].wire[steps[n].index]), key, c);
      }
    }
  }

  /** An agent that names its interfaces, as the program's agent does: the plain sums, for
      every interface, at every moment of every schedule. */
  lemma NamedConserved(states: seq<System>, steps: seq<Step>, p: Place, key: Key, c: Column)
    requires IsRun(states, steps) && AllNamed(steps, p.node)
    ensures Owned(states[|steps|], p, key, c) == SeenWorth(states[|steps|].processed, p, key, c)
  {
    Conserved(states, steps, p, key, c);
    NamedNeverStrays(states, steps, p.node, key, c);
  }

  lemma {:induction false} NoneStrayed(states: seq<System>, steps: seq<Step>, node: string, key: Key, c: Column)
    requires IsRun(states, steps)
    requires forall i :: 0 <= i < |steps| ==> Stray(states[i], steps[i], node, key, c) == 0
    ensures Strayed(states, steps, node, key, c) == 0
  {
    if steps != [] {
      NoneStrayed(states[..|steps|], steps[..|steps| - 1], node, key, c);
    }
  }

  lemma {:induction false} StrayCounts(states: seq<System>, steps: seq<Step>, node: string, key: Key, c: Column, i: nat)
    requires IsRun(states, steps) && i < |steps|
    ensures Stray(states[i], steps[i], node, key, c) <= Strayed(states, steps, node, key, c)
  {
    if i < |steps| - 1 {
      StrayCounts(states[..|steps|], steps[..|steps| - 1], node, key, c, i);
    }
  }

  /** A counter of a node's first interface is right exactly when, since the interface was
      named to the server, no unnamed part that counts was delivered. */
  lemma FirstConservedIff(states: seq<System>, steps: seq<Step>, node: string, key: Key, c: Column)
    requires IsRun(states, steps) && First(Interfaces(states[|steps|], node)) != ""
    ensures var p := Place(node, First(Interfaces(states[|steps|], node)));
            Owned(states[|steps|], p, key, c) == SeenWorth(states[|steps|].processed, p, key, c)
            <==> forall i :: 0 <= i < |steps| ==> Stray(states[i], steps[i], node, key, c) == 0
  {
    Conserved(states, steps, Place(node, First(Interfaces(states[|steps|], node))), key, c);
    forall i | 0 <= i < |steps| ensures 0 <= Stray(states[i], steps[i], node, key, c) <= Strayed(states, steps, node, key, c) {
      StrayCounts(states, steps, node, key, c, i);
    }
    if forall i :: 0 <= i < |steps| ==> Stray(states[i], steps[i], node, key, c) == 0 {
      NoneStrayed(states, steps, node, key, c);
    }
  }

  /** What is kept in any case is the sum of a node's first interface and of the unnamed one. */
  ghost predicate FirstBalanced(s: System, node: string, key: Key, c: Column) {
    var (first, unnamed) := (Place(node, First(Interfaces(s, node))), Place(node, ""));
    if first == unnamed then Gap(s, unnamed, key, c) == 0 else Gap(s, first, key, c) + Gap(s, unnamed, key, c) == 0
  }

  lemma ConservedFirst(states: seq<System>, steps: seq<Step>, node: string, key: Key, c: Column)
    requires IsRun(states, steps)
    ensures FirstBalanced(states[|steps|], node, key, c)
  {
    Conserved(states, steps, Place(node, First(Interfaces(states[|steps|], node))), key, c);
    Conserved(states, steps, Place(node, ""), key, c);
  }

  function Arp(length: nat): Packet {
    Packet(Endpoint("", 0), Endpoint("", 0), "ARP", "", length)
  }

  function ArpReport(length: nat): Report {
    Report([], [], [Item("ARP:", Sent(length))])
  }

  lemma ArpItems(length: nat)
    ensures Items(Arp(length)) == ArpReport(length)
  {
    assert "ARP" + ":" + "" == "ARP:";
  }

  lemma ArpCounted(length: nat)
    ensures Items(Arp(length)) == ArpReport(length)
    ensures ListsBooks(ArpReport(length), Merge(EMPTY, Items(Arp(length))))
    ensures Worth(ArpReport(length), Protocol("ARP:")) == Sent(length)
  {
    ArpItems(length);
    ListsOne(Item("ARP:", Sent(length)));
    OneItem(Item("ARP:", Sent(length)), "ARP:");
  }

  lemma ListsOne(item: Item<string>)
    ensures Lists([item], CreditAll(map[], [item])) && Lists([], CreditAll<string>(map[], []))
  {
    CreditOne(map[], item);
    KeysSnoc([], item);
    assert [] + [item] == [item];
  }

  lemma OnePart(pipes: Pipes, node: string, part: Part)
    requires ListsBooks(part.report, PipeAt(pipes, Place(node, part.iface)))
    ensures CanDrain(pipes, node, [part])
  {
    assert [part][..0] == [];
  }

  lemma DeliveryShifts(s: System, m: Message, first: string, key: Key, c: Column)
    requires s.wire == [m] && First(Interfaces(s, m.node)) == first != ""
    ensures Gap(Next(s, Deliver(0)), Place(m.node, first), key, c)
         == Gap(s, Place(m.node, first), key, c) + PartsWorth(Parts(m), "", key, c)
    ensures Gap(Next(s, Deliver(0)), Place(m.node, ""), key, c)
         == Gap(s, Place(m.node, ""), key, c) - PartsWorth(Parts(m), "", key, c)
  {
    GapStep(s, Deliver(0), Place(m.node, first), key, c);
    GapStep(s, Deliver(0), Place(m.node, ""), key, c);
    ShiftIs(s, Deliver(0), Place(m.node, first), key, c);
    ShiftIs(s, Deliver(0), Place(m.node, ""), key, c);
  }

  lemma {:induction false} NoDeliveryNoGap(states: seq<System>, steps: seq<Step>, p: Place, key: Key, c: Column)
    requires IsRun(states, steps) && forall i :: 0 <= i < |steps| ==> !steps[i].Deliver?
    ensures Gap(states[|steps|], p, key, c) == 0
  {
    if steps == [] {
      StartGap(p, key, c);
    } else {
      var n := |steps| - 1;
      NoDeliveryNoGap(states[..n + 1], steps[..n], p, key, c);
      GapStep(states[n], steps[n], p, key, c);
    }
  }

  function ArpPart(length: nat): Part {
    Part("", ArpReport(length))
  }

  function ArpMessage(length: nat): Message {
    Message("n", [ArpPart(length)], "", Report([], [], []))
  }

  lemma PipeFilled(length: nat) returns (states: seq<System>, steps: seq<Step>)
    ensures steps == [Enrol("n", ["eth0"]), Process(Place("n", ""), Arp(length))] && IsRun(states, steps)
    ensures First(Interfaces(states[2], "n")) == "eth0" && states[2].wire == []
    ensures states[2].processed == [Seen(Place("n", ""), Arp(length))]
    ensures PipeAt(states[2].pipes, Place("n", "")) == Merge(EMPTY, Items(Arp(length)))
  {
    var s1 := Next(START, Enrol("n", ["eth0"]));
    OpenAllKeeps(Node(["eth0"], map[]), ["eth0"], "");
    var s2 := Next(s1, Process(Place("n", ""), Arp(length)));
    RunSnoc([START], [], Enrol("n", ["eth0"]));
    RunSnoc([START, s1], [Enrol("n", ["eth0"])], Process(Place("n", ""), Arp(length)));
    states, steps := [START, s1, s2], [Enrol("n", ["eth0"]), Process(Place("n", ""), Arp(length))];
  }

  lemma ArpDrains(s: System, length: nat)
    requires PipeAt(s.pipes, Place("n", "")) == Merge(EMPTY, Items(Arp(length)))
    ensures CanStep(s, Drain(ArpMessage(length)))
  {
    ArpCounted(length);
    OnePart(s.pipes, "n", ArpPart(length));
    assert CanDrain(s.pipes, "n", Parts(ArpMessage(length)));
  }

  /** A node registers "eth0", and the counters of an unnamed pipe of it are drained. */
  lemma UnnamedPipeDrained(length: nat) returns (states: seq<System>, steps: seq<Step>)
    ensures |steps| == 3 && IsRun(states, steps) && states[3].wire == [ArpMessage(length)]
    ensures First(Interfaces(states[3], "n")) == "eth0" && forall i :: 0 <= i < 3 ==> !steps[i].Deliver?
    ensures states[3].processed == [Seen(Place("n", ""), Arp(length))]
  {
    states, steps := PipeFilled(length);
    ArpDrains(states[2], length);
    RunSnoc(states, steps, Drain(ArpMessage(length)));
    states, steps := states + [Next(states[2], Drain(ArpMessage(length)))], steps + [Drain(ArpMessage(length))];
  }

  /** Delivered, they are booked under "eth0", which saw no packet, and not under the pipe
      that did. */
  lemma UnnamedPartStrays(length: nat) returns (states: seq<System>, steps: seq<Step>)
    ensures IsRun(states, steps) && states[|steps|].processed == [Seen(Place("n", ""), Arp(length))]
    ensures Gap(states[|steps|], Place("n", "eth0"), Protocol("ARP:"), BytesSent) == length
    ensures Gap(states[|steps|], Place("n", ""), Protocol("ARP:"), BytesSent) + length == 0
  {
    var before, first3 := UnnamedPipeDrained(length);
    NoDeliveryNoGap(before, first3, Place("n", "eth0"), Protocol("ARP:"), BytesSent);
    NoDeliveryNoGap(before, first3, Place("n", ""), Protocol("ARP:"), BytesSent);
    DeliveryShifts(before[3], ArpMessage(length), "eth0", Protocol("ARP:"), BytesSent);
    ArpWorth(length);
    RunSnoc(before, first3, Deliver(0));
    steps := first3 + [Deliver(0)];
    states := before + [Next(before[3], Deliver(0))];
  }

  lemma RunSnoc(states: seq<System>, steps: seq<Step>, step: Step)
    requires IsRun(states, steps) && CanStep(states[|steps|], step)
    ensures IsRun(states + [Next(states[|steps|], step)], steps + [step])
  {
    var longer, more := states + [Next(states[|steps|], step)], steps + [step];
    forall i | 0 <= i < |more|
      ensures CanStep(longer[i], more[i]) && longer[i + 1] == Next(longer[i], more[i])
    {
      StepOf(states, steps, longer, more, i);
    }
  }

  lemma StepOf(states: seq<System>, steps: seq<Step>, longer: seq<System>, more: seq<Step>, i: nat)
    requires IsRun(states, steps) && i < |more| == |steps| + 1 && CanStep(states[|steps|], more[|steps|])
    requires more[..|steps|] == steps && longer == states + [Next(states[|steps|], more[|steps|])]
    ensures CanStep(longer[i], more[i]) && longer[i + 1] == Next(longer[i], more[i])
  {
    if i < |steps| {
      assert more[i] == steps[i] && longer[i] == states[i] && longer[i + 1] == states[i + 1];
    }
  }

  lemma ArpWorth(length: nat)
    ensures PartsWorth(Parts(ArpMessage(length)), "", Protocol("ARP:"), BytesSent) == length
  {
    ArpCounted(length);
    assert [ArpPart(length)][..0] == [];
  }
}
