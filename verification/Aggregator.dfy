/** The server's totals per node and interface, and how reports are merged into them. */
module Aggregator {
  import opened Ledger
  import opened Trackers

  /** The counters of one interface, on the agent or on the server. */
  datatype Books = Books(hosts: Book<string>, flows: Book<string>, protocols: Book<string>)

  const EMPTY := Books(map[], map[], map[])

  function Find(books: Books, key: Key): Tally {
    match key
    case Host(ip) => Get(books.hosts, ip)
    case Flow(flow) => Get(books.flows, flow)
    case Protocol(name) => Get(books.protocols, name)
  }

  /** The deltas of one interface, as a snapshot lists them. */
  datatype Report = Report(hosts: seq<Item<string>>, flows: seq<Item<string>>, protocols: seq<Item<string>>)

  function Worth(report: Report, key: Key): Tally {
    match key
    case Host(ip) => Amount(report.hosts, ip)
    case Flow(flow) => Amount(report.flows, flow)
    case Protocol(name) => Amount(report.protocols, name)
  }

  datatype Part = Part(iface: string, report: Report)

  /** A message of an agent: one part per interface, or a single report of its own. */
  datatype Message = Message(node: string, parts: seq<Part>, iface: string, own: Report)

  function Parts(m: Message): seq<Part> {
    if |m.parts| > 0 then m.parts else [Part(m.iface, m.own)]
  }

  datatype Node = Node(interfaces: seq<string>, ifaces: map<string, Books>)

  type Server = map<string, Node>

  function Merge(books: Books, report: Report): Books {
    Books(CreditAll(books.hosts, report.hosts), CreditAll(books.flows, report.flows),
          CreditAll(books.protocols, report.protocols))
  }

  lemma MergeAdds(books: Books, report: Report, key: Key)
    ensures Find(Merge(books, report), key) == Plus(Find(books, key), Worth(report, key))
  {
    match key
    case Host(ip) => BookIsSum(books.hosts, report.hosts, ip);
    case Flow(flow) => BookIsSum(books.flows, report.flows, flow);
    case Protocol(name) => BookIsSum(books.protocols, report.protocols, name);
  }

  function BooksAt(n: Node, name: string): Books {
    if name in n.ifaces then n.ifaces[name] else EMPTY
  }

  function Open(n: Node, name: string): Node {
    n.(ifaces := n.ifaces[name := BooksAt(n, name)])
  }

  /** An unnamed interface stands for the first registered one, if there is any. */
  function Route(interfaces: seq<string>, iface: string): string {
    if iface == "" && |interfaces| > 0 then interfaces[0] else iface
  }

  function TakePart(n: Node, part: Part): Node {
    var name := Route(n.interfaces, part.iface);
    n.(ifaces := n.ifaces[name := Merge(BooksAt(n, name), part.report)])
  }

  lemma OpenThenMerge(n: Node, name: string, report: Report)
    ensures var wide := Open(n, name);
            wide.(ifaces := wide.ifaces[name := Merge(wide.ifaces[name], report)])
            == n.(ifaces := n.ifaces[name := Merge(BooksAt(n, name), report)])
  {}

  function TakeParts(n: Node, parts: seq<Part>): Node {
    if parts == [] then n else TakePart(TakeParts(n, parts[..|parts| - 1]), parts[|parts| - 1])
  }

  function OpenAll(n: Node, names: seq<string>): Node {
    if names == [] then n else Open(OpenAll(n, names[..|names| - 1]), names[|names| - 1])
  }

  function AddName(n: Node, name: string): Node {
    Open(if name in n.interfaces then n else n.(interfaces := n.interfaces + [name]), name)
  }

  function AddNames(n: Node, names: seq<string>): Node {
    if names == [] then n else AddName(AddNames(n, names[..|names| - 1]), names[|names| - 1])
  }

  function Registered(server: Server, node: string, names: seq<string>): Server {
    if node in server then server[node := AddNames(server[node], names)]
    else server[node := OpenAll(Node(names, map[]), names)]
  }

  function NodeAt(server: Server, node: string): Node {
    if node in server then server[node] else Node([], map[])
  }

  function Ingested(server: Server, m: Message): Server {
    server[m.node := TakeParts(NodeAt(server, m.node), Parts(m))]
  }

  ghost predicate NoRepeats(names: seq<string>) {
    forall i, j :: 0 <= i < j < |names| ==> names[i] != names[j]
  }

  /** Naming interfaces to a known node: the names it had come first and stay as they are,
      the new ones follow once each, all have counters now, and no counter changes. */
  lemma {:induction false} AddedNames(n: Node, names: seq<string>)
    ensures var r := AddNames(n, names);
            && n.interfaces <= r.interfaces
            && (forall name :: name in r.interfaces <==> name in n.interfaces || name in names)
            && (NoRepeats(n.interfaces) ==> NoRepeats(r.interfaces))
            && (forall name :: name in r.ifaces <==> name in n.ifaces || name in names)
            && (forall name :: BooksAt(r, name) == BooksAt(n, name))
  {
    if names != [] {
      var last := |names| - 1;
      AddedNames(n, names[..last]);
      assert names == names[..last] + [names[last]];
      AddedName(AddNames(n, names[..last]), names[last]);
    }
  }

  lemma AddedName(n: Node, name: string)
    ensures var r := AddName(n, name);
            && r.interfaces == n.interfaces + (if name in n.interfaces then [] else [name])
            && r.ifaces.Keys == n.ifaces.Keys + {name}
            && (forall other :: BooksAt(r, other) == BooksAt(n, other))
  {
    assert n.interfaces + [] == n.interfaces;
  }

  lemma {:induction false} OpenedNames(n: Node, names: seq<string>)
    ensures var r := OpenAll(n, names);
            && r.interfaces == n.interfaces
            && (forall name :: name in r.ifaces <==> name in n.ifaces || name in names)
            && (forall name :: BooksAt(r, name) == BooksAt(n, name))
  {
    if names != [] {
      var last := |names| - 1;
      OpenedNames(n, names[..last]);
      assert names == names[..last] + [names[last]];
    }
  }

  /** Registration: the node has all the names told, after those it had; an interface told is
      open; counters stay, and a new node's are empty; other nodes stay. */
  lemma RegisteredIs(server: Server, node: string, names: seq<string>)
    ensures var was, now := NodeAt(server, node), Registered(server, node, names);
            && now.Keys == server.Keys + {node}
            && (forall other :: other in server && other != node ==> now[other] == server[other])
            && was.interfaces <= now[node].interfaces
            && (forall name :: name in now[node].interfaces <==> name in was.interfaces || name in names)
            && (forall name :: name in now[node].ifaces <==> name in was.ifaces || name in names)
            && (forall name :: BooksAt(now[node], name) == BooksAt(was, name))
            && (node !in server ==> now[node].interfaces == names)
  {
    if node in server {
      AddedNames(server[node], names);
    } else {
      OpenedNames(Node(names, map[]), names);
    }
  }

  /** The counters of one interface on the server. */
  class IfaceState {
    var hosts: Book<string>
    var flows: Book<string>
    var protocols: Book<string>

    function Value(): Books
      reads this
    {
      Books(hosts, flows, protocols)
    }

    constructor ()
      ensures Value() == EMPTY
    {
      hosts, flows, protocols := map[], map[], map[];
    }

    method UpdateFrom(report: Report)
      modifies this
      ensures Value() == Merge(old(Value()), report)
    {
      hosts := MergeAll(hosts, report.hosts);
      flows := MergeAll(flows, report.flows);
      protocols := MergeAll(protocols, report.protocols);
    }
  }

  /** A node on the server: its interface names, and an object for each interface. */
  class NodeState {
    var interfaces: seq<string>
    var ifaces: map<string, IfaceState>
    ghost var Repr: set<object>

    /** No two interfaces share an object. */
    ghost predicate Valid()
      reads this, Repr
    {
      && this in Repr
      && (forall a :: a in ifaces ==> ifaces[a] in Repr)
      && (forall a, b :: a in ifaces && b in ifaces && a != b ==> ifaces[a] != ifaces[b])
    }

    ghost function Value(): Node
      requires Valid()
      reads this, Repr
    {
      Node(interfaces, map name | name in ifaces :: ifaces[name].Value())
    }

    constructor (names: seq<string>)
      ensures Valid() && fresh(Repr) && Value() == Node(names, map[])
    {
      interfaces, ifaces := names, map[];
      Repr := {this};
    }

    method GetOrCreateIface(name: string) returns (state: IfaceState)
      requires Valid()
      modifies this
      ensures Valid() && name in ifaces && ifaces[name] == state
      ensures fresh(Repr - old(Repr)) && old(Repr) <= Repr
      ensures Value() == Open(old(Value()), name)
    {
      if name in ifaces {
        state := ifaces[name];
        assert Value().ifaces[name := state.Value()] == Value().ifaces;
      } else {
        state := new IfaceState();
        ifaces := ifaces[name := state];
        Repr := Repr + {state};
        assert Value().ifaces == old(Value()).ifaces[name := EMPTY];
      }
    }

    /** Merges one part of a message into the interface it belongs to, and into no other. */
    method Update(iface: string, report: Report)
      requires Valid()
      modifies Repr
      ensures Valid() && fresh(Repr - old(Repr)) && old(Repr) <= Repr
      ensures Value() == TakePart(old(Value()), Part(iface, report))
    {
      var name := iface;
      if name == "" && |interfaces| > 0 {
        name := interfaces[0];
      }
      var state := GetOrCreateIface(name);
      label Opened:
      state.UpdateFrom(report);
      OnlyOne@Opened(name);
      OpenThenMerge(old(Value()), name, report);
    }

    twostate lemma OnlyOne(name: string)
      requires old(Valid()) && unchanged(this) && name in ifaces
      requires forall o: object :: o in old(Repr) && o != ifaces[name] ==> unchanged(o)
      ensures Valid()
      ensures Value() == old(Value()).(ifaces := old(Value()).ifaces[name := ifaces[name].Value()])
    {
      assert Value().ifaces == old(Value()).ifaces[name := ifaces[name].Value()];
    }

    method TakeAll(parts: seq<Part>)
      requires Valid()
      modifies Repr
      ensures Valid() && fresh(Repr - old(Repr)) && old(Repr) <= Repr
      ensures Value() == TakeParts(old(Value()), parts)
    {
      for i := 0 to |parts|
        invariant Valid() && fresh(Repr - old(Repr)) && old(Repr) <= Repr
        invariant Value() == TakeParts(old(Value()), parts[..i])
      {
        Update(parts[i].iface, parts[i].report);
        assert parts[..i + 1][..i] == parts[..i];
      }
      assert parts[..|parts|] == parts;
    }

    /** Names interfaces for a node that is already known; its counters stay. */
    method AddInterfaces(names: seq<string>)
      requires Valid()
      modifies Repr
      ensures Valid() && fresh(Repr - old(Repr)) && old(Repr) <= Repr
      ensures Value() == AddNames(old(Value()), names)
    {
      for i := 0 to |names|
        invariant Valid() && fresh(Repr - old(Repr)) && old(Repr) <= Repr
        invariant Value() == AddNames(old(Value()), names[..i])
        modifies this
      {
        AddInterface(names[i]);
        assert names[..i + 1][..i] == names[..i];
      }
      assert names[..|names|] == names;
    }

    method AddInterface(name: string)
      requires Valid()
      modifies this
      ensures Valid() && fresh(Repr - old(Repr)) && old(Repr) <= Repr
      ensures Value() == AddName(old(Value()), name)
    {
      if name !in interfaces {
        interfaces := interfaces + [name];
      }
      var _ := GetOrCreateIface(name);
    }

    method OpenInterfaces(names: seq<string>)
      requires Valid()
      modifies this
      ensures Valid() && fresh(Repr - old(Repr)) && old(Repr) <= Repr
      ensures Value() == OpenAll(old(Value()), names)
    {
      for i := 0 to |names|
        invariant Valid() && fresh(Repr - old(Repr)) && old(Repr) <= Repr
        invariant Value() == OpenAll(old(Value()), names[..i])
      {
        var _ := GetOrCreateIface(names[i]);
        assert names[..i + 1][..i] == names[..i];
      }
      assert names[..|names|] == names;
    }
  }

  lemma PutIs<V>(was: map<string, V>, now: map<string, V>, key: string, value: V)
    requires now.Keys == was.Keys + {key} && now[key] == value
    requires forall k :: k in was && k != key ==> now[k] == was[k]
    ensures now == was[key := value]
  {}

  class Aggregator {
    var nodes: map<string, NodeState>
    ghost var Repr: set<object>

    ghost predicate Valid()
      reads this, Repr
    {
      ValidIn(Repr)
    }

    /** No two nodes share an object. */
    ghost predicate ValidIn(r: set<object>)
      reads this, r
    {
      && this in r
      && (forall a :: a in nodes ==>
            nodes[a] in r && nodes[a].Repr <= r && this !in nodes[a].Repr && nodes[a].Valid())
      && (forall a, b :: a in nodes && b in nodes && a != b ==> nodes[a].Repr !! nodes[b].Repr)
    }

    ghost function Value(): Server
      requires Valid()
      reads this, Repr
    {
      map name | name in nodes :: nodes[name].Value()
    }

    constructor ()
      ensures Valid() && fresh(Repr) && Value() == map[]
    {
      nodes := map[];
      Repr := {this};
    }

    /** A node that reported nothing yet; the other nodes are untouched. */
    method Adopt(node: string, ns: NodeState)
      requires Valid() && ns.Valid() && ns.Repr !! Repr && node !in nodes
      modifies this
      ensures Valid() && Repr == old(Repr) + ns.Repr && node in nodes && nodes[node] == ns
      ensures Value() == old(Value())[node := ns.Value()]
    {
      nodes := nodes[node := ns];
      Repr := Repr + ns.Repr;
      OneAdopted(node);
      AdoptedValue(node);
    }

    twostate lemma OneAdopted(node: string)
      requires old(Valid()) && node in nodes && node !in old(nodes) && nodes[node].Valid() && nodes[node].Repr !! old(Repr)
      requires nodes == old(nodes)[node := nodes[node]] && Repr == old(Repr) + nodes[node].Repr
      requires forall o: object :: o in old(Repr) && o != this ==> unchanged(o)
      ensures Valid()
      ensures forall a :: a in old(nodes) ==> nodes[a].Value() == old(nodes[a].Value())
    {
      forall a | a in old(nodes)
        ensures nodes[a].Valid() && nodes[a].Repr == old(nodes[a].Repr) && nodes[a].Value() == old(nodes[a].Value())
      {
        assert nodes[a] in old(nodes[a].Repr) && this !in old(nodes[a].Repr);
      }
    }

    twostate lemma AdoptedValue(node: string)
      requires old(Valid()) && Valid() && node in nodes && nodes == old(nodes)[node := nodes[node]]
      requires forall a :: a in old(nodes) && a != node ==> nodes[a].Value() == old(nodes[a].Value())
      ensures Value() == old(Value())[node := nodes[node].Value()]
    {
      ghost var was, now := old(Value()), Value();
      assert now.Keys == nodes.Keys && was.Keys == old(nodes).Keys;
      PutIs(was, now, node, nodes[node].Value());
    }

    /** Whatever changes inside one node leaves the others as they were. */
    twostate lemma OneChanged(node: string)
      requires old(Valid()) && nodes == old(nodes) && Repr == old(Repr) && node in nodes && nodes[node].Valid()
      requires old(nodes[node].Repr) <= nodes[node].Repr && fresh(nodes[node].Repr - old(nodes[node].Repr))
      requires forall o: object :: o in old(Repr) && o !in old(nodes[node].Repr) && o != this ==> unchanged(o)
      ensures ValidIn(Repr + nodes[node].Repr)
      ensures forall a :: a in nodes && a != node ==> nodes[a].Value() == old(nodes[a].Value())
    {
      forall a | a in nodes && a != node
        ensures nodes[a].Valid() && nodes[a].Repr == old(nodes[a].Repr) && nodes[a].Value() == old(nodes[a].Value())
      {
        assert nodes[a] in old(nodes[a].Repr) && old(nodes[a].Repr) !! old(nodes[node].Repr);
      }
      assert old(nodes[node].Repr) <= old(Repr);
      assert this !in old(nodes[node].Repr);
    }

    ghost method Settle(more: set<object>)
      requires ValidIn(Repr + more)
      modifies this`Repr
      ensures Valid() && Repr == old(Repr) + more
      ensures forall a :: a in nodes ==> nodes[a].Value() == old(nodes[a].Value())
    {
      Repr := Repr + more;
    }

    /** One node's value was changed; `was` is the whole value before. */
    lemma ValueIs(node: string, was: Server, value: Node)
      requires Valid() && node in nodes && was.Keys == nodes.Keys && nodes[node].Value() == value
      requires forall a :: a in nodes && a != node ==> nodes[a].Value() == was[a]
      ensures Value() == was[node := value]
    {
      assert Value().Keys == nodes.Keys;
      PutIs(was, Value(), node, value);
    }

    method RegisterNode(node: string, names: seq<string>)
      requires Valid()
      modifies Repr
      ensures Valid() && fresh(Repr - old(Repr))
      ensures Value() == Registered(old(Value()), node, names)
    {
      if node in nodes {
        AddInterfaces(node, nodes[node], names);
      } else {
        AdoptNew(node, names);
      }
    }

    method AddInterfaces(node: string, ns: NodeState, names: seq<string>)
      requires Valid() && node in nodes && nodes[node] == ns
      modifies Repr
      ensures Valid() && fresh(Repr - old(Repr))
      ensures Value() == old(Value())[node := AddNames(old(Value())[node], names)]
    {
      ghost var was := Value();
      ns.AddInterfaces(names);
      OneChanged(node);
      ghost var value := ns.Value();
      Settle(ns.Repr);
      ValueIs(node, was, value);
    }

    method AdoptNew(node: string, names: seq<string>)
      requires Valid() && node !in nodes
      modifies this
      ensures Valid() && fresh(Repr - old(Repr))
      ensures Value() == Registered(old(Value()), node, names)
    {
      var ns := NewNode(names);
      Adopt(node, ns);
    }

    static method NewNode(names: seq<string>) returns (ns: NodeState)
      ensures ns.Valid() && fresh(ns.Repr) && ns.Value() == OpenAll(Node(names, map[]), names)
    {
      ns := new NodeState(names);
      ns.OpenInterfaces(names);
    }

    method GetOrCreateNode(node: string) returns (ns: NodeState)
      requires Valid()
      modifies this
      ensures Valid() && fresh(Repr - old(Repr)) && old(Repr) <= Repr
      ensures node in nodes && nodes[node] == ns
      ensures Value() == old(Value())[node := NodeAt(old(Value()), node)]
    {
      if node in nodes {
        ns := nodes[node];
      } else {
        ns := new NodeState([]);
        Adopt(node, ns);
      }
    }

    method Ingest(m: Message)
      requires Valid()
      modifies Repr
      ensures Valid() && fresh(Repr - old(Repr))
      ensures Value() == Ingested(old(Value()), m)
    {
      var ns := GetOrCreateNode(m.node);
      TakeAll(m.node, ns, Parts(m));
    }

    method TakeAll(node: string, ns: NodeState, parts: seq<Part>)
      requires Valid() && node in nodes && nodes[node] == ns
      modifies Repr
      ensures Valid() && fresh(Repr - old(Repr))
      ensures Value() == old(Value())[node := TakeParts(old(Value())[node], parts)]
    {
      ghost var was := Value();
      ns.TakeAll(parts);
      OneChanged(node);
      ghost var value := ns.Value();
      Settle(ns.Repr);
      ValueIs(node, was, value);
    }
  }
}
