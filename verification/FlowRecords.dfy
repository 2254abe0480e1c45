/** Flow records from collectors: gathered per batch in local maps, then merged. The totals
    are those of taking the records one at a time. */
module FlowRecords {
  import opened FlowKeys
  import opened Ledger

  /** A printed address, and whether it is neither missing nor unspecified. */
  datatype Address = Address(text: string, known: bool)

  datatype Record = Record(node: string, src: Address, dst: Address, srcPort: nat, dstPort: nat,
                           protocol: string, bytes: nat, packets: nat)

  /** A host or a flow of a node, by printed name. */
  datatype Name = Name(node: string, text: string)

  /** What one batch keys its flows by, and the string they are merged under. */
  datatype FlowTuple = FlowTuple(node: string, srcIP: string, dstIP: string, srcPort: nat, dstPort: nat, protocol: string)

  function TupleOf(r: Record): FlowTuple {
    FlowTuple(r.node, r.src.text, r.dst.text, r.srcPort, r.dstPort, r.protocol)
  }

  function Id(t: FlowTuple): Name {
    Name(t.node, Show(Endpoint(t.srcIP, t.srcPort)) + "-" + (Show(Endpoint(t.dstIP, t.dstPort)) + "-" + t.protocol))
  }

  function Out(r: Record): Tally {
    Tally(Volume(r.bytes, r.packets), Volume(0, 0))
  }

  function In(r: Record): Tally {
    Tally(Volume(0, 0), Volume(r.bytes, r.packets))
  }

  function SourceItems(r: Record): seq<Item<Name>> {
    if r.node != "" && r.src.known then [Item(Name(r.node, r.src.text), Out(r))] else []
  }

  function TargetItems(r: Record): seq<Item<Name>> {
    if r.node != "" && r.dst.known then [Item(Name(r.node, r.dst.text), In(r))] else []
  }

  function HostItems(r: Record): seq<Item<Name>> {
    SourceItems(r) + TargetItems(r)
  }

  function TupleItems(r: Record): seq<Item<FlowTuple>> {
    if r.node != "" then [Item(TupleOf(r), Out(r))] else []
  }

  function AllHostItems(records: seq<Record>): seq<Item<Name>> {
    if records == [] then [] else AllHostItems(records[..|records| - 1]) + HostItems(records[|records| - 1])
  }

  function AllTupleItems(records: seq<Record>): seq<Item<FlowTuple>> {
    if records == [] then [] else AllTupleItems(records[..|records| - 1]) + TupleItems(records[|records| - 1])
  }

  /** The totals of the "flow" interfaces, by node. */
  datatype Totals = Totals(hosts: Book<Name>, flows: Book<Name>)

  function TakeSource(hosts: Book<Name>, r: Record): Book<Name> {
    if r.node != "" && r.src.known then Credit(hosts, Item(Name(r.node, r.src.text), Out(r))) else hosts
  }

  function TakeTarget(hosts: Book<Name>, r: Record): Book<Name> {
    if r.node != "" && r.dst.known then Credit(hosts, Item(Name(r.node, r.dst.text), In(r))) else hosts
  }

  function TakeFlow(flows: Book<Name>, r: Record): Book<Name> {
    if r.node != "" then Credit(flows, Item(Id(TupleOf(r)), Out(r))) else flows
  }

  /** Records taken one at a time. */
  function TakeRecord(t: Totals, r: Record): Totals {
    Totals(TakeTarget(TakeSource(t.hosts, r), r), TakeFlow(t.flows, r))
  }

  function TakeRecords(t: Totals, records: seq<Record>): Totals {
    if records == [] then t else TakeRecord(TakeRecords(t, records[..|records| - 1]), records[|records| - 1])
  }

  /** Merging items under the names of their keys. */
  function CreditNamed<K, L(==)>(f: K -> L, book: Book<L>, items: seq<Item<K>>): Book<L> {
    if items == [] then book
    else
      var last := items[|items| - 1];
      Credit(CreditNamed(f, book, items[..|items| - 1]), Item(f(last.key), last.tally))
  }

  /** The plain sum of all items whose key has one name; different keys may share it. */
  function AmountNamed<K, L(==)>(f: K -> L, items: seq<Item<K>>, name: L): Tally {
    if items == [] then ZERO
    else
      var last := items[|items| - 1];
      var before := AmountNamed(f, items[..|items| - 1], name);
      if f(last.key) == name then Plus(before, last.tally) else before
  }

  lemma NamedSnoc<K, L>(f: K -> L, items: seq<Item<K>>, item: Item<K>, name: L)
    ensures AmountNamed(f, items + [item], name)
         == if f(item.key) == name then Plus(AmountNamed(f, items, name), item.tally) else AmountNamed(f, items, name)
  {
    assert (items + [item])[..|items|] == items;
  }

  function Others<K(==)>(items: seq<Item<K>>, key: K): seq<Item<K>> {
    if items == [] then []
    else
      var last := items[|items| - 1];
      Others(items[..|items| - 1], key) + if last.key == key then [] else [last]
  }

  lemma {:induction false} OthersSplit<K, L>(f: K -> L, items: seq<Item<K>>, key: K, name: L)
    ensures AmountNamed(f, items, name)
         == Plus(AmountNamed(f, Others(items, key), name), if f(key) == name then Amount(items, key) else ZERO)
  {
    if items != [] {
      var n := |items| - 1;
      var last, rest := items[n], Others(items[..n], key);
      var share := if f(key) == name then Amount(items[..n], key) else ZERO;
      OthersSplit(f, items[..n], key, name);
      if last.key == key {
        assert Others(items, key) == rest + [] == rest;
        PlusSwaps(AmountNamed(f, rest, name), share, last.tally);
      } else {
        assert Others(items, key) == rest + [last];
        NamedSnoc(f, rest, last, name);
        PlusSwaps(AmountNamed(f, rest, name), share, last.tally);
      }
    }
  }

  lemma PlusSwaps(a: Tally, b: Tally, c: Tally)
    ensures Plus(Plus(a, b), c) == Plus(a, Plus(b, c)) == Plus(Plus(a, c), b)
    ensures Plus(a, ZERO) == a
  {}

  lemma {:induction false} OthersAmount<K>(items: seq<Item<K>>, key: K, other: K)
    ensures Amount(Others(items, key), other) == if other == key then ZERO else Amount(items, other)
    ensures |Others(items, key)| <= |items|
    ensures (exists i :: 0 <= i < |items| && items[i].key == key) ==> |Others(items, key)| < |items|
  {
    if items != [] {
      var n := |items| - 1;
      OthersAmount(items[..n], key, other);
      if items[n].key == key {
        assert Others(items[..n], key) + [] == Others(items[..n], key);
      } else {
        AmountSnoc(Others(items[..n], key), items[n], other);
        assert forall i :: 0 <= i < n ==> items[..n][i] == items[i];
      }
    }
  }

  /** Lists with the same sums per key have the same sums per name, also when
      different keys get the same name. */
  lemma {:induction false} SameSumsNamed<K(!new), L>(f: K -> L, a: seq<Item<K>>, b: seq<Item<K>>, name: L)
    requires forall k :: Amount(a, k) == Amount(b, k)
    ensures AmountNamed(f, a, name) == AmountNamed(f, b, name)
    decreases |a| + |b|
  {
    if a != [] || b != [] {
      var key := if a != [] then a[0].key else b[0].key;
      OthersSplit(f, a, key, name);
      OthersSplit(f, b, key, name);
      forall k ensures Amount(Others(a, key), k) == Amount(Others(b, key), k) {
        OthersAmount(a, key, k);
        OthersAmount(b, key, k);
      }
      OthersAmount(a, key, key);
      OthersAmount(b, key, key);
      SameSumsNamed(f, Others(a, key), Others(b, key), name);
    } else {
      assert a == b;
    }
  }

  lemma {:induction false} NamedIsSum<K, L>(f: K -> L, book: Book<L>, items: seq<Item<K>>, name: L)
    ensures Get(CreditNamed(f, book, items), name) == Plus(Get(book, name), AmountNamed(f, items, name))
  {
    if items != [] {
      NamedIsSum(f, book, items[..|items| - 1], name);
    }
  }

  ghost predicate Mentions<K, L>(f: K -> L, items: seq<Item<K>>, name: L) {
    exists i :: 0 <= i < |items| && f(items[i].key) == name
  }

  lemma {:induction false} NamedKeys<K, L>(f: K -> L, book: Book<L>, items: seq<Item<K>>, name: L)
    ensures name in CreditNamed(f, book, items) <==> name in book || Mentions(f, items, name)
  {
    if items != [] {
      var n := |items| - 1;
      NamedKeys(f, book, items[..n], name);
      assert forall i :: 0 <= i < n ==> items[..n][i] == items[i];
    }
  }

  lemma BooksEqual<K(!new)>(a: Book<K>, b: Book<K>)
    requires forall k :: (k in a <==> k in b) && Get(a, k) == Get(b, k)
    ensures a == b
  {
    forall k | k in a ensures k in b && a[k] == b[k] {
      assert Get(a, k) == Get(b, k);
    }
  }

  /** What a batch's local map sums up and what its items say is the same, key by key. */
  lemma LocalSums<K(!new)>(items: seq<Item<K>>, list: seq<Item<K>>)
    requires Lists(list, CreditAll(map[], items))
    ensures forall k :: Amount(list, k) == Amount(items, k)
    ensures forall k :: k in KeysOf(list) <==> k in KeysOf(items)
  {
    forall k ensures Amount(list, k) == Amount(items, k) && (k in KeysOf(list) <==> k in KeysOf(items)) {
      BookIsSum(map[], items, k);
      ListedAmount(list, CreditAll(map[], items), k);
      BookKeys(map[], items, k);
    }
  }

  lemma SameMentions<K, L>(f: K -> L, a: seq<Item<K>>, b: seq<Item<K>>, name: L)
    requires KeysOf(a) <= KeysOf(b) && Mentions(f, a, name)
    ensures Mentions(f, b, name)
  {
    var i :| 0 <= i < |a| && f(a[i].key) == name;
    assert a[i].key in KeysOf(b);
    var j :| 0 <= j < |b| && b[j].key == a[i].key;
  }

  /** Merging the local map is merging its items, in whatever order the map is walked and
      whichever keys share a name. */
  lemma MergeLocal<K(!new), L(!new)>(f: K -> L, book: Book<L>, items: seq<Item<K>>, list: seq<Item<K>>)
    requires Lists(list, CreditAll(map[], items))
    ensures CreditNamed(f, book, list) == CreditNamed(f, book, items)
  {
    LocalSums(items, list);
    var a, b := CreditNamed(f, book, list), CreditNamed(f, book, items);
    forall name ensures (name in a <==> name in b) && Get(a, name) == Get(b, name) {
      NamedIsSum(f, book, list, name);
      NamedIsSum(f, book, items, name);
      SameSumsNamed(f, list, items, name);
      NamedKeys(f, book, list, name);
      NamedKeys(f, book, items, name);
      if Mentions(f, list, name) {
        SameMentions(f, list, items, name);
      }
      if Mentions(f, items, name) {
        SameMentions(f, items, list, name);
      }
    }
    BooksEqual(a, b);
  }

  lemma {:induction false} NamedConcat<K, L>(f: K -> L, book: Book<L>, a: seq<Item<K>>, b: seq<Item<K>>)
    ensures CreditNamed(f, book, a + b) == CreditNamed(f, CreditNamed(f, book, a), b)
  {
    if b == [] {
      assert a + b == a;
    } else {
      var n := |b| - 1;
      assert (a + b)[..|a| + n] == a + b[..n];
      NamedConcat(f, book, a, b[..n]);
    }
  }

  function Same(n: Name): Name {
    n
  }

  lemma {:induction false} SameNames(book: Book<Name>, items: seq<Item<Name>>)
    ensures CreditNamed(Same, book, items) == CreditAll(book, items)
  {
    if items != [] {
      SameNames(book, items[..|items| - 1]);
    }
  }

  lemma MergeHosts(book: Book<Name>, items: seq<Item<Name>>, list: seq<Item<Name>>)
    requires Lists(list, CreditAll(map[], items))
    ensures CreditAll(book, list) == CreditAll(book, items)
  {
    MergeLocal(Same, book, items, list);
    SameNames(book, list);
    SameNames(book, items);
  }

  lemma SourceItemsTake(hosts: Book<Name>, r: Record)
    ensures CreditNamed(Same, hosts, SourceItems(r)) == TakeSource(hosts, r)
  {
    assert [Item(Name(r.node, r.src.text), Out(r))][..0] == [];
  }

  lemma TargetItemsTake(hosts: Book<Name>, r: Record)
    ensures CreditNamed(Same, hosts, TargetItems(r)) == TakeTarget(hosts, r)
  {
    assert [Item(Name(r.node, r.dst.text), In(r))][..0] == [];
  }

  lemma HostItemsTake(hosts: Book<Name>, r: Record)
    ensures CreditNamed(Same, hosts, HostItems(r)) == TakeTarget(TakeSource(hosts, r), r)
  {
    SourceItemsTake(hosts, r);
    TargetItemsTake(TakeSource(hosts, r), r);
    NamedConcat(Same, hosts, SourceItems(r), TargetItems(r));
  }

  lemma TupleItemsTake(flows: Book<Name>, r: Record)
    ensures CreditNamed(Id, flows, TupleItems(r)) == TakeFlow(flows, r)
  {
    assert [Item(TupleOf(r), Out(r))][..0] == [];
  }

  lemma {:induction false} TakingHosts(t: Totals, records: seq<Record>)
    ensures TakeRecords(t, records).hosts == CreditNamed(Same, t.hosts, AllHostItems(records))
  {
    if records != [] {
      var n := |records| - 1;
      TakingHosts(t, records[..n]);
      NamedConcat(Same, t.hosts, AllHostItems(records[..n]), HostItems(records[n]));
      HostItemsTake(TakeRecords(t, records[..n]).hosts, records[n]);
    }
  }

  lemma {:induction false} TakingFlows(t: Totals, records: seq<Record>)
    ensures TakeRecords(t, records).flows == CreditNamed(Id, t.flows, AllTupleItems(records))
  {
    if records != [] {
      var n := |records| - 1;
      TakingFlows(t, records[..n]);
      NamedConcat(Id, t.flows, AllTupleItems(records[..n]), TupleItems(records[n]));
      TupleItemsTake(TakeRecords(t, records[..n]).flows, records[n]);
    }
  }

  lemma {:induction false} TakeConcat(t: Totals, a: seq<Record>, b: seq<Record>)
    ensures TakeRecords(t, a + b) == TakeRecords(TakeRecords(t, a), b)
  {
    if b == [] {
      assert a + b == a;
    } else {
      var n := |b| - 1;
      assert (a + b)[..|a| + n] == a + b[..n];
      TakeConcat(t, a, b[..n]);
    }
  }

  function Flattened(batches: seq<seq<Record>>): seq<Record> {
    if batches == [] then [] else Flattened(batches[..|batches| - 1]) + batches[|batches| - 1]
  }

  function TakeBatches(t: Totals, batches: seq<seq<Record>>): Totals {
    if batches == [] then t else TakeRecords(TakeBatches(t, batches[..|batches| - 1]), batches[|batches| - 1])
  }

  /** How a sequence of records is cut into batches makes no difference. */
  lemma {:induction false} BatchesAgree(t: Totals, batches: seq<seq<Record>>)
    ensures TakeBatches(t, batches) == TakeRecords(t, Flattened(batches))
  {
    if batches != [] {
      var n := |batches| - 1;
      BatchesAgree(t, batches[..n]);
      TakeConcat(t, Flattened(batches[..n]), batches[n]);
    }
  }

  /** What one record is worth to a host and to a flow. A host that is both ends counts on
      both sides. */
  function HostShare(r: Record, host: Name): Tally {
    Tally(if r.node != "" && r.src.known && Name(r.node, r.src.text) == host then Volume(r.bytes, r.packets) else Volume(0, 0),
          if r.node != "" && r.dst.known && Name(r.node, r.dst.text) == host then Volume(r.bytes, r.packets) else Volume(0, 0))
  }

  function FlowShare(r: Record, flow: Name): Tally {
    if r.node != "" && Id(TupleOf(r)) == flow then Out(r) else ZERO
  }

  function HostShares(records: seq<Record>, host: Name): Tally {
    if records == [] then ZERO
    else Plus(HostShares(records[..|records| - 1], host), HostShare(records[|records| - 1], host))
  }

  function FlowShares(records: seq<Record>, flow: Name): Tally {
    if records == [] then ZERO
    else Plus(FlowShares(records[..|records| - 1], flow), FlowShare(records[|records| - 1], flow))
  }

  lemma {:induction false} NamedAmountConcat<K, L>(f: K -> L, a: seq<Item<K>>, b: seq<Item<K>>, name: L)
    ensures AmountNamed(f, a + b, name) == Plus(AmountNamed(f, a, name), AmountNamed(f, b, name))
  {
    if b == [] {
      assert a + b == a;
    } else {
      var n := |b| - 1;
      assert (a + b)[..|a| + n] == a + b[..n];
      NamedAmountConcat(f, a, b[..n], name);
      PlusSwaps(AmountNamed(f, a, name), AmountNamed(f, b[..n], name), b[n].tally);
    }
  }

  lemma NamedAmountOne<K, L>(f: K -> L, item: Item<K>, name: L)
    ensures AmountNamed(f, [item], name) == if f(item.key) == name then item.tally else ZERO
  {
    assert [item][..0] == [];
  }

  lemma HostItemsShare(r: Record, name: Name)
    ensures AmountNamed(Same, HostItems(r), name) == HostShare(r, name)
  {
    NamedAmountOne(Same, Item(Name(r.node, r.src.text), Out(r)), name);
    NamedAmountOne(Same, Item(Name(r.node, r.dst.text), In(r)), name);
    NamedAmountConcat(Same, SourceItems(r), TargetItems(r), name);
  }

  lemma {:induction false} HostSharesAreAmounts(records: seq<Record>, name: Name)
    ensures AmountNamed(Same, AllHostItems(records), name) == HostShares(records, name)
  {
    if records != [] {
      var n := |records| - 1;
      HostSharesAreAmounts(records[..n], name);
      HostItemsShare(records[n], name);
      NamedAmountConcat(Same, AllHostItems(records[..n]), HostItems(records[n]), name);
    }
  }

  lemma TupleItemsShare(r: Record, name: Name)
    ensures AmountNamed(Id, TupleItems(r), name) == FlowShare(r, name)
  {
    NamedAmountOne(Id, Item(TupleOf(r), Out(r)), name);
  }

  lemma {:induction false} FlowSharesAreAmounts(records: seq<Record>, name: Name)
    ensures AmountNamed(Id, AllTupleItems(records), name) == FlowShares(records, name)
  {
    if records != [] {
      var n := |records| - 1;
      FlowSharesAreAmounts(records[..n], name);
      TupleItemsShare(records[n], name);
      NamedAmountConcat(Id, AllTupleItems(records[..n]), TupleItems(records[n]), name);
    }
  }

  /** The totals are the plain sums over the records. */
  lemma TotalsAreSums(t: Totals, records: seq<Record>, name: Name)
    ensures Get(TakeRecords(t, records).hosts, name) == Plus(Get(t.hosts, name), HostShares(records, name))
    ensures Get(TakeRecords(t, records).flows, name) == Plus(Get(t.flows, name), FlowShares(records, name))
  {
    TakingHosts(t, records);
    TakingFlows(t, records);
    NamedIsSum(Same, t.hosts, AllHostItems(records), name);
    NamedIsSum(Id, t.flows, AllTupleItems(records), name);
    HostSharesAreAmounts(records, name);
    FlowSharesAreAmounts(records, name);
  }

  predicate NoDashes(t: FlowTuple) {
    NoDash(t.srcIP) && NoDash(t.dstIP)
  }

  /** IDs tell flows apart: node, both endpoints and protocol, and which end is the source. */
  lemma IdIdentifies(a: FlowTuple, b: FlowTuple)
    requires NoDashes(a) && NoDashes(b)
    ensures Id(a) == Id(b) <==> a == b
  {
    if Id(a) == Id(b) {
      PairsDiffer(Endpoint(a.srcIP, a.srcPort), Endpoint(a.dstIP, a.dstPort),
                  Endpoint(b.srcIP, b.srcPort), Endpoint(b.dstIP, b.dstPort), a.protocol, b.protocol);
    }
  }

  /** The record is of this flow, field by field. */
  predicate OfFlow(r: Record, node: string, src: Endpoint, dst: Endpoint, protocol: string) {
    && r.node == node && r.protocol == protocol
    && r.src.text == src.ip && r.srcPort == src.port
    && r.dst.text == dst.ip && r.dstPort == dst.port
  }

  function FlowBytes(records: seq<Record>, node: string, src: Endpoint, dst: Endpoint, protocol: string): nat {
    if records == [] then 0
    else
      var last := records[|records| - 1];
      FlowBytes(records[..|records| - 1], node, src, dst, protocol) + if OfFlow(last, node, src, dst, protocol) then last.bytes else 0
  }

  function FlowPackets(records: seq<Record>, node: string, src: Endpoint, dst: Endpoint, protocol: string): nat {
    if records == [] then 0
    else
      var last := records[|records| - 1];
      FlowPackets(records[..|records| - 1], node, src, dst, protocol) + if OfFlow(last, node, src, dst, protocol) then last.packets else 0
  }

  ghost predicate Dashless(records: seq<Record>) {
    forall i :: 0 <= i < |records| ==> NoDash(records[i].src.text) && NoDash(records[i].dst.text)
  }

  lemma ShareOfFlow(r: Record, node: string, src: Endpoint, dst: Endpoint, protocol: string)
    requires node != "" && NoDash(src.ip) && NoDash(dst.ip) && NoDash(r.src.text) && NoDash(r.dst.text)
    ensures FlowShare(r, Id(FlowTuple(node, src.ip, dst.ip, src.port, dst.port, protocol)))
         == if OfFlow(r, node, src, dst, protocol) then Tally(Volume(r.bytes, r.packets), Volume(0, 0)) else ZERO
  {
    IdIdentifies(TupleOf(r), FlowTuple(node, src.ip, dst.ip, src.port, dst.port, protocol));
  }

  lemma {:induction false} FlowSharesSum(records: seq<Record>, node: string, src: Endpoint, dst: Endpoint, protocol: string)
    requires node != "" && NoDash(src.ip) && NoDash(dst.ip) && Dashless(records)
    ensures FlowShares(records, Id(FlowTuple(node, src.ip, dst.ip, src.port, dst.port, protocol)))
         == Tally(Volume(FlowBytes(records, node, src, dst, protocol), FlowPackets(records, node, src, dst, protocol)), Volume(0, 0))
  {
    if records != [] {
      var n := |records| - 1;
      FlowSharesSum(records[..n], node, src, dst, protocol);
      ShareOfFlow(records[n], node, src, dst, protocol);
    }
  }

  /** So the total of a flow is the plain sum over the records of that node with these
      addresses, ports and protocol, in this direction, and over no others. */
  lemma FlowTotalsAreSums(t: Totals, records: seq<Record>, node: string, src: Endpoint, dst: Endpoint, protocol: string)
    requires node != "" && NoDash(src.ip) && NoDash(dst.ip) && Dashless(records)
    ensures Get(TakeRecords(t, records).flows, Id(FlowTuple(node, src.ip, dst.ip, src.port, dst.port, protocol)))
         == Plus(Get(t.flows, Id(FlowTuple(node, src.ip, dst.ip, src.port, dst.port, protocol))),
                 Tally(Volume(FlowBytes(records, node, src, dst, protocol), FlowPackets(records, node, src, dst, protocol)), Volume(0, 0)))
  {
    TotalsAreSums(t, records, Id(FlowTuple(node, src.ip, dst.ip, src.port, dst.port, protocol)));
    FlowSharesSum(records, node, src, dst, protocol);
  }

  /** What one record adds to the local maps. */
  lemma GatherOne(before: seq<Record>, r: Record, after: seq<Record>)
    requires after == before + [r]
    ensures CreditAll(map[], AllHostItems(after)) == TakeTarget(TakeSource(CreditAll(map[], AllHostItems(before)), r), r)
    ensures CreditAll(map[], AllTupleItems(after))
         == var f := CreditAll(map[], AllTupleItems(before));
            if r.node == "" then f else Credit(f, Item(TupleOf(r), Out(r)))
  {
    assert after[..|before|] == before;
    GatherHosts(AllHostItems(before), r);
    GatherTuple(AllTupleItems(before), r);
  }

  lemma GatherHosts(items: seq<Item<Name>>, r: Record)
    ensures CreditAll(map[], items + HostItems(r)) == TakeTarget(TakeSource(CreditAll(map[], items), r), r)
  {
    SameNames(map[], items);
    SameNames(map[], items + HostItems(r));
    NamedConcat(Same, map[], items, HostItems(r));
    HostItemsTake(CreditAll(map[], items), r);
  }

  lemma GatherTuple(items: seq<Item<FlowTuple>>, r: Record)
    ensures CreditAll(map[], items + TupleItems(r))
         == var f := CreditAll(map[], items);
            if r.node == "" then f else Credit(f, Item(TupleOf(r), Out(r)))
  {
    var item := Item(TupleOf(r), Out(r));
    assert items + [] == items;
    assert (items + [item])[..|items|] == items;
  }

  class FlowTotals {
    var hosts: Book<Name>
    var flows: Book<Name>

    function Value(): Totals
      reads this
    {
      Totals(hosts, flows)
    }

    /** Both phases, with the local maps walked in any order. */
    method IngestFlowRecords(records: seq<Record>)
      modifies this
      ensures Value() == TakeRecords(old(Value()), records)
    {
      var hostMap, flowMap := Gather(records);
      var hostList := ListBook(hostMap);
      hosts := MergeAll(hosts, hostList);
      MergeHosts(old(hosts), AllHostItems(records), hostList);
      var flowList := ListBook(flowMap);
      MergeFlows(flowList);
      MergeLocal(Id, old(flows), AllTupleItems(records), flowList);
      TakingHosts(old(Value()), records);
      SameNames(old(hosts), AllHostItems(records));
      TakingFlows(old(Value()), records);
    }

    static method Gather(records: seq<Record>) returns (hostMap: Book<Name>, flowMap: Book<FlowTuple>)
      ensures hostMap == CreditAll(map[], AllHostItems(records))
      ensures flowMap == CreditAll(map[], AllTupleItems(records))
    {
      hostMap, flowMap := map[], map[];
      for i := 0 to |records|
        invariant hostMap == CreditAll(map[], AllHostItems(records[..i]))
        invariant flowMap == CreditAll(map[], AllTupleItems(records[..i]))
      {
        GatherOne(records[..i], records[i], records[..i + 1]);
        hostMap, flowMap := GatherRecord(hostMap, flowMap, records[i]);
      }
      assert records[..|records|] == records;
    }

    static method GatherRecord(hosts: Book<Name>, flows: Book<FlowTuple>, r: Record)
      returns (hostMap: Book<Name>, flowMap: Book<FlowTuple>)
      ensures hostMap == TakeTarget(TakeSource(hosts, r), r)
      ensures flowMap == if r.node == "" then flows else Credit(flows, Item(TupleOf(r), Out(r)))
    {
      hostMap, flowMap := hosts, flows;
      if r.node == "" {
        return;
      }
      hostMap := GatherSource(hostMap, r);
      hostMap := GatherTarget(hostMap, r);
      flowMap := GatherFlow(flowMap, r);
    }

    static method GatherSource(hosts: Book<Name>, r: Record) returns (hostMap: Book<Name>)
      requires r.node != ""
      ensures hostMap == TakeSource(hosts, r)
    {
      hostMap := hosts;
      if r.src.known {
        var key := Name(r.node, r.src.text);
        if key in hostMap {
          var h := hostMap[key];
          hostMap := hostMap[key := h.(sent := Volume(h.sent.bytes + r.bytes, h.sent.packets + r.packets))];
        } else {
          hostMap := hostMap[key := Out(r)];
        }
      }
    }

    static method GatherTarget(hosts: Book<Name>, r: Record) returns (hostMap: Book<Name>)
      requires r.node != ""
      ensures hostMap == TakeTarget(hosts, r)
    {
      hostMap := hosts;
      if r.dst.known {
        var key := Name(r.node, r.dst.text);
        if key in hostMap {
          var h := hostMap[key];
          hostMap := hostMap[key := h.(received := Volume(h.received.bytes + r.bytes, h.received.packets + r.packets))];
        } else {
          hostMap := hostMap[key := In(r)];
        }
      }
    }

    static method GatherFlow(flows: Book<FlowTuple>, r: Record) returns (flowMap: Book<FlowTuple>)
      ensures flowMap == Credit(flows, Item(TupleOf(r), Out(r)))
    {
      var key := TupleOf(r);
      if key in flows {
        var f := flows[key];
        flowMap := flows[key := f.(sent := Volume(f.sent.bytes + r.bytes, f.sent.packets + r.packets))];
      } else {
        flowMap := flows[key := Out(r)];
      }
    }

    method MergeFlows(list: seq<Item<FlowTuple>>)
      modifies this`flows
      ensures flows == CreditNamed(Id, old(flows), list)
    {
      for i := 0 to |list|
        invariant flows == CreditNamed(Id, old(flows), list[..i])
      {
        var id := Id(list[i].key);
        if id in flows {
          flows := flows[id := Plus(flows[id], list[i].tally)];
        } else {
          flows := flows[id := list[i].tally];
        }
        assert list[..i + 1][..i] == list[..i];
      }
      assert list[..|list|] == list;
    }
  }
}
