/** The agent's counters: per host, per flow, and per protocol. */
module Trackers {
  import opened FlowKeys
  import opened Folds
  import opened Ledger

  /** What the trackers read of a parsed packet; addresses are in printed form. */
  datatype Packet = Packet(src: Endpoint, dst: Endpoint, protocol: string, app: string, length: nat)

  predicate Missing(ip: string) {
    ip == "" || ip == "<nil>"
  }

  function SourceItems(p: Packet): seq<Item<string>> {
    if Missing(p.src.ip) then [] else [Item(p.src.ip, Sent(p.length))]
  }

  function TargetItems(p: Packet): seq<Item<string>> {
    if Missing(p.dst.ip) || p.dst.ip == p.src.ip then [] else [Item(p.dst.ip, Received(p.length))]
  }

  function HostItems(p: Packet): seq<Item<string>> {
    SourceItems(p) + TargetItems(p)
  }

  function FlowItems(p: Packet): seq<Item<string>> {
    var key := FlowKey(p.src, p.dst, p.protocol);
    if p.protocol == "ARP" || p.protocol == "" || key == "" then [] else [Item(key, Sent(p.length))]
  }

  function ProtocolName(p: Packet): string {
    if p.protocol == p.app then p.protocol else p.protocol + ":" + p.app
  }

  function ProtocolItems(p: Packet): seq<Item<string>> {
    [Item(ProtocolName(p), Sent(p.length))]
  }

  /** Whose counters: a host's, a flow's, or a protocol's. */
  datatype Key = Host(ip: string) | Flow(flow: string) | Protocol(name: string)

  /** What one packet is worth to one key, said without any tracker. */
  function Share(p: Packet, key: Key): Tally {
    match key
    case Host(ip) =>
      if Missing(ip) then ZERO
      else if ip == p.src.ip then Sent(p.length)
      else if ip == p.dst.ip then Received(p.length)
      else ZERO
    case Flow(flow) =>
      if p.protocol in ["ARP", ""] || Missing(p.src.ip) || Missing(p.dst.ip) then ZERO
      else if flow == FlowKey(p.src, p.dst, p.protocol) then Sent(p.length) else ZERO
    case Protocol(name) =>
      if name == ProtocolName(p) then Sent(p.length) else ZERO
  }

  /** Protocol counters are kept apart by protocol and application, if protocols have no
      colon: by the protocol alone only where the two are the same. */
  lemma ProtocolNamesIdentify(p: Packet, q: Packet)
    requires ':' !in p.protocol && ':' !in q.protocol
    ensures ProtocolName(p) == ProtocolName(q) <==> p.protocol == q.protocol && p.app == q.app
  {
    if p.protocol != p.app {
      assert ProtocolName(p)[|p.protocol|] == ':';
    }
    if q.protocol != q.app {
      assert ProtocolName(q)[|q.protocol|] == ':';
    }
    if ProtocolName(p) == ProtocolName(q) && p.protocol != p.app && q.protocol != q.app {
      CutAt(p.protocol, p.app, q.protocol, q.app, ':');
    }
  }

  /** What a packet is worth to a host: all of it as sent to its source, as received to its
      target; a host that is both counts as the source only. */
  lemma ShareOfHost(p: Packet, ip: string)
    ensures Share(p, Host(ip))
         == if ip == "" || ip == "<nil>" || (ip != p.src.ip && ip != p.dst.ip) then ZERO
            else if ip == p.src.ip then Tally(Volume(p.length, 1), Volume(0, 0))
            else Tally(Volume(0, 0), Volume(p.length, 1))
  {}

  /** What a packet is worth to a flow and to a protocol, by endpoints and names. */
  lemma SharesByFields(p: Packet, q: Packet)
    requires NoDash(p.src.ip) && NoDash(p.dst.ip) && NoDash(q.src.ip) && NoDash(q.dst.ip)
    requires !Missing(q.src.ip) && !Missing(q.dst.ip) && ':' !in p.protocol && ':' !in q.protocol
    ensures Share(p, Flow(FlowKey(q.src, q.dst, q.protocol)))
         == if SamePair(p.src, p.dst, q.src, q.dst) && p.protocol == q.protocol && p.protocol != "ARP" && p.protocol != ""
            then Tally(Volume(p.length, 1), Volume(0, 0)) else ZERO
    ensures Share(p, Protocol(ProtocolName(q)))
         == if p.protocol == q.protocol && p.app == q.app then Tally(Volume(p.length, 1), Volume(0, 0)) else ZERO
  {
    ProtocolNamesIdentify(p, q);
    assert |Show(p.src)| > 0 && |Show(p.dst)| > 0 && |Show(q.src)| > 0 && |Show(q.dst)| > 0;
    if !Missing(p.src.ip) && !Missing(p.dst.ip) {
      FlowKeyIdentifies(p.src, p.dst, q.src, q.dst, p.protocol, q.protocol);
    }
  }

  lemma OneItem(item: Item<string>, name: string)
    ensures Amount([item], name) == if item.key == name then item.tally else ZERO
  {
    AmountSnoc([], item, name);
    assert [] + [item] == [item];
  }

  /** A packet is counted once at most for a key, and with its full length. */

  lemma FlowShare(p: Packet, name: string)
    ensures Amount(FlowItems(p), name) == Share(p, Flow(name))
  {
    OneItem(Item(FlowKey(p.src, p.dst, p.protocol), Sent(p.length)), name);
    if !Missing(p.src.ip) && !Missing(p.dst.ip) {
      assert |Show(p.src)| > 0 && |Show(p.dst)| > 0;
    }
  }

  lemma ProtocolShare(p: Packet, name: string)
    ensures Amount(ProtocolItems(p), name) == Share(p, Protocol(name))
  {
    OneItem(Item(ProtocolName(p), Sent(p.length)), name);
  }

  lemma SourceShare(p: Packet, name: string)
    ensures Amount(SourceItems(p), name) == if !Missing(p.src.ip) && name == p.src.ip then Sent(p.length) else ZERO
  {
    OneItem(Item(p.src.ip, Sent(p.length)), name);
  }

  lemma TargetShare(p: Packet, name: string)
    ensures Amount(TargetItems(p), name)
         == if !Missing(p.dst.ip) && p.dst.ip != p.src.ip && name == p.dst.ip then Received(p.length) else ZERO
  {
    OneItem(Item(p.dst.ip, Received(p.length)), name);
  }

  lemma HostShare(p: Packet, name: string)
    ensures Amount(HostItems(p), name) == Share(p, Host(name))
  {
    var sent := if !Missing(p.src.ip) && name == p.src.ip then Sent(p.length) else ZERO;
    var received := if !Missing(p.dst.ip) && p.dst.ip != p.src.ip && name == p.dst.ip then Received(p.length) else ZERO;
    SourceShare(p, name);
    TargetShare(p, name);
    JoinedAmount(SourceItems(p), TargetItems(p), name, sent, received);
  }

  /** So crediting the items of a packet gives every key its share, and nothing else. */

  lemma HostCredits(book: Book<string>, p: Packet, ip: string)
    ensures Get(CreditAll(book, HostItems(p)), ip) == Plus(Get(book, ip), Share(p, Host(ip)))
  {
    BookIsSum(book, HostItems(p), ip);
    HostShare(p, ip);
  }

  lemma HostsCredited(book: Book<string>, p: Packet)
    ensures forall ip :: Get(CreditAll(book, HostItems(p)), ip) == Plus(Get(book, ip), Share(p, Host(ip)))
  {
    forall ip ensures Get(CreditAll(book, HostItems(p)), ip) == Plus(Get(book, ip), Share(p, Host(ip))) {
      HostCredits(book, p, ip);
    }
  }

  lemma ProtocolCredits(book: Book<string>, p: Packet, name: string)
    ensures Get(CreditAll(book, ProtocolItems(p)), name) == Plus(Get(book, name), Share(p, Protocol(name)))
  {
    BookIsSum(book, ProtocolItems(p), name);
    ProtocolShare(p, name);
  }

  lemma CreditOne(book: Book<string>, item: Item<string>)
    ensures CreditAll(book, [item]) == Credit(book, item)
    ensures CreditAll(book, []) == book
  {
    assert [item][..0] == [];
  }

  /** What the two updates of a packet do to the book of hosts. */
  lemma CreditHosts(book: Book<string>, p: Packet)
    ensures var sent := if Missing(p.src.ip) then book else Credit(book, Item(p.src.ip, Sent(p.length)));
            CreditAll(book, HostItems(p))
            == if Missing(p.dst.ip) || p.dst.ip == p.src.ip then sent else Credit(sent, Item(p.dst.ip, Received(p.length)))
  {
    var src, dst := Item(p.src.ip, Sent(p.length)), Item(p.dst.ip, Received(p.length));
    CreditOne(book, src);
    if TargetItems(p) == [] {
      assert HostItems(p) == SourceItems(p);
    } else {
      assert HostItems(p)[..|HostItems(p)| - 1] == SourceItems(p);
    }
  }

  class HostTracker {
    var hosts: Book<string>

    constructor ()
      ensures hosts == map[]
    {
      hosts := map[];
    }

    method Process(p: Packet)
      modifies this
      ensures hosts == CreditAll(old(hosts), HostItems(p))
      ensures forall ip :: Get(hosts, ip) == Plus(Get(old(hosts), ip), Share(p, Host(ip)))
    {
      CreditHosts(hosts, p);
      HostsCredited(hosts, p);
      if !Missing(p.src.ip) {
        UpdateHost(p.src.ip, true, p.length);
      }
      if !Missing(p.dst.ip) && p.dst.ip != p.src.ip {
        UpdateHost(p.dst.ip, false, p.length);
      }
    }

    method UpdateHost(ip: string, isSent: bool, bytes: nat)
      modifies this
      ensures hosts == Credit(old(hosts), Item(ip, if isSent then Sent(bytes) else Received(bytes)))
    {
      var h := if ip in hosts then hosts[ip] else ZERO;
      if isSent {
        h := h.(sent := Volume(h.sent.bytes + bytes, h.sent.packets + 1));
      } else {
        h := h.(received := Volume(h.received.bytes + bytes, h.received.packets + 1));
      }
      hosts := hosts[ip := h];
    }

    /** Hands over every counter once, and starts again from nothing. */
    method Snapshot() returns (items: seq<Item<string>>)
      modifies this
      ensures Lists(items, old(hosts)) && hosts == map[]
      ensures forall ip :: Amount(items, ip) == Get(old(hosts), ip)
    {
      items := ListBook(hosts);
      forall ip ensures Amount(items, ip) == Get(hosts, ip) {
        ListedAmount(items, hosts, ip);
      }
      hosts := map[];
    }
  }

  class FlowTracker {
    var flows: Book<string>
    var lastSeen: map<string, int>

    ghost predicate Valid()
      reads this
    {
      lastSeen.Keys == flows.Keys
    }

    constructor ()
      ensures Valid() && flows == map[]
    {
      flows, lastSeen := map[], map[];
    }

    method Process(p: Packet, now: int)
      requires Valid()
      modifies this
      ensures Valid()
      ensures flows == CreditAll(old(flows), FlowItems(p))
      ensures lastSeen == if FlowItems(p) == [] then old(lastSeen) else old(lastSeen)[FlowItems(p)[0].key := now]
    {
      ghost var item := Item(FlowKey(p.src, p.dst, p.protocol), Sent(p.length));
      CreditOne(flows, item);
      if p.protocol == "ARP" || p.protocol == "" {
        return;
      }
      var key := FlowKey(p.src, p.dst, p.protocol);
      if key == "" {
        return;
      }
      var f := if key in flows then flows[key] else ZERO;
      flows := flows[key := Tally(Volume(f.sent.bytes + p.length, f.sent.packets + 1), f.received)];
      lastSeen := lastSeen[key := now];
      assert flows == Credit(old(flows), item);
    }

    method Snapshot() returns (items: seq<Item<string>>)
      requires Valid()
      modifies this
      ensures Valid() && Lists(items, old(flows)) && flows == map[]
      ensures forall key :: Amount(items, key) == Get(old(flows), key)
    {
      items := ListBook(flows);
      forall key ensures Amount(items, key) == Get(flows, key) {
        ListedAmount(items, flows, key);
      }
      flows, lastSeen := map[], map[];
    }

    /** Deletes the flows not seen since `cutoff`, and no other; `gone` is what is lost. */
    method ExpireStale(cutoff: int) returns (count: nat, ghost gone: seq<Item<string>>)
      requires Valid()
      modifies this
      ensures Valid() && Sublists(gone, old(flows)) && |gone| == count
      ensures flows == old(flows) - KeysOf(gone)
      ensures forall key :: key in old(flows) ==> (key in flows <==> old(lastSeen)[key] >= cutoff)
    {
      count, gone := 0, [];
      ghost var was, seen := flows, lastSeen;
      var rest := flows.Keys;
      while rest != {}
        invariant Valid() && count == |gone|
        invariant rest <= flows.Keys <= was.Keys
        invariant forall key :: key in flows ==> flows[key] == was[key] && lastSeen[key] == seen[key]
        invariant forall key :: key in was && key !in rest ==> (key in flows <==> seen[key] >= cutoff)
        invariant Sublists(gone, was) && KeysOf(gone) == was.Keys - flows.Keys
      {
        var key :| key in rest;
        rest := rest - {key};
        if lastSeen[key] < cutoff {
          SublistSnoc(gone, was, key);
          flows, lastSeen := flows - {key}, lastSeen - {key};
          count, gone := count + 1, gone + [Item(key, was[key])];
        }
      }
    }
  }

  class ProtocolTracker {
    var stats: Book<string>

    constructor ()
      ensures stats == map[]
    {
      stats := map[];
    }

    method Process(p: Packet)
      modifies this
      ensures stats == CreditAll(old(stats), ProtocolItems(p))
      ensures forall name :: Get(stats, name) == Plus(Get(old(stats), name), Share(p, Protocol(name)))
    {
      ghost var item := Item(ProtocolName(p), Sent(p.length));
      CreditOne(stats, item);
      var key := p.protocol + ":" + p.app;
      if p.protocol == p.app {
        key := p.protocol;
      }
      var s := if key in stats then stats[key] else ZERO;
      stats := stats[key := Tally(Volume(s.sent.bytes + p.length, s.sent.packets + 1), s.received)];
      assert stats == Credit(old(stats), item);
      forall name ensures Get(stats, name) == Plus(Get(old(stats), name), Share(p, Protocol(name))) {
        ProtocolCredits(old(stats), p, name);
      }
    }

    method Snapshot() returns (items: seq<Item<string>>)
      modifies this
      ensures Lists(items, old(stats)) && stats == map[]
      ensures forall name :: Amount(items, name) == Get(old(stats), name)
    {
      items := ListBook(stats);
      forall name ensures Amount(items, name) == Get(stats, name) {
        ListedAmount(items, stats, name);
      }
      stats := map[];
    }
  }
}
