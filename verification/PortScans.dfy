/** The port-scan detector: what an alert guarantees about the traffic behind it. */
module PortScans {
  import opened Cooldown
  import opened TierKeys

  datatype Sighting = Sighting(node: string, ip: string, port: nat)

  datatype Scan = Scan(ports: set<nat>, lastSeen: int)

  type Scans = map<string, Scan>

  // ---- Keys ----

  function Key(node: string, ip: string): string {
    node + ":" + ip
  }

  function KeyOf(f: Sighting): string {
    Key(f.node, f.ip)
  }

  /** Where the last colon is, or -1. */
  function LastColon(s: string): (i: int)
    ensures -1 <= i < |s|
    ensures i >= 0 ==> s[i] == ':'
  {
    if s == [] then -1 else if s[|s| - 1] == ':' then |s| - 1 else LastColon(s[..|s| - 1])
  }

  lemma {:induction false} NoColonAfter(s: string, j: nat)
    requires LastColon(s) < j < |s|
    ensures s[j] != ':'
  {
    if s[|s| - 1] != ':' && j < |s| - 1 {
      NoColonAfter(s[..|s| - 1], j);
    }
  }

  datatype Source = Source(node: string, ip: string)

  function Split(key: string): Source {
    var i := LastColon(key);
    if i >= 0 then Source(key[..i], key[i + 1..]) else Source(key, "")
  }

  method SplitNodeIP(key: string) returns (source: Source)
    ensures source == Split(key)
  {
    var i := |key| - 1;
    while i >= 0
      invariant -1 <= i < |key|
      invariant forall j :: i < j < |key| ==> key[j] != ':'
    {
      if key[i] == ':' {
        LastColonUnique(key, i);
        return Source(key[..i], key[i + 1..]);
      }
      i := i - 1;
    }
    return Source(key, "");
  }

  lemma LastColonUnique(s: string, i: nat)
    requires i < |s| && s[i] == ':' && forall j :: i < j < |s| ==> s[j] != ':'
    ensures LastColon(s) == i
  {
    if LastColon(s) < i {
      NoColonAfter(s, i);
    }
  }

  /** Splitting undoes building the key exactly when the address has no colon. */
  lemma SplitIff(node: string, ip: string)
    ensures Split(Key(node, ip)) == Source(node, ip) <==> ':' !in ip
    ensures Key(Split(Key(node, ip)).node, Split(Key(node, ip)).ip) == Key(node, ip)
  {
    var key := Key(node, ip);
    assert key[|node|] == ':' && key[|node| + 1..] == ip && key[..|node|] == node;
    var i := LastColon(key);
    if i < |node| {
      NoColonAfter(key, |node|);
    }
    assert key == key[..i] + ":" + key[i + 1..];
    if i > |node| {
      assert ip[i - |node| - 1] == key[i] == ':';
      assert ':' in ip;
    } else if ':' in ip {
      var k :| 0 <= k < |ip| && ip[k] == ':';
      NoColonAfter(key, |node| + 1 + k);
    }
  }

  /** Addresses with colons can be taken for those of another node. */
  lemma ColonsCollide()
    ensures Key("n", "a:b") == Key("n:a", "b")
    ensures Split(Key("n", "a:b")) == Source("n:a", "b")
  {
    assert Key("n", "a:b") == "n:a:b" == Key("n:a", "b");
    SplitIff("n:a", "b");
  }

  // ---- One check ----

  /** A call of the detector: its clock reading, the flows it is given, and the thresholds. */
  datatype Check = Check(now: int, flows: seq<Sighting>, windowSec: int, threshold: int)

  function Window(c: Check): int {
    Wrap64(c.windowSec * SECOND)
  }

  /** The window is that many seconds, in nanoseconds, exactly up to 292 years. */
  lemma WindowIs(c: Check)
    ensures Window(c) == c.windowSec * 1_000_000_000 <==> -9_223_372_036 <= c.windowSec <= 9_223_372_036
  {
    var turns := Unwrap(c.windowSec * SECOND);
    assert MIN64 <= Window(c) <= MAX64;
  }

  function Sighted(scans: Scans, f: Sighting, now: int): Scans {
    var key := KeyOf(f);
    scans[key := Scan((if key in scans then scans[key].ports else {}) + {f.port}, now)]
  }

  function SightAll(scans: Scans, flows: seq<Sighting>, now: int): Scans {
    if flows == [] then scans else Sighted(SightAll(scans, flows[..|flows| - 1], now), flows[|flows| - 1], now)
  }

  predicate Stale(s: Scan, c: Check) {
    c.now - s.lastSeen > Window(c)
  }

  predicate Suspicious(s: Scan, c: Check) {
    !Stale(s, c) && |s.ports| >= c.threshold
  }

  function Fresh(scans: Scans, c: Check): Scans {
    map k | k in scans && !Stale(scans[k], c) :: scans[k]
  }

  function Members(keys: seq<string>): set<string> {
    set i | 0 <= i < |keys| :: keys[i]
  }

  /** Keys reported by one check: suspicious ones, each once. */
  ghost predicate Reported(seen: Scans, c: Check, alerted: seq<string>) {
    && (forall i :: 0 <= i < |alerted| ==> alerted[i] in seen && Suspicious(seen[alerted[i]], c))
    && (forall i, j :: 0 <= i < j < |alerted| ==> alerted[i] != alerted[j])
  }

  const MAX_SCANS: nat := 5000

  /** What a check may do to the table: entries alerted on are suspicious and go, stale ones
      go, and at most one more goes when too many are left. */
  ghost predicate CheckStep(scans: Scans, c: Check, alerted: seq<string>, after: Scans) {
    var seen := SightAll(scans, c.flows, c.now);
    var left := Fresh(seen, c) - Members(alerted);
    && Reported(seen, c, alerted)
    && (after == left || (|left| > MAX_SCANS && exists k :: k in left && after == left - {k}))
  }

  /** An entry that is neither stale nor reported is dropped only while more than 5000 are left,
      and then just one is. */
  lemma DroppedWhenCrowded(scans: Scans, c: Check, alerted: seq<string>, after: Scans)
    requires CheckStep(scans, c, alerted, after)
    ensures var left := Fresh(SightAll(scans, c.flows, c.now), c) - Members(alerted);
            && after.Keys <= left.Keys && (forall k :: k in after ==> after[k] == left[k])
            && |after| == |left| - (if |left| > 5000 && after != left then 1 else 0)
            && (|left| <= 5000 ==> after == left)
  {
    var left := Fresh(SightAll(scans, c.flows, c.now), c) - Members(alerted);
    if after != left {
      var k :| k in left && after == left - {k};
      assert after.Keys == left.Keys - {k};
      assert |after.Keys| == |after| && |left.Keys| == |left|;
    }
  }

  // ---- Runs ----

  ghost predicate IsRun(states: seq<Scans>, checks: seq<Check>, alerted: seq<seq<string>>) {
    && |states| == |checks| + 1 && |alerted| == |checks| && states[0] == map[]
    && forall i :: 0 <= i < |checks| ==> CheckStep(states[i], checks[i], alerted[i], states[i + 1])
  }

  function PortsIn(flows: seq<Sighting>, key: string): set<nat> {
    set i | 0 <= i < |flows| && KeyOf(flows[i]) == key :: flows[i].port
  }

  predicate SightedIn(flows: seq<Sighting>, key: string) {
    exists i :: 0 <= i < |flows| && KeyOf(flows[i]) == key
  }

  /** The distinct ports seen in the checks from `i` up to `n`. */
  function PortsSeen(checks: seq<Check>, i: nat, n: nat, key: string): set<nat>
    requires i <= n <= |checks|
  {
    if i == n then {} else PortsSeen(checks, i, n - 1, key) + PortsIn(checks[n - 1].flows, key)
  }

  /** When the key was last seen in those checks; it is in the first. */
  function LastSight(checks: seq<Check>, i: nat, n: nat, key: string): int
    requires i < n <= |checks|
  {
    if i == n - 1 || SightedIn(checks[n - 1].flows, key) then checks[n - 1].now
    else LastSight(checks, i, n - 1, key)
  }

  /** No check from `i` up to `n` found the key idle for longer than the window. */
  ghost predicate NeverIdle(checks: seq<Check>, i: nat, n: nat, key: string)
    requires i <= n <= |checks|
  {
    forall j :: i <= j < n ==> checks[j].now - LastSight(checks, i, j + 1, key) <= Window(checks[j])
  }

  /** An entry is what the checks since `i`, the one that made it, saw of its key. */
  ghost predicate MadeAt(checks: seq<Check>, i: nat, n: nat, key: string, s: Scan) {
    && i < n <= |checks|
    && SightedIn(checks[i].flows, key)
    && s.ports == PortsSeen(checks, i, n, key)
    && s.lastSeen == LastSight(checks, i, n, key)
  }

  lemma {:induction false} SightAllKey(scans: Scans, flows: seq<Sighting>, now: int, key: string)
    ensures var seen := SightAll(scans, flows, now);
            if SightedIn(flows, key)
            then key in seen && seen[key] == Scan((if key in scans then scans[key].ports else {}) + PortsIn(flows, key), now)
            else PortsIn(flows, key) == {} && (key in seen <==> key in scans) && (key in seen ==> seen[key] == scans[key])
  {
    if flows != [] {
      var n := |flows| - 1;
      SightAllKey(scans, flows[..n], now, key);
      InSnoc(flows, key);
    }
  }

  lemma InSnoc(flows: seq<Sighting>, key: string)
    requires flows != []
    ensures var n := |flows| - 1;
            && PortsIn(flows, key) == PortsIn(flows[..n], key) + (if KeyOf(flows[n]) == key then {flows[n].port} else {})
            && (SightedIn(flows, key) <==> SightedIn(flows[..n], key) || KeyOf(flows[n]) == key)
  {
    var n := |flows| - 1;
    assert forall i :: 0 <= i < n ==> flows[..n][i] == flows[i];
    forall p ensures p in PortsIn(flows, key) <==> p in PortsIn(flows[..n], key) || (KeyOf(flows[n]) == key && p == flows[n].port) {
      if p in PortsIn(flows, key) {
        var i :| 0 <= i < |flows| && KeyOf(flows[i]) == key && flows[i].port == p;
        if i < n {
          assert flows[..n][i].port == p;
        }
      }
      if p in PortsIn(flows[..n], key) {
        var i :| 0 <= i < n && KeyOf(flows[..n][i]) == key && flows[..n][i].port == p;
        assert flows[i].port == p;
      }
    }
  }

  /** After a check has recorded its flows, an entry goes on, or begins with this check. */
  lemma SightStep(checks: seq<Check>, n: nat, scans: Scans, key: string, i: nat)
    requires n < |checks|
    requires key in SightAll(scans, checks[n].flows, checks[n].now)
    requires if key in scans then MadeAt(checks, i, n, key, scans[key]) && NeverIdle(checks, i, n, key) else i == n
    ensures MadeAt(checks, i, n + 1, key, SightAll(scans, checks[n].flows, checks[n].now)[key])
    ensures i <= n && NeverIdle(checks, i, n, key)
  {
    SightAllKey(scans, checks[n].flows, checks[n].now, key);
    if key in scans {
    } else {
      assert PortsSeen(checks, n, n, key) == {};
    }
  }

  ghost predicate Backed(checks: seq<Check>, n: nat, key: string, s: Scan)
    requires n <= |checks|
  {
    exists i :: MadeAt(checks, i, n, key, s) && NeverIdle(checks, i, n, key)
  }

  lemma {:induction false} EntriesBacked(states: seq<Scans>, checks: seq<Check>, alerted: seq<seq<string>>, n: nat, key: string)
    requires IsRun(states, checks, alerted) && n <= |checks| && key in states[n]
    ensures Backed(checks, n, key, states[n][key])
    decreases n, 0
  {
    var m := n - 1;
    var seen := SightAll(states[m], checks[m].flows, checks[m].now);
    assert CheckStep(states[m], checks[m], alerted[m], states[n]);
    assert key in seen && states[n][key] == seen[key] && !Stale(seen[key], checks[m]);
    var i := SeenBacked(states, checks, alerted, m, key);
    StaysBusy(checks, i, m, key, seen[key]);
    assert MadeAt(checks, i, n, key, states[n][key]);
  }

  /** The check that made the entry found at check `m`, once its flows are recorded. */
  lemma {:induction false} SeenBacked(states: seq<Scans>, checks: seq<Check>, alerted: seq<seq<string>>, m: nat, key: string)
    returns (i: nat)
    requires IsRun(states, checks, alerted) && m < |checks|
    requires key in SightAll(states[m], checks[m].flows, checks[m].now)
    ensures MadeAt(checks, i, m + 1, key, SightAll(states[m], checks[m].flows, checks[m].now)[key])
    ensures NeverIdle(checks, i, m, key)
    decreases m, 1
  {
    i := m;
    if key in states[m] {
      EntriesBacked(states, checks, alerted, m, key);
      i :| MadeAt(checks, i, m, key, states[m][key]) && NeverIdle(checks, i, m, key);
    }
    SightStep(checks, m, states[m], key, i);
  }

  lemma StaysBusy(checks: seq<Check>, i: nat, m: nat, key: string, s: Scan)
    requires m < |checks| && MadeAt(checks, i, m + 1, key, s) && NeverIdle(checks, i, m, key) && !Stale(s, checks[m])
    ensures NeverIdle(checks, i, m + 1, key)
  {}

  /** Behind every alert, on any run and with thresholds changing: since some check `i` that
      saw the key, at least as many distinct ports as the threshold asks for, and no check that
      found the key idle for longer than the window. */
  lemma AlertsAreSound(states: seq<Scans>, checks: seq<Check>, alerted: seq<seq<string>>, n: nat, key: string)
    returns (i: nat)
    requires IsRun(states, checks, alerted) && n < |checks| && key in Members(alerted[n])
    ensures i <= n && SightedIn(checks[i].flows, key)
    ensures AlertFor(key, SightAll(states[n], checks[n].flows, checks[n].now), checks[n]).ports
         == |PortsSeen(checks, i, n + 1, key)| >= checks[n].threshold
    ensures NeverIdle(checks, i, n + 1, key)
  {
    var seen := SightAll(states[n], checks[n].flows, checks[n].now);
    AlertedSuspicious(states[n], checks[n], alerted[n], states[n + 1], key);
    i := SeenBacked(states, checks, alerted, n, key);
    StaysBusy(checks, i, n, key, seen[key]);
  }

  /** What makes an entry due: since the check that made it, at least as many distinct ports as
      the threshold asks for, the last of them seen within the window. */
  lemma SuspiciousIff(states: seq<Scans>, checks: seq<Check>, alerted: seq<seq<string>>, n: nat, key: string)
    returns (i: nat)
    requires IsRun(states, checks, alerted) && n < |checks|
    requires key in SightAll(states[n], checks[n].flows, checks[n].now)
    ensures i <= n && SightedIn(checks[i].flows, key) && NeverIdle(checks, i, n, key)
    ensures Suspicious(SightAll(states[n], checks[n].flows, checks[n].now)[key], checks[n])
            <==> && |PortsSeen(checks, i, n + 1, key)| >= checks[n].threshold
                 && checks[n].now - LastSight(checks, i, n + 1, key) <= Window(checks[n])
  {
    i := SeenBacked(states, checks, alerted, n, key);
  }

  lemma AlertedSuspicious(scans: Scans, c: Check, alerted: seq<string>, after: Scans, key: string)
    requires CheckStep(scans, c, alerted, after) && key in Members(alerted)
    ensures var seen := SightAll(scans, c.flows, c.now);
            key in seen && Suspicious(seen[key], c)
  {}

  /** And the alert names the one source these ports were seen from, when no address has a
      colon. */
  lemma AlertsNameTheSource(key: string, f: Sighting, g: Sighting)
    requires KeyOf(f) == key && ':' !in f.ip && ':' !in g.ip
    ensures Split(key) == Source(f.node, f.ip)
    ensures KeyOf(g) == key <==> g.node == f.node && g.ip == f.ip
  {
    SplitIff(f.node, f.ip);
    SplitIff(g.node, g.ip);
  }

  // ---- The same of a source, among addresses without a colon ----

  function SourceOf(f: Sighting): Source {
    Source(f.node, f.ip)
  }

  ghost predicate NoColons(checks: seq<Check>) {
    forall j, k :: 0 <= j < |checks| && 0 <= k < |checks[j].flows| ==> ':' !in checks[j].flows[k].ip
  }

  ghost predicate SeenFrom(flows: seq<Sighting>, source: Source) {
    exists k :: 0 <= k < |flows| && SourceOf(flows[k]) == source
  }

  /** The distinct ports the checks from `i` up to `n` were told of from a source. */
  ghost function PortsFrom(checks: seq<Check>, i: nat, n: nat, source: Source): set<nat>
    requires i <= n <= |checks|
  {
    set j, k | i <= j < n && 0 <= k < |checks[j].flows| && SourceOf(checks[j].flows[k]) == source :: checks[j].flows[k].port
  }

  /** Up to check `j`, check `l` was the last one to see the source. */
  ghost predicate LastFrom(checks: seq<Check>, l: nat, j: nat, source: Source) {
    && l <= j < |checks| && SeenFrom(checks[l].flows, source)
    && forall m :: l < m <= j ==> !SeenFrom(checks[m].flows, source)
  }

  /** At check `j` the source had been seen within the window. */
  ghost predicate RecentFrom(checks: seq<Check>, i: nat, j: nat, source: Source)
    requires j < |checks|
  {
    exists l :: i <= l && LastFrom(checks, l, j, source) && checks[j].now - checks[l].now <= Window(checks[j])
  }

  /** At none of the checks had the source been idle for longer than the window. */
  ghost predicate BusyFrom(checks: seq<Check>, i: nat, n: nat, source: Source)
    requires i <= n <= |checks|
  {
    forall j :: i <= j < n ==> RecentFrom(checks, i, j, source)
  }

  /** The key of a source is no other's. */
  ghost predicate Names(key: string, source: Source, flows: seq<Sighting>) {
    forall k :: 0 <= k < |flows| ==> (KeyOf(flows[k]) == key <==> SourceOf(flows[k]) == source)
  }

  ghost predicate NamesAll(checks: seq<Check>, key: string, source: Source) {
    forall j :: 0 <= j < |checks| ==> Names(key, source, checks[j].flows)
  }

  lemma KeyNames(checks: seq<Check>, i: nat, key: string)
    requires NoColons(checks) && i < |checks| && SightedIn(checks[i].flows, key)
    ensures NamesAll(checks, key, Split(key))
  {
    var f :| f in checks[i].flows && KeyOf(f) == key;
    forall j, k | 0 <= j < |checks| && 0 <= k < |checks[j].flows|
      ensures KeyOf(checks[j].flows[k]) == key <==> SourceOf(checks[j].flows[k]) == Split(key)
    {
      AlertsNameTheSource(key, f, checks[j].flows[k]);
    }
  }

  lemma {:induction false} PortsSeenFrom(checks: seq<Check>, i: nat, n: nat, key: string, source: Source)
    requires i <= n <= |checks| && NamesAll(checks, key, source)
    ensures PortsSeen(checks, i, n, key) == PortsFrom(checks, i, n, source)
  {
    if i < n {
      PortsSeenFrom(checks, i, n - 1, key, source);
      PortsFromSnoc(checks, i, n, key, source);
    }
  }

  lemma PortsFromSnoc(checks: seq<Check>, i: nat, n: nat, key: string, source: Source)
    requires i < n <= |checks| && Names(key, source, checks[n - 1].flows)
    ensures PortsFrom(checks, i, n, source) == PortsFrom(checks, i, n - 1, source) + PortsIn(checks[n - 1].flows, key)
  {}

  lemma SightedIsSeen(flows: seq<Sighting>, key: string, source: Source)
    requires Names(key, source, flows)
    ensures SightedIn(flows, key) <==> SeenFrom(flows, source)
  {}

  lemma {:induction false} LastSightFrom(checks: seq<Check>, i: nat, j: nat, key: string, source: Source) returns (l: nat)
    requires i <= j < |checks| && NamesAll(checks, key, source) && SightedIn(checks[i].flows, key)
    ensures i <= l && LastFrom(checks, l, j, source) && checks[l].now == LastSight(checks, i, j + 1, key)
  {
    SightedIsSeen(checks[j].flows, key, source);
    if i == j || SightedIn(checks[j].flows, key) {
      l := j;
    } else {
      l := LastSightFrom(checks, i, j - 1, key, source);
    }
  }

  lemma RecentAsSeen(checks: seq<Check>, i: nat, j: nat, key: string, source: Source)
    requires i <= j < |checks| && NamesAll(checks, key, source) && SightedIn(checks[i].flows, key)
    requires checks[j].now - LastSight(checks, i, j + 1, key) <= Window(checks[j])
    ensures RecentFrom(checks, i, j, source)
  {
    var l := LastSightFrom(checks, i, j, key, source);
  }

  lemma BusyAsSeen(checks: seq<Check>, i: nat, n: nat, key: string, source: Source)
    requires i < n <= |checks| && NamesAll(checks, key, source)
    requires SightedIn(checks[i].flows, key) && NeverIdle(checks, i, n, key)
    ensures BusyFrom(checks, i, n, source)
  {
    forall j | i <= j < n ensures RecentFrom(checks, i, j, source) {
      RecentAsSeen(checks, i, j, key, source);
    }
  }

  /** Behind every alert, among addresses without a colon: since some check that saw the very
      source it names, just as many distinct ports from there as it says, no fewer than the
      threshold asks for, and no check by which that source had been idle for longer than the
      window. */
  lemma NamedSourceScanned(states: seq<Scans>, checks: seq<Check>, alerted: seq<seq<string>>, n: nat, key: string)
    returns (i: nat)
    requires IsRun(states, checks, alerted) && NoColons(checks)
    requires n < |checks| && key in Members(alerted[n])
    ensures var a := AlertFor(key, SightAll(states[n], checks[n].flows, checks[n].now), checks[n]);
            && i <= n && SeenFrom(checks[i].flows, a.source) && a.at == checks[n].now
            && a.ports == |PortsFrom(checks, i, n + 1, a.source)| >= checks[n].threshold
            && BusyFrom(checks, i, n + 1, a.source)
  {
    i := AlertsAreSound(states, checks, alerted, n, key);
    ScannedFrom(checks, i, n + 1, key);
  }

  lemma ScannedFrom(checks: seq<Check>, i: nat, n: nat, key: string)
    requires NoColons(checks) && i < n <= |checks| && SightedIn(checks[i].flows, key) && NeverIdle(checks, i, n, key)
    ensures SeenFrom(checks[i].flows, Split(key)) && BusyFrom(checks, i, n, Split(key))
    ensures PortsSeen(checks, i, n, key) == PortsFrom(checks, i, n, Split(key))
  {
    KeyNames(checks, i, key);
    SightedIsSeen(checks[i].flows, key, Split(key));
    PortsSeenFrom(checks, i, n, key, Split(key));
    BusyAsSeen(checks, i, n, key, Split(key));
  }

  // ---- The detector ----

  datatype Alert = Alert(source: Source, ports: nat, at: int)

  function AlertFor(key: string, scans: Scans, c: Check): Alert {
    Alert(Split(key), if key in scans then |scans[key].ports| else 0, c.now)
  }

  function AlertsFor(keys: seq<string>, scans: Scans, c: Check): seq<Alert> {
    if keys == [] then [] else AlertsFor(keys[..|keys| - 1], scans, c) + [AlertFor(keys[|keys| - 1], scans, c)]
  }

  lemma AppendAlerts(a: seq<Alert>, b: seq<Alert>, c: seq<Alert>)
    ensures a + b + c == a + (b + c)
  {}

  function Fingerprint(key: string): string {
    "scan:" + Split(key).node + ":" + Split(key).ip
  }

  /** Keys have a colon, so different keys have different fingerprints. */
  lemma FingerprintIs(key: string)
    requires ':' in key
    ensures Fingerprint(key) == "scan:" + key
  {
    var i := LastColon(key);
    if i < 0 {
      var k :| 0 <= k < |key| && key[k] == ':';
      NoColonAfter(key, k);
    }
    assert key == key[..i] + ":" + key[i + 1..];
    assert "scan:" + key[..i] + ":" + key[i + 1..] == "scan:" + (key[..i] + ":" + key[i + 1..]);
  }

  lemma FingerprintsDiffer(a: string, b: string)
    requires ':' in a && ':' in b && a != b
    ensures Fingerprint(a) != Fingerprint(b)
  {
    FingerprintIs(a);
    FingerprintIs(b);
    assert ("scan:" + a)[5..] == a && ("scan:" + b)[5..] == b;
  }

  ghost predicate HasColons(scans: Scans) {
    forall k :: k in scans ==> ':' in k
  }

  lemma {:induction false} SightAllColons(scans: Scans, flows: seq<Sighting>, now: int)
    requires HasColons(scans)
    ensures HasColons(SightAll(scans, flows, now))
  {
    if flows != [] {
      var f := flows[|flows| - 1];
      SightAllColons(scans, flows[..|flows| - 1], now);
      assert KeyOf(f)[|f.node|] == ':';
    }
  }

  lemma ReportedSnoc(seen: Scans, c: Check, alerted: seq<string>, key: string)
    requires Reported(seen, c, alerted) && key in seen && Suspicious(seen[key], c) && key !in Members(alerted)
    ensures Reported(seen, c, alerted + [key])
    ensures Members(alerted + [key]) == Members(alerted) + {key}
    ensures AlertsFor(alerted + [key], seen, c) == AlertsFor(alerted, seen, c) + [AlertFor(key, seen, c)]
  {
    var more := alerted + [key];
    assert more[..|alerted|] == alerted && more[|alerted|] == key;
    forall k ensures k in Members(more) <==> k in Members(alerted) + {key} {
      if k in Members(alerted) {
        var i :| 0 <= i < |alerted| && alerted[i] == k;
        assert more[i] == k;
      }
    }
    assert forall i :: 0 <= i < |alerted| ==> alerted[i] in Members(alerted);
  }

  /** Reporting one key does not silence another. */
  lemma StillFires(prior: State, key: string, rest: set<string>, now: int)
    requires ':' in key && key !in rest && forall k :: k in rest ==> ':' in k
    ensures forall k :: k in rest && ShouldFire(prior, Fingerprint(k), now) ==>
              ShouldFire(Recorded(prior, Fingerprint(key), now), Fingerprint(k), now)
  {
    forall k | k in rest && ShouldFire(prior, Fingerprint(k), now)
      ensures ShouldFire(Recorded(prior, Fingerprint(key), now), Fingerprint(k), now)
    {
      FingerprintsDiffer(key, k);
      RecordingLeavesOthers(prior, Fingerprint(key), Fingerprint(k), now);
    }
  }

  /** Half-way through the table, with `rest` still to come. */
  ghost predicate Reviewed(was: Scans, c: Check, rest: set<string>, alerted: seq<string>, scans: Scans) {
    && Reported(was, c, alerted) && scans.Keys <= was.Keys && Members(alerted) !! scans.Keys
    && (forall k :: k in scans ==> scans[k] == was[k])
    && (forall k :: k in was && k !in rest ==> (k in scans <==> !Stale(was[k], c) && k !in Members(alerted)))
  }

  ghost predicate Throttled(was: Scans, c: Check, rest: set<string>, alerted: seq<string>, began: State, now: State) {
    && (forall k :: k in was && k !in rest && Suspicious(was[k], c) && k !in Members(alerted) ==>
          !ShouldFire(began, Fingerprint(k), c.now))
    && (forall k :: k in rest && ShouldFire(began, Fingerprint(k), c.now) ==> ShouldFire(now, Fingerprint(k), c.now))
  }

  lemma ReviewStep(was: Scans, c: Check, rest: set<string>, alerted: seq<string>, scans: Scans, key: string, fired: bool)
    requires Reviewed(was, c, rest, alerted, scans) && rest <= scans.Keys && key in rest
    requires fired ==> Suspicious(was[key], c)
    ensures Reviewed(was, c, rest - {key}, if fired then alerted + [key] else alerted,
                     if Stale(was[key], c) || fired then scans - {key} else scans)
    ensures AlertsFor(alerted + [key], was, c) == AlertsFor(alerted, was, c) + [AlertFor(key, was, c)]
  {
    assert (alerted + [key])[..|alerted|] == alerted;
    if fired {
      ReportedSnoc(was, c, alerted, key);
    }
  }

  lemma ReviewDone(was: Scans, c: Check, alerted: seq<string>, scans: Scans)
    requires Reviewed(was, c, {}, alerted, scans)
    ensures scans == Fresh(was, c) - Members(alerted)
  {}

  lemma ThrottleStep(was: Scans, c: Check, rest: set<string>, alerted: seq<string>, began: State, prior: State, key: string, fired: bool)
    requires Throttled(was, c, rest, alerted, began, prior) && key in rest && rest <= was.Keys && HasColons(was)
    requires Reported(was, c, alerted) && key !in Members(alerted)
    requires fired <==> Suspicious(was[key], c) && ShouldFire(prior, Fingerprint(key), c.now)
    ensures Throttled(was, c, rest - {key}, if fired then alerted + [key] else alerted, began,
                      if fired then Recorded(prior, Fingerprint(key), c.now) else prior)
  {
    if fired {
      ReportedSnoc(was, c, alerted, key);
      StillFires(prior, key, rest - {key}, c.now);
    }
  }

  class PortScanner {
    var portScans: Scans
    var alerts: seq<Alert>
    const throttle: AlertThrottle

    constructor (throttle: AlertThrottle)
      ensures portScans == map[] && alerts == [] && this.throttle == throttle
    {
      portScans, alerts, this.throttle := map[], [], throttle;
    }

    /** Every suspicious source is reported, unless the same was reported within the cooldown. */
    method CheckPortScan(c: Check, suppressed: bool) returns (ghost alerted: seq<string>)
      requires HasColons(portScans)
      modifies this, throttle
      ensures HasColons(portScans)
      ensures CheckStep(old(portScans), c, alerted, portScans)
      ensures alerts == old(alerts) + if suppressed then [] else AlertsFor(alerted, SightAll(old(portScans), c.flows, c.now), c)
      ensures var seen := SightAll(old(portScans), c.flows, c.now);
              forall k :: k in seen && Suspicious(seen[k], c) && k !in Members(alerted) ==>
                !ShouldFire(old(throttle.Value()), Fingerprint(k), c.now)
    {
      for i := 0 to |c.flows|
        invariant portScans == SightAll(old(portScans), c.flows[..i], c.now)
        invariant alerts == old(alerts) && throttle.Value() == old(throttle.Value())
      {
        portScans := Sighted(portScans, c.flows[i], c.now);
        assert c.flows[..i + 1][..i] == c.flows[..i];
      }
      assert c.flows[..|c.flows|] == c.flows;
      SightAllColons(old(portScans), c.flows, c.now);
      alerted := Review(c, suppressed);
      if |portScans| > MAX_SCANS {
        var k :| k in portScans;
        portScans := portScans - {k};
      }
    }

    /** The loop over the table. */
    method Review(c: Check, suppressed: bool) returns (ghost alerted: seq<string>)
      requires HasColons(portScans)
      modifies this, throttle
      ensures Reported(old(portScans), c, alerted)
      ensures portScans == Fresh(old(portScans), c) - Members(alerted)
      ensures alerts == old(alerts) + if suppressed then [] else AlertsFor(alerted, old(portScans), c)
      ensures forall k :: k in old(portScans) && Suspicious(old(portScans)[k], c) && k !in Members(alerted) ==>
                !ShouldFire(old(throttle.Value()), Fingerprint(k), c.now)
    {
      alerted := [];
      ghost var was, began := portScans, throttle.Value();
      var rest := portScans.Keys;
      while rest != {}
        invariant rest <= portScans.Keys
        invariant Reviewed(was, c, rest, alerted, portScans)
        invariant Throttled(was, c, rest, alerted, began, throttle.Value())
        invariant alerts == old(alerts) + if suppressed then [] else AlertsFor(alerted, was, c)
      {
        var key :| key in rest;
        ghost var so := AlertsFor(alerted, was, c);
        alerted := ReviewNext(key, c, suppressed, was, rest, alerted, began);
        AppendAlerts(old(alerts), so, [AlertFor(key, was, c)]);
        AppendAlerts(old(alerts), so, []);
        rest := rest - {key};
      }
      ReviewDone(was, c, alerted, portScans);
    }

    method ReviewNext(key: string, c: Check, suppressed: bool,
                      ghost was: Scans, ghost rest: set<string>, ghost alerted: seq<string>, ghost began: State)
      returns (ghost more: seq<string>)
      requires key in rest && rest <= portScans.Keys && HasColons(was)
      requires Reviewed(was, c, rest, alerted, portScans)
      requires Throttled(was, c, rest, alerted, began, throttle.Value())
      modifies this, throttle
      ensures rest - {key} <= portScans.Keys
      ensures Reviewed(was, c, rest - {key}, more, portScans)
      ensures Throttled(was, c, rest - {key}, more, began, throttle.Value())
      ensures alerts == old(alerts) + (if suppressed || more == alerted then [] else [AlertFor(key, was, c)])
      ensures AlertsFor(more, was, c) == AlertsFor(alerted, was, c) + if more == alerted then [] else [AlertFor(key, was, c)]
    {
      ghost var before, prior := portScans, throttle.Value();
      var fired := ReviewOne(key, c, suppressed);
      ReviewStep(was, c, rest, alerted, before, key, fired);
      ThrottleStep(was, c, rest, alerted, began, prior, key, fired);
      more := if fired then alerted + [key] else alerted;
    }

    method ReviewOne(key: string, c: Check, suppressed: bool) returns (fired: bool)
      requires key in portScans
      modifies this, throttle
      ensures fired == (Suspicious(old(portScans)[key], c) && ShouldFire(old(throttle.Value()), Fingerprint(key), c.now))
      ensures portScans == if Stale(old(portScans)[key], c) || fired then old(portScans) - {key} else old(portScans)
      ensures alerts == old(alerts) + if fired && !suppressed then [AlertFor(key, old(portScans), c)] else []
      ensures throttle.Value() == if fired then Recorded(old(throttle.Value()), Fingerprint(key), c.now) else old(throttle.Value())
    {
      fired := false;
      var state := portScans[key];
      if c.now - state.lastSeen > Window(c) {
        portScans := portScans - {key};
      } else if |state.ports| >= c.threshold {
        fired := throttle.CheckFire(Fingerprint(key), c.now);
        if fired {
          throttle.RecordFire(Fingerprint(key), c.now);
          if !suppressed {
            alerts := alerts + [Alert(Split(key), |state.ports|, c.now)];
          }
          portScans := portScans - {key};
        }
      }
    }
  }
}
