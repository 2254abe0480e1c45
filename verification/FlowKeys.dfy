/** The string keys of flows: the same for both directions, and different for different
    endpoint pairs. */
module FlowKeys {
  import opened Folds

  function Decimal(n: nat): string {
    if n < 10 then ['0' + n as char] else Decimal(n / 10) + ['0' + (n % 10) as char]
  }

  function Value(s: string): int {
    if s == [] then 0 else 10 * Value(s[..|s| - 1]) + (s[|s| - 1] as int - '0' as int)
  }

  /** Printing is undone by reading, so it is injective; and it prints digits only. */
  lemma {:induction false} DecimalReads(n: nat)
    ensures Value(Decimal(n)) == n
    ensures forall i :: 0 <= i < |Decimal(n)| ==> '0' <= Decimal(n)[i] <= '9'
  {
    if n < 10 {
      assert Decimal(n)[..0] == [];
    } else {
      DecimalReads(n / 10);
      assert Decimal(n)[..|Decimal(n)| - 1] == Decimal(n / 10);
    }
  }

  /** The digit loop of the program. */
  method Itoa16(v: nat) returns (s: string)
    requires v < 0x1_0000
    ensures s == Decimal(v)
  {
    if v == 0 {
      return "0";
    }
    var w := v;
    s := "";
    while w > 0
      invariant Decimal(v) == if w == 0 then s else Decimal(w) + s
    {
      s := ['0' + (w % 10) as char] + s;
      w := w / 10;
    }
  }

  /** The program's order on strings: byte by byte, a prefix first. */
  predicate Less(a: string, b: string) {
    |b| > 0 && (|a| == 0 || a[0] < b[0] || (a[0] == b[0] && Less(a[1..], b[1..])))
  }

  lemma {:induction false} LessTotal(a: string, b: string)
    ensures a != b ==> Less(a, b) != Less(b, a)
    ensures a == b ==> !Less(a, b)
  {
    if a != [] && b != [] {
      assert a == [a[0]] + a[1..] && b == [b[0]] + b[1..];
      LessTotal(a[1..], b[1..]);
    }
  }

  /** So a string comes first if the other goes on from it, or at the first place where they
      differ has the larger byte. */
  lemma {:induction false} LessIs(a: string, b: string, k: nat)
    requires k <= |a| && k <= |b| && a[..k] == b[..k] && (k == |a| || k == |b| || a[k] != b[k])
    ensures Less(a, b) <==> k < |b| && (k == |a| || a[k] < b[k])
  {
    if k > 0 {
      assert a[0] == a[..k][0] == b[..k][0] == b[0];
      assert a[1..][..k - 1] == a[..k][1..] == b[..k][1..] == b[1..][..k - 1];
      LessIs(a[1..], b[1..], k - 1);
    }
  }

  datatype Endpoint = Endpoint(ip: string, port: nat)

  function Show(e: Endpoint): string {
    e.ip + ":" + Decimal(e.port)
  }

  /** The key of the flow tracker; empty when an address is missing. */
  function FlowKey(src: Endpoint, dst: Endpoint, protocol: string): string {
    if src.ip == "" || dst.ip == "" || src.ip == "<nil>" || dst.ip == "<nil>" then ""
    else if Less(src.ip, dst.ip) || (src.ip == dst.ip && src.port <= dst.port)
    then Show(src) + "-" + (Show(dst) + "-" + protocol)
    else Show(dst) + "-" + (Show(src) + "-" + protocol)
  }

  /** The key of the TCP metrics. */
  function TcpFlowKey(src: Endpoint, dst: Endpoint): string {
    if Less(src.ip, dst.ip) || (src.ip == dst.ip && src.port < dst.port)
    then Show(src) + "-" + Show(dst)
    else Show(dst) + "-" + Show(src)
  }

  /** Both directions of a flow have the same key. */
  lemma KeysIgnoreDirection(a: Endpoint, b: Endpoint, protocol: string)
    ensures FlowKey(a, b, protocol) == FlowKey(b, a, protocol)
    ensures TcpFlowKey(a, b) == TcpFlowKey(b, a)
  {
    LessTotal(a.ip, b.ip);
  }

  /** A printed address never contains a dash. */
  predicate NoDash(s: string) {
    '-' !in s
  }

  lemma NoColonInPort(e: Endpoint, i: nat)
    requires |e.ip| < i < |Show(e)|
    ensures Show(e)[i] != ':'
  {
    DecimalReads(e.port);
    assert Show(e)[i] == Decimal(e.port)[i - |e.ip| - 1];
  }

  /** The last colon ends the address, whatever colons the address itself has. */
  lemma ShowInjective(a: Endpoint, b: Endpoint)
    requires Show(a) == Show(b)
    ensures a == b
  {
    var s := Show(a);
    assert s[|a.ip|] == ':' == s[|b.ip|];
    if |a.ip| < |b.ip| {
      NoColonInPort(a, |b.ip|);
    } else if |b.ip| < |a.ip| {
      NoColonInPort(b, |a.ip|);
    }
    assert a.ip == s[..|a.ip|] == b.ip;
    assert Decimal(a.port) == s[|a.ip| + 1..] == Decimal(b.port);
    DecimalReads(a.port);
    DecimalReads(b.port);
  }

  lemma ShowNoDash(e: Endpoint)
    requires NoDash(e.ip)
    ensures NoDash(Show(e))
  {
    DecimalReads(e.port);
  }

  predicate SamePair(a: Endpoint, b: Endpoint, c: Endpoint, d: Endpoint) {
    (a == c && b == d) || (a == d && b == c)
  }

  lemma PairsDiffer(a: Endpoint, b: Endpoint, c: Endpoint, d: Endpoint, p: string, q: string)
    requires NoDash(a.ip) && NoDash(b.ip) && NoDash(c.ip) && NoDash(d.ip)
    requires Show(a) + "-" + (Show(b) + "-" + p) == Show(c) + "-" + (Show(d) + "-" + q)
    ensures a == c && b == d && p == q
  {
    ShowNoDash(a); ShowNoDash(b); ShowNoDash(c); ShowNoDash(d);
    CutAt(Show(a), Show(b) + "-" + p, Show(c), Show(d) + "-" + q, '-');
    CutAt(Show(b), p, Show(d), q, '-');
    ShowInjective(a, c);
    ShowInjective(b, d);
  }

  /** Flow keys are equal exactly for the same unordered endpoint pair and protocol. */
  lemma FlowKeyIdentifies(a: Endpoint, b: Endpoint, c: Endpoint, d: Endpoint, p: string, q: string)
    requires NoDash(a.ip) && NoDash(b.ip) && NoDash(c.ip) && NoDash(d.ip)
    requires FlowKey(a, b, p) != "" && FlowKey(c, d, q) != ""
    ensures FlowKey(a, b, p) == FlowKey(c, d, q) <==> SamePair(a, b, c, d) && p == q
  {
    if FlowKey(a, b, p) == FlowKey(c, d, q) {
      var (a', b') := if FlowKey(a, b, p) == Show(a) + "-" + (Show(b) + "-" + p) then (a, b) else (b, a);
      var (c', d') := if FlowKey(c, d, q) == Show(c) + "-" + (Show(d) + "-" + q) then (c, d) else (d, c);
      PairsDiffer(a', b', c', d', p, q);
    }
    KeysIgnoreDirection(a, b, p);
  }

  lemma TcpFlowKeyIdentifies(a: Endpoint, b: Endpoint, c: Endpoint, d: Endpoint)
    requires NoDash(a.ip) && NoDash(b.ip) && NoDash(c.ip) && NoDash(d.ip)
    ensures TcpFlowKey(a, b) == TcpFlowKey(c, d) <==> SamePair(a, b, c, d)
  {
    if TcpFlowKey(a, b) == TcpFlowKey(c, d) {
      var (a', b') := if TcpFlowKey(a, b) == Show(a) + "-" + Show(b) then (a, b) else (b, a);
      var (c', d') := if TcpFlowKey(c, d) == Show(c) + "-" + Show(d) then (c, d) else (d, c);
      ShowNoDash(a');
      ShowNoDash(c');
      CutAt(Show(a'), Show(b'), Show(c'), Show(d'), '-');
      ShowInjective(a', c');
      ShowInjective(b', d');
    }
    KeysIgnoreDirection(a, b, "");
  }
}
