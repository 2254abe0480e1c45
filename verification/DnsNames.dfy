/** The first query name of a DNS payload. */
module DnsNames {
  import opened Folds
  import opened Sni

  const HEADER: nat := 12

  /** The labels from `offset` on, up to a zero length, one of 64 or more, or the end. */
  function Labels(payload: seq<Byte>, offset: nat): seq<seq<Byte>>
    decreases |payload| - offset
  {
    if offset >= |payload| then []
    else
      var length := payload[offset];
      if length == 0 || length >= 64 || offset + 1 + length > |payload| then []
      else [payload[offset + 1..offset + 1 + length]] + Labels(payload, offset + 1 + length)
  }

  function Join(parts: seq<seq<Byte>>): seq<Byte> {
    if parts == [] then [] else if |parts| == 1 then parts[0] else parts[0] + ['.' as int] + Join(parts[1..])
  }

  method ParseDnsName(payload: seq<Byte>) returns (name: seq<Byte>)
    ensures name == if |payload| < 13 then [] else Join(Labels(payload, HEADER))
  {
    if |payload| < 13 {
      return [];
    }
    var offset := HEADER;
    var parts: seq<seq<Byte>> := [];
    while offset < |payload|
      invariant offset <= |payload|
      invariant parts + Labels(payload, offset) == Labels(payload, HEADER)
    {
      var length := payload[offset];
      if length == 0 {
        break;
      }
      if length >= 64 || offset + 1 + length > |payload| {
        break;
      }
      offset := offset + 1;
      assert parts + ([payload[offset..offset + length]] + Labels(payload, offset + length))
          == parts + [payload[offset..offset + length]] + Labels(payload, offset + length);
      parts := parts + [payload[offset..offset + length]];
      offset := offset + length;
    }
    assert Labels(payload, offset) == [] && parts + [] == parts;
    if |parts| == 0 {
      return [];
    }
    name := Join(parts);
  }

  /** 46 is the dot. */
  predicate NoDot(part: seq<Byte>) {
    46 !in part
  }

  lemma JoinMore(parts: seq<seq<Byte>>)
    requires |parts| > 1
    ensures Join(parts) == parts[0] + [46] + Join(parts[1..]) && 46 in Join(parts)
  {
    assert Join(parts)[|parts[0]|] == 46;
  }

  /** The printed name can be cut at its dots again: it tells all names apart whose labels
      have no dot of their own. */
  lemma {:induction false} JoinIdentifies(a: seq<seq<Byte>>, b: seq<seq<Byte>>)
    requires a != [] && b != []
    requires (forall i :: 0 <= i < |a| ==> NoDot(a[i])) && (forall i :: 0 <= i < |b| ==> NoDot(b[i]))
    ensures Join(a) == Join(b) <==> a == b
    decreases |a|
  {
    HeadTail(a);
    HeadTail(b);
    assert NoDot(a[0]) && NoDot(b[0]);
    if |a| > 1 {
      JoinMore(a);
    }
    if |b| > 1 {
      JoinMore(b);
    }
    if |a| > 1 && |b| > 1 {
      JoinIdentifies(a[1..], b[1..]);
      if Join(a) == Join(b) {
        CutAt(a[0], Join(a[1..]), b[0], Join(b[1..]), 46);
      }
    }
  }

  /** Labels on the wire, each after its length byte, and what follows. */
  function Encode(labels: seq<seq<Byte>>, rest: seq<Byte>): seq<Byte>
    requires LabelsOk(labels)
  {
    if labels == [] then rest else [|labels[0]|] + (labels[0] + Encode(labels[1..], rest))
  }

  predicate LabelsOk(labels: seq<seq<Byte>>) {
    forall i :: 0 <= i < |labels| ==> 0 < |labels[i]| < 64
  }

  /** No label begins here: a zero, a compression pointer or another length of 64 or more, a
      label that is cut off, or the end. */
  predicate NoLabel(rest: seq<Byte>) {
    rest == [] || rest[0] == 0 || rest[0] >= 64 || 1 + rest[0] > |rest|
  }

  lemma LabelStep(payload: seq<Byte>, offset: nat, part: seq<Byte>, tail: seq<Byte>)
    requires offset <= |payload| && |part| < 64 && payload[offset..] == [|part|] + (part + tail)
    ensures var next := offset + 1 + |part|;
            next <= |payload| && payload[offset] == |part| && payload[offset + 1..next] == part && payload[next..] == tail
  {
    var s, n := payload[offset..], |part|;
    assert payload[offset] == s[0];
    assert payload[offset + 1..] == s[1..] == part + tail;
    assert payload[offset + 1..][..n] == part && payload[offset + 1..][n..] == tail;
  }

  lemma EncodeStep(labels: seq<seq<Byte>>, rest: seq<Byte>)
    requires LabelsOk(labels) && labels != []
    ensures LabelsOk(labels[1..]) && Encode(labels, rest) == [|labels[0]|] + (labels[0] + Encode(labels[1..], rest))
  {}

  lemma ReadOne(payload: seq<Byte>, offset: nat, part: seq<Byte>)
    requires 0 < |part| < 64 && offset + 1 + |part| <= |payload|
    requires payload[offset] == |part| && payload[offset + 1..offset + 1 + |part|] == part
    ensures Labels(payload, offset) == [part] + Labels(payload, offset + 1 + |part|)
  {}

  lemma ReadNone(payload: seq<Byte>, offset: nat)
    requires offset <= |payload| && NoLabel(payload[offset..])
    ensures Labels(payload, offset) == []
  {
    var rest := payload[offset..];
    assert rest != [] ==> payload[offset] == rest[0];
  }

  /** Reading back all labels, whatever ends them and whatever follows. */
  lemma {:induction false} LabelsRoundTrip(payload: seq<Byte>, offset: nat, labels: seq<seq<Byte>>, rest: seq<Byte>)
    requires LabelsOk(labels) && NoLabel(rest)
    requires offset <= |payload| && payload[offset..] == Encode(labels, rest)
    ensures Labels(payload, offset) == labels
    decreases labels
  {
    if labels == [] {
      ReadNone(payload, offset);
    } else {
      var part, others := labels[0], labels[1..];
      HeadTail(labels);
      EncodeStep(labels, rest);
      LabelStep(payload, offset, part, Encode(others, rest));
      ReadOne(payload, offset, part);
      LabelsRoundTrip(payload, offset + 1 + |part|, others, rest);
    }
  }

  /** And on any bytes: what is read are labels that stand there one after the other, up to
      where no label begins. */
  lemma {:induction false} LabelsStand(payload: seq<Byte>, offset: nat) returns (rest: seq<Byte>)
    requires offset <= |payload|
    ensures LabelsOk(Labels(payload, offset)) && NoLabel(rest)
    ensures payload[offset..] == Encode(Labels(payload, offset), rest)
    decreases |payload| - offset
  {
    var labels := Labels(payload, offset);
    if labels == [] {
      rest := payload[offset..];
      assert rest != [] ==> rest[0] == payload[offset];
    } else {
      var n := payload[offset];
      rest := LabelsStand(payload, offset + 1 + n);
      assert labels[1..] == Labels(payload, offset + 1 + n);
      assert payload[offset..] == [n] + (payload[offset + 1..offset + 1 + n] + payload[offset + 1 + n..]);
    }
  }

  /** A query name: the header, the labels, a zero, and what follows. */
  lemma NameRoundTrip(header: seq<Byte>, labels: seq<seq<Byte>>, rest: seq<Byte>)
    requires |header| == 12 && LabelsOk(labels)
    ensures var payload := header + Encode(labels, [0] + rest);
            |payload| >= 13 && Labels(payload, HEADER) == labels
  {
    var payload := header + Encode(labels, [0] + rest);
    assert payload[HEADER..] == Encode(labels, [0] + rest);
    LabelsRoundTrip(payload, HEADER, labels, [0] + rest);
  }
}
