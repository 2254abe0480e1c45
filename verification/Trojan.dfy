/** The Trojan analyzer's stream: lengths of the first runs of same-direction data after
    the client's ChangeCipherSpec. The decision tree over the four lengths is a parameter. */
module Trojan {
  import opened Entries
  import opened Options
  import opened Rulesets
  import opened Folds
  import TcpStreams

  datatype Piece = Piece(rev: bool, data: Bytes)

  const CCS: Bytes := [20, 3, 3, 0, 1, 1]

  predicate IsCCS(p: Piece) {
    !p.rev && |p.data| >= 6 && p.data[..6] == CCS
  }

  /** The pieces from the first ChangeCipherSpec on; empty pieces count for nothing. */
  function Counted(ps: seq<Piece>): seq<Piece> {
    if ps == [] then []
    else
      var before, last := Counted(ps[..|ps| - 1]), ps[|ps| - 1];
      if |last.data| == 0 || (before == [] && !IsCCS(last)) then before else before + [last]
  }

  /** The client's data begins with the record that announces encryption: content type 20,
      version 3.3, length 1, body 1 (section 7.1 of RFC 5246). */
  predicate BeginsEncryption(p: Piece) {
    && !p.rev && |p.data| >= 6
    && p.data[0] == 20
    && p.data[1] == 3 && p.data[2] == 3
    && p.data[3] as int * 256 + p.data[4] as int == 1
    && p.data[5] == 1
  }

  lemma CcsIs(p: Piece)
    ensures IsCCS(p) <==> BeginsEncryption(p)
  {
    if |p.data| >= 6 {
      var six := p.data[..6];
      assert six == CCS <==> forall i :: 0 <= i < 6 ==> six[i] == CCS[i];
      assert six[0] == p.data[0] && six[1] == p.data[1] && six[2] == p.data[2] && six[3] == p.data[3]
          && six[4] == p.data[4] && six[5] == p.data[5];
      assert CCS[0] == 20 && CCS[1] == 3 && CCS[2] == 3 && CCS[3] == 0 && CCS[4] == 1 && CCS[5] == 1;
    }
  }

  datatype Stretch = Stretch(rev: bool, length: nat)

  function Extend(rs: seq<Stretch>, p: Piece): seq<Stretch> {
    if rs != [] && rs[|rs| - 1].rev == p.rev
    then rs[..|rs| - 1] + [Stretch(p.rev, rs[|rs| - 1].length + |p.data|)]
    else rs + [Stretch(p.rev, |p.data|)]
  }

  /** The maximal same-direction stretches of a piece sequence, with their lengths. */
  function Stretches(ps: seq<Piece>): seq<Stretch> {
    Fold(Extend, [], ps)
  }

  function TotalLength(ps: seq<Piece>): nat {
    if ps == [] then 0 else TotalLength(ps[..|ps| - 1]) + |ps[|ps| - 1].data|
  }

  function Sum(rs: seq<Stretch>): nat {
    if rs == [] then 0 else Sum(rs[..|rs| - 1]) + rs[|rs| - 1].length
  }

  /** Neighbours differ in direction. */
  ghost predicate Alternating(rs: seq<Stretch>) {
    forall i :: 0 < i < |rs| ==> rs[i].rev != rs[i - 1].rev
  }

  lemma SumSnoc(rs: seq<Stretch>, r: Stretch)
    ensures Sum(rs + [r]) == Sum(rs) + r.length
  {
    assert (rs + [r])[..|rs|] == rs;
  }

  lemma ExtendAlternates(rs: seq<Stretch>, p: Piece)
    requires Alternating(rs)
    ensures Alternating(Extend(rs, p)) && Extend(rs, p) != [] && Extend(rs, p)[|Extend(rs, p)| - 1].rev == p.rev
    ensures Extend(rs, p)[0].rev == if rs == [] then p.rev else rs[0].rev
  {}

  lemma ExtendAdds(rs: seq<Stretch>, p: Piece)
    ensures Sum(Extend(rs, p)) == Sum(rs) + |p.data|
  {
    if rs != [] && rs[|rs| - 1].rev == p.rev {
      SumSnoc(rs[..|rs| - 1], Stretch(p.rev, rs[|rs| - 1].length + |p.data|));
    } else {
      SumSnoc(rs, Stretch(p.rev, |p.data|));
    }
  }

  /** Maximal: neighbouring stretches alternate. Complete: the lengths add up to the data. */
  lemma {:induction false} StretchesAreMaximal(ps: seq<Piece>)
    ensures Alternating(Stretches(ps)) && Sum(Stretches(ps)) == TotalLength(ps)
    ensures ps != [] ==>
      && Stretches(ps) != [] && Stretches(ps)[0].rev == ps[0].rev
      && Stretches(ps)[|Stretches(ps)| - 1].rev == ps[|ps| - 1].rev
  {
    if ps != [] {
      var n := |ps| - 1;
      StretchesAreMaximal(ps[..n]);
      ExtendAlternates(Stretches(ps[..n]), ps[n]);
      ExtendAdds(Stretches(ps[..n]), ps[n]);
      if n == 0 {
        assert Stretches(ps[..0]) == [];
      }
    }
  }

  lemma StretchesSnoc(ps: seq<Piece>, p: Piece)
    ensures Stretches(ps + [p]) == Extend(Stretches(ps), p)
  {
    FoldSnoc(Extend, [], ps, p);
  }

  lemma CountedSnoc(ps: seq<Piece>, p: Piece)
    ensures Counted(ps + [p])
         == if |p.data| == 0 || (Counted(ps) == [] && !IsCCS(p)) then Counted(ps) else Counted(ps) + [p]
  {
    assert (ps + [p])[..|ps|] == ps;
  }

  /** How data of one direction is cut into pieces makes no difference. */
  lemma SplitsDoNotMatter(before: seq<Piece>, rev: bool, x: Bytes, y: Bytes, after: seq<Piece>)
    ensures Stretches(before + [Piece(rev, x + y)] + after) == Stretches(before + [Piece(rev, x), Piece(rev, y)] + after)
  {
    var whole, cut := before + [Piece(rev, x + y)], before + [Piece(rev, x), Piece(rev, y)];
    FoldConcat(Extend, [], whole, after);
    FoldConcat(Extend, [], cut, after);
    assert cut == before + [Piece(rev, x)] + [Piece(rev, y)];
    StretchesSnoc(before, Piece(rev, x + y));
    StretchesSnoc(before, Piece(rev, x));
    StretchesSnoc(before + [Piece(rev, x)], Piece(rev, y));
    SplitExtend(Stretches(before), rev, x, y);
  }

  lemma ExtendOpen(front: seq<Stretch>, open: Stretch, data: Bytes)
    ensures Extend(front + [open], Piece(open.rev, data)) == front + [Stretch(open.rev, open.length + |data|)]
  {
    assert (front + [open])[..|front|] == front;
  }

  lemma SplitExtend(rs: seq<Stretch>, rev: bool, x: Bytes, y: Bytes)
    ensures Extend(rs, Piece(rev, x + y)) == Extend(Extend(rs, Piece(rev, x)), Piece(rev, y))
  {
    if rs != [] && rs[|rs| - 1].rev == rev {
      var front, last := rs[..|rs| - 1], rs[|rs| - 1];
      assert rs == front + [last];
      ExtendOpen(front, last, x);
      ExtendOpen(front, last, x + y);
      ExtendOpen(front, Stretch(rev, last.length + |x|), y);
    } else {
      ExtendOpen(rs, Stretch(rev, |x|), y);
    }
  }

  function NonEmpty(ps: seq<Piece>): seq<Piece> {
    if ps == [] then []
    else NonEmpty(ps[..|ps| - 1]) + if |ps[|ps| - 1].data| == 0 then [] else [ps[|ps| - 1]]
  }

  /** No piece begins the encryption. */
  ghost predicate NoneBegins(ps: seq<Piece>) {
    forall i :: 0 <= i < |ps| ==> !BeginsEncryption(ps[i])
  }

  lemma {:induction false} CountsNothing(ps: seq<Piece>)
    requires NoneBegins(ps)
    ensures Counted(ps) == []
  {
    if ps != [] {
      CountsNothing(ps[..|ps| - 1]);
      CcsIs(ps[|ps| - 1]);
    }
  }

  lemma BeginsCounting(ps: seq<Piece>, p: Piece)
    requires NoneBegins(ps) && BeginsEncryption(p)
    ensures Counted(ps + [p]) == [p]
  {
    CountsNothing(ps);
    CcsIs(p);
    CountedSnoc(ps, p);
  }

  /** Once counting has begun every piece with data counts. */
  lemma {:induction false} CountedAfter(before: seq<Piece>, after: seq<Piece>)
    requires Counted(before) != []
    ensures Counted(before + after) == Counted(before) + NonEmpty(after)
  {
    if after == [] {
      assert before + after == before;
    } else {
      var n := |after| - 1;
      assert before + after == before + after[..n] + [after[n]];
      CountedSnoc(before + after[..n], after[n]);
      CountedAfter(before, after[..n]);
    }
  }

  /** Counting begins at the first piece of the client's that begins the encryption, and takes
      every piece with data from there on; without such a piece nothing counts. */
  lemma CountingBegins(before: seq<Piece>, p: Piece, after: seq<Piece>)
    requires NoneBegins(before)
    ensures Counted(before) == []
    ensures BeginsEncryption(p) ==> Counted(before + [p] + after) == [p] + NonEmpty(after)
  {
    CountsNothing(before);
    if BeginsEncryption(p) {
      BeginsCounting(before, p);
      CountedAfter(before + [p], after);
    }
  }

  /** A piece cut into single bytes, each with its direction. */
  function Bytewise(p: Piece): seq<Piece> {
    seq(|p.data|, i requires 0 <= i < |p.data| => Piece(p.rev, [p.data[i]]))
  }

  /** All the data of some pieces, byte by byte: what does not depend on how it was cut. */
  function Tagged(ps: seq<Piece>): seq<Piece> {
    if ps == [] then [] else Tagged(ps[..|ps| - 1]) + Bytewise(ps[|ps| - 1])
  }

  lemma BytewiseSnoc(rev: bool, x: Bytes, y: bv8)
    ensures Bytewise(Piece(rev, x + [y])) == Bytewise(Piece(rev, x)) + [Piece(rev, [y])]
  {}

  lemma {:induction false} ExtendBytewise(rs: seq<Stretch>, rev: bool, x: Bytes, y: bv8)
    ensures Fold(Extend, rs, Bytewise(Piece(rev, x + [y]))) == Extend(rs, Piece(rev, x + [y]))
    decreases |x|
  {
    BytewiseSnoc(rev, x, y);
    FoldSnoc(Extend, rs, Bytewise(Piece(rev, x)), Piece(rev, [y]));
    if x == [] {
      assert x + [y] == [y];
      assert Bytewise(Piece(rev, x)) == [];
    } else {
      var n := |x| - 1;
      assert x == x[..n] + [x[n]];
      ExtendBytewise(rs, rev, x[..n], x[n]);
      SplitExtend(rs, rev, x, [y]);
    }
  }

  lemma FoldPiece(rs: seq<Stretch>, p: Piece)
    ensures Fold(Extend, rs, Bytewise(p)) == if p.data == [] then rs else Extend(rs, p)
  {
    if p.data == [] {
      assert Bytewise(p) == [];
    } else {
      var k := |p.data| - 1;
      assert p.data == p.data[..k] + [p.data[k]];
      ExtendBytewise(rs, p.rev, p.data[..k], p.data[k]);
    }
  }

  lemma {:induction false} FoldTagged(rs: seq<Stretch>, ps: seq<Piece>)
    ensures Fold(Extend, rs, Tagged(ps)) == Fold(Extend, rs, NonEmpty(ps))
  {
    if ps != [] {
      var n := |ps| - 1;
      var front := ps[..n];
      FoldTagged(rs, front);
      FoldConcat(Extend, rs, Tagged(front), Bytewise(ps[n]));
      FoldPiece(Fold(Extend, rs, Tagged(front)), ps[n]);
      assert NonEmpty(ps) == NonEmpty(front) + if |ps[n].data| == 0 then [] else [ps[n]];
      if |ps[n].data| == 0 {
        assert NonEmpty(ps) == NonEmpty(front);
      } else {
        FoldSnoc(Extend, rs, NonEmpty(front), ps[n]);
      }
    }
  }

  /** So, after the ChangeCipherSpec, the stretches do not depend on how the data is cut into
      pieces: the same bytes in the same directions give the same stretches. */
  lemma CutsAfterCcsDoNotMatter(before: seq<Piece>, a: seq<Piece>, b: seq<Piece>)
    requires Counted(before) != [] && Tagged(a) == Tagged(b)
    ensures Stretches(Counted(before + a)) == Stretches(Counted(before + b))
  {
    var c := Counted(before);
    CountedAfter(before, a);
    CountedAfter(before, b);
    FoldConcat(Extend, [], c, NonEmpty(a));
    FoldConcat(Extend, [], c, NonEmpty(b));
    FoldTagged(Stretches(c), a);
    FoldTagged(Stretches(c), b);
  }

  datatype Report = Report(seq4: seq<nat>, yes: bool)

  function FirstFour(rs: seq<Stretch>): seq<nat>
    requires |rs| >= 4
  {
    [rs[0].length, rs[1].length, rs[2].length, rs[3].length]
  }

  /** The stream object: a four-slot buffer of lengths and the index of the open one. */
  class TrojanStream {
    var count: bool
    var rev: bool
    var lengths: array<nat>
    var index: nat
    ghost var fed: seq<Piece>

    ghost predicate Slots(rs: seq<Stretch>) reads this, lengths {
      && lengths.Length == 4 && |rs| <= 4
      && index == (if rs == [] then 0 else |rs| - 1)
      && rev == (rs != [] && rs[|rs| - 1].rev)
      && (forall i :: 0 <= i < 4 ==> lengths[i] == if i < |rs| then rs[i].length else 0)
    }

    /** In terms of all the data fed so far: the slots hold the stretches' lengths. */
    ghost predicate Valid() reads this, lengths {
      && Slots(Stretches(Counted(fed)))
      && count == (Counted(fed) != [])
    }

    constructor ()
      ensures Valid() && fed == [] && fresh(lengths)
    {
      count, rev, index, fed := false, false, 0, [];
      lengths := new nat[4](_ => 0);
    }

    method Tally(rev: bool, data: Bytes, isTrojanSeq: seq<nat> -> bool, ghost rs: seq<Stretch>) returns (u: Option<Report>, done: bool)
      requires Slots(rs) && (rs == [] ==> !rev)
      modifies this`index, this`rev, lengths
      ensures done <==> |Extend(rs, Piece(rev, data))| == 5
      ensures !done ==> Slots(Extend(rs, Piece(rev, data))) && u == None
      ensures done ==> |rs| == 4 && u == Some(Report(FirstFour(rs), isTrojanSeq(FirstFour(rs))))
    {
      if rev == this.rev {
        lengths[index] := lengths[index] + |data|;
      } else {
        index := index + 1;
        if index == 4 {
          var ns := [lengths[0], lengths[1], lengths[2], lengths[3]];
          return Some(Report(ns, isTrojanSeq(ns))), true;
        }
        lengths[index] := lengths[index] + |data|;
        this.rev := rev;
      }
      return None, false;
    }

    /** Done on a gap, or when a fifth stretch begins; then it reports the lengths of the
        first four. Otherwise it stays valid, with the index inside the buffer. */
    method Feed(rev: bool, skip: int, data: Bytes, isTrojanSeq: seq<nat> -> bool) returns (u: Option<Report>, done: bool)
      requires Valid()
      modifies this, lengths
      ensures lengths == old(lengths) && fed == old(fed) + [Piece(rev, data)]
      ensures done <==> skip != 0 || |Stretches(Counted(fed))| == 5
      ensures !done ==> Valid() && u == None
      ensures skip != 0 ==> u == None
      ensures done && skip == 0 ==>
        var rs := Stretches(Counted(old(fed)));
        |rs| == 4 && u == Some(Report(FirstFour(rs), isTrojanSeq(FirstFour(rs))))
    {
      fed := fed + [Piece(rev, data)];
      CountedSnoc(old(fed), Piece(rev, data));
      if skip != 0 {
        return None, true;
      }
      if |data| == 0 {
        return None, false;
      }
      if !rev && !count && |data| >= 6 && data[..6] == CCS {
        count := true;
      }
      if count {
        StretchesSnoc(Counted(old(fed)), Piece(rev, data));
        u, done := Tally(rev, data, isTrojanSeq, Stretches(Counted(old(fed))));
        return;
      }
      return None, false;
    }
  }

  // ---- The analyzer attached to an intercepted TCP stream ----

  function Pieces(calls: seq<Call>): seq<Piece> {
    if calls == [] then []
    else
      var last := calls[|calls| - 1];
      Pieces(calls[..|calls| - 1]) + (if last.Feed? then [Piece(last.chunk.rev, last.chunk.data)] else [])
  }

  /** A behaviour that, used as the streams use it, reports done as TrojanStream.Feed does. */
  ghost predicate IsTrojan(b: Behaviour) {
    forall calls: seq<Call> :: Legal(b, calls) && calls != [] && calls[|calls| - 1].Feed? ==>
      (b(calls).done <==> calls[|calls| - 1].chunk.skip != 0 || |Stretches(Counted(Pieces(calls)))| >= 5)
  }

  /** Whatever was fed before call k began at most four stretches: TrojanStream is valid
      when call k reaches it, with its index inside the four slots. */
  ghost predicate IndexInBuffer(calls: seq<Call>) {
    forall k :: 0 <= k < |calls| && calls[k].Feed? ==> |Stretches(Counted(Pieces(calls[..k])))| <= 4
  }

  lemma PrefixIsLegal(b: Behaviour, calls: seq<Call>, k: nat)
    requires Legal(b, calls) && k <= |calls|
    ensures Legal(b, calls[..k])
  {
    var h := calls[..k];
    forall i | 0 <= i < k - 1
      ensures h[i].Feed?
    {
      assert h[i] == calls[i] && h[i + 1] == calls[i + 1];
    }
    forall i, j | 0 <= i < j < k
      ensures h[i].Feed? && (h[j].Feed? ==> !b(h[..i + 1]).done)
    {
      assert h[i] == calls[i] && h[j] == calls[j] && h[..i + 1] == calls[..i + 1];
    }
  }

  lemma NotDoneBefore(b: Behaviour, calls: seq<Call>, k: nat)
    requires Legal(b, calls) && 0 < k < |calls| && calls[k].Feed?
    ensures calls[..k][k - 1].Feed? && !b(calls[..k]).done
  {
    assert calls[k - 1].Feed? && calls[..k - 1 + 1] == calls[..k];
  }

  lemma FourBefore(b: Behaviour, calls: seq<Call>, k: nat)
    requires IsTrojan(b) && Legal(b, calls) && k < |calls| && calls[k].Feed?
    ensures |Stretches(Counted(Pieces(calls[..k])))| <= 4
  {
    if k == 0 {
      assert calls[..k] == [];
      assert Stretches([]) == [];
    } else {
      NotDoneBefore(b, calls, k);
      PrefixIsLegal(b, calls, k);
    }
  }

  lemma LegalUseStaysInBuffer(b: Behaviour, calls: seq<Call>)
    requires IsTrojan(b) && Legal(b, calls)
    ensures IndexInBuffer(calls)
  {
    forall k | 0 <= k < |calls| && calls[k].Feed?
      ensures |Stretches(Counted(Pieces(calls[..k])))| <= 4
    {
      FourBefore(b, calls, k);
    }
  }

  /** In every run of every TCP stream, no attached Trojan analyzer leaves its buffer. */
  lemma NeverLeavesBuffer(rules: seq<Rule>, info: StreamInfo, created: seq<Entry>, packets: seq<Option<Chunk>>, i: nat)
    requires Unused(created)
    ensures var s := TcpStreams.Run(rules, info, created, packets).state;
      && (i < |s.active| && IsTrojan(s.active[i].behaviour) ==> IndexInBuffer(s.active[i].calls))
      && (i < |s.finished| && IsTrojan(s.finished[i].behaviour) ==> IndexInBuffer(s.finished[i].calls))
  {
    TcpStreams.RunKeepsEntries(rules, info, created, packets);
    var t := TcpStreams.Run(rules, info, created, packets);
    if i < |t.state.active| && IsTrojan(t.state.active[i].behaviour) {
      var e := t.state.active[i];
      assert ActiveOk(true, e, t.fed);
      LiveIsLegal(e.behaviour, e.calls);
      LegalUseStaysInBuffer(e.behaviour, e.calls);
    }
    if i < |t.state.finished| && IsTrojan(t.state.finished[i].behaviour) {
      var e := t.state.finished[i];
      assert FinishedOk(true, e, t.fed);
      LegalUseStaysInBuffer(e.behaviour, e.calls);
    }
  }

  lemma LiveIsLegal(b: Behaviour, calls: seq<Call>)
    requires Live(b, calls)
    ensures Legal(b, calls)
  {
    forall i, j | 0 <= i < j < |calls|
      ensures calls[i].Feed? && (calls[j].Feed? ==> !b(calls[..i + 1]).done)
    {
      assert calls[i].Feed? && !b(calls[..i + 1]).done;
    }
  }
}
