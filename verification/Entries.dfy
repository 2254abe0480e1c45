/** Analyzer entries of an intercepted stream: what TCP and UDP streams share.

  An analyzer is a black box. Its state is the sequence of calls made to it, so a
  behaviour is any function from that history to the answer of its last call. */
module Entries {

  type Bytes = seq<bv8>
  type PropMap = map<string, string>
  type Props = map<string, PropMap>

  /** An analyzer's report; a nil report and PropUpdateNone are both NoUpdate. */
  datatype Update = NoUpdate | Merge(m: PropMap) | Replace(m: PropMap) | Delete

  function Apply(props: Props, name: string, u: Update): Props {
    match u
    case NoUpdate => props
    case Merge(m) => props[name := (if name in props then props[name] else map[]) + m]
    case Replace(m) => props[name := m]
    case Delete => props - {name}
  }

  datatype Chunk = Chunk(rev: bool, start: bool, end: bool, skip: int, data: Bytes)

  datatype Call = Feed(chunk: Chunk) | Close(limited: bool)

  datatype Response = Response(update: Update, done: bool)

  type Behaviour = seq<Call> -> Response

  /** One analyzer attached to a stream. A limit of zero or less means no limit. */
  datatype Entry = Entry(name: string, limit: int, quota: int, behaviour: Behaviour, calls: seq<Call>) {

    function Invoke(call: Call): (Entry, Response) {
      var history := calls + [call];
      (this.(calls := history), behaviour(history))
    }

    /** A limited entry still has quota left, so cutting data to it is in bounds. */
    predicate Open() {
      limit > 0 ==> quota > 0
    }

    function Fresh(): Entry {
      Entry(name, limit, limit, behaviour, [])
    }
  }

  datatype FeedResult = FeedResult(entry: Entry, update: Update, closeUpdate: Update, done: bool) {
    predicate Updates() {
      !update.NoUpdate? || !closeUpdate.NoUpdate?
    }
  }

  /** What one entry is fed: TCP cuts the data to the quota, UDP does not. Cutting to a
      negative quota would crash the program; no run gets there, as ActiveOk says. */
  function Offered(cut: bool, e: Entry, c: Chunk): Chunk {
    if cut && e.limit > 0 && |c.data| > e.quota
    then c.(data := if e.quota < 0 then [] else c.data[..e.quota])
    else c
  }

  function FeedEntry(cut: bool, e: Entry, c: Chunk): FeedResult {
    var q := Offered(cut, e, c);
    var (e1, r) := e.Invoke(Feed(q));
    if e.limit <= 0 then
      FeedResult(e1, r.update, NoUpdate, r.done)
    else
      var e2 := e1.(quota := e.quota - |q.data|);
      if e2.quota <= 0 then
        var (e3, r3) := e2.Invoke(Close(true));
        FeedResult(e3, r.update, r3.update, true)
      else
        FeedResult(e2, r.update, NoUpdate, r.done)
  }

  /** The entries that stay active after a chunk, in their order. */
  function Survivors(cut: bool, es: seq<Entry>, c: Chunk): seq<Entry> {
    if |es| == 0 then [] else
      var r := FeedEntry(cut, es[0], c);
      (if r.done then [] else [r.entry]) + Survivors(cut, es[1..], c)
  }

  /** The entries a chunk finishes; the feeding loop meets the last entry first. */
  function Leavers(cut: bool, es: seq<Entry>, c: Chunk): seq<Entry> {
    if |es| == 0 then [] else
      var r := FeedEntry(cut, es[0], c);
      Leavers(cut, es[1..], c) + (if r.done then [r.entry] else [])
  }

  function PropsAfter(cut: bool, es: seq<Entry>, c: Chunk, props: Props): Props {
    if |es| == 0 then props else
      var r := FeedEntry(cut, es[0], c);
      Apply(Apply(PropsAfter(cut, es[1..], c, props), es[0].name, r.update), es[0].name, r.closeUpdate)
  }

  predicate AnyUpdate(cut: bool, es: seq<Entry>, c: Chunk) {
    |es| != 0 && (FeedEntry(cut, es[0], c).Updates() || AnyUpdate(cut, es[1..], c))
  }

  /** Writing back a fed entry, and taking a finished one out, in front of the turned part. */
  lemma WriteBack(es: seq<Entry>, i: nat, rest: seq<Entry>, e: Entry)
    requires i < |es|
    ensures var list := es[..i + 1] + rest;
            && list[i] == es[i]
            && list[i := e] == es[..i] + ([e] + rest)
            && list[i := e][..i] + list[i := e][i + 1..] == es[..i] + ([] + rest)
  {
    var list := es[..i + 1] + rest;
    assert list[i := e][i + 1..] == rest;
    assert list[i := e][..i] == es[..i];
  }

  lemma AddLast(before: seq<Entry>, gone: seq<Entry>, e: Entry)
    ensures before + gone + [e] == before + (gone + [e])
    ensures gone + [] == gone
  {}

  /** One turn of the feeding loop, which meets the last entry first. */
  lemma OneTurn(cut: bool, es: seq<Entry>, i: nat, c: Chunk, props: Props)
    requires i < |es|
    ensures var r := FeedEntry(cut, es[i], c);
            && Survivors(cut, es[i..], c) == (if r.done then [] else [r.entry]) + Survivors(cut, es[i + 1..], c)
            && Leavers(cut, es[i..], c) == Leavers(cut, es[i + 1..], c) + (if r.done then [r.entry] else [])
            && PropsAfter(cut, es[i..], c, props)
               == Apply(Apply(PropsAfter(cut, es[i + 1..], c, props), es[i].name, r.update), es[i].name, r.closeUpdate)
            && AnyUpdate(cut, es[i..], c) == (r.Updates() || AnyUpdate(cut, es[i + 1..], c))
  {
    assert es[i..][0] == es[i] && es[i..][1..] == es[i + 1..];
  }

  function CloseEntry(e: Entry): (Entry, Response) {
    e.Invoke(Close(false))
  }

  function CloseAll(es: seq<Entry>): (r: seq<Entry>)
    ensures |r| == |es|
    ensures forall i :: 0 <= i < |es| ==> r[i] == CloseEntry(es[i]).0
  {
    seq(|es|, i requires 0 <= i < |es| => CloseEntry(es[i]).0)
  }

  function PropsAfterClose(es: seq<Entry>, props: Props): Props {
    if |es| == 0 then props else
      var last := |es| - 1;
      Apply(PropsAfterClose(es[..last], props), es[last].name, CloseEntry(es[last]).1.update)
  }

  // ---- Typestate and quota of an analyzer, read off its call history ----

  /** Nothing follows a Close, and no Feed follows an answer of done. */
  ghost predicate Legal(behaviour: Behaviour, calls: seq<Call>) {
    forall i, j :: 0 <= i < j < |calls| ==>
      calls[i].Feed? && (calls[j].Feed? ==> !behaviour(calls[..i + 1]).done)
  }

  /** Only fed so far, and it has never reported done. */
  ghost predicate Live(behaviour: Behaviour, calls: seq<Call>) {
    forall i :: 0 <= i < |calls| ==> calls[i].Feed? && !behaviour(calls[..i + 1]).done
  }

  function FedBytes(calls: seq<Call>): nat {
    if |calls| == 0 then 0 else
      var last := calls[|calls| - 1];
      FedBytes(calls[..|calls| - 1]) + (if last.Feed? then |last.chunk.data| else 0)
  }

  /** Call number k is chunk number k, perhaps cut short: every chunk once and in order. */
  ghost predicate FollowsChunks(e: Entry, chunks: seq<Chunk>) {
    forall k :: 0 <= k < |e.calls| && e.calls[k].Feed? ==>
      k < |chunks| && e.calls[k].chunk.data <= chunks[k].data
      && e.calls[k].chunk == chunks[k].(data := e.calls[k].chunk.data)
  }

  /** The quota books balance, and each feed found the limit not yet reached. */
  ghost predicate Budgeted(cut: bool, e: Entry) {
    e.limit > 0 ==>
      && FedBytes(e.calls) + e.quota == e.limit
      && (cut ==> FedBytes(e.calls) <= e.limit)
      && forall k :: 0 <= k < |e.calls| && e.calls[k].Feed? ==> FedBytes(e.calls[..k]) < e.limit
  }

  function Feeds(chunks: seq<Chunk>): seq<Call> {
    seq(|chunks|, i requires 0 <= i < |chunks| => Feed(chunks[i]))
  }

  /** An active entry has been fed every chunk of the stream, whole, and nothing else. */
  ghost predicate ActiveOk(cut: bool, e: Entry, chunks: seq<Chunk>) {
    Live(e.behaviour, e.calls) && e.Open() && Budgeted(cut, e) && e.calls == Feeds(chunks)
  }

  /** A finished entry kept the protocol, and its story is over: done or closed. */
  ghost predicate FinishedOk(cut: bool, e: Entry, chunks: seq<Chunk>) {
    && Legal(e.behaviour, e.calls) && Budgeted(cut, e) && FollowsChunks(e, chunks)
    && e.calls != []
    && (e.calls[|e.calls| - 1].Close? || e.behaviour(e.calls).done)
  }

  ghost predicate AllActive(cut: bool, es: seq<Entry>, chunks: seq<Chunk>)
  {
    forall i :: 0 <= i < |es| ==> ActiveOk(cut, es[i], chunks)
  }

  ghost predicate AllFinished(cut: bool, es: seq<Entry>, chunks: seq<Chunk>) {
    forall i :: 0 <= i < |es| ==> FinishedOk(cut, es[i], chunks)
  }

  function Origins(es: seq<Entry>): seq<Entry> {
    seq(|es|, i requires 0 <= i < |es| => es[i].Fresh())
  }

  /** The stream's two lists against the entries it was created with and the chunks
      delivered to it so far. */
  ghost predicate EntriesOk(cut: bool, created: seq<Entry>, chunks: seq<Chunk>,
                            active: seq<Entry>, finished: seq<Entry>)
  {
    && AllActive(cut, active, chunks)
    && AllFinished(cut, finished, chunks)
    && multiset(Origins(active + finished)) == multiset(created)
  }

  ghost predicate Unused(es: seq<Entry>) {
    forall i :: 0 <= i < |es| ==> es[i].quota == es[i].limit && es[i].calls == []
  }

  lemma FreshEntriesOk(cut: bool, created: seq<Entry>)
    requires Unused(created)
    ensures EntriesOk(cut, created, [], created, [])
  {
    assert Origins(created + []) == created;
  }

  lemma OriginsConcat(a: seq<Entry>, b: seq<Entry>)
    ensures multiset(Origins(a + b)) == multiset(Origins(a)) + multiset(Origins(b))
  {
    assert Origins(a + b) == Origins(a) + Origins(b);
  }

  lemma PrefixOfAppended(calls: seq<Call>, call: Call, k: nat)
    requires k <= |calls|
    ensures (calls + [call])[..k] == calls[..k]
  {}

  /** A live entry may be called once more; a close may follow any feed of it. */
  lemma CallLive(behaviour: Behaviour, calls: seq<Call>, call: Call)
    requires Live(behaviour, calls)
    ensures Legal(behaviour, calls + [call])
    ensures call.Feed? && !behaviour(calls + [call]).done ==> Live(behaviour, calls + [call])
    ensures call.Feed? ==> Legal(behaviour, calls + [call] + [Close(true)])
  {
    var once := calls + [call];
    var twice := once + [Close(true)];
    assert once[..|once|] == once;
    forall k: nat | k <= |calls|
      ensures once[..k] == calls[..k] == twice[..k]
    {
      PrefixOfAppended(calls, call, k);
      PrefixOfAppended(once, Close(true), k);
    }
  }

  lemma FedBytesSnoc(calls: seq<Call>, call: Call)
    ensures FedBytes(calls + [call]) == FedBytes(calls) + if call.Feed? then |call.chunk.data| else 0
  {
    assert (calls + [call])[..|calls|] == calls;
  }

  lemma CallBudget(cut: bool, e: Entry, call: Call, quota: int)
    requires Budgeted(cut, e) && e.limit > 0 && (call.Feed? ==> e.quota > 0 && (cut ==> |call.chunk.data| <= e.quota))
    requires quota == e.quota - if call.Feed? then |call.chunk.data| else 0
    ensures Budgeted(cut, e.(calls := e.calls + [call], quota := quota))
  {
    var calls := e.calls + [call];
    FedBytesSnoc(e.calls, call);
    forall k | 0 <= k < |calls| && calls[k].Feed?
      ensures FedBytes(calls[..k]) < e.limit
    {
      PrefixOfAppended(e.calls, call, k);
      if k == |e.calls| {
        assert e.calls[..k] == e.calls;
      } else {
        assert calls[k] == e.calls[k];
      }
    }
  }

  /** The quota after one more feed of a budgeted entry, and after a close on top. */
  lemma FeedBudget(cut: bool, e: Entry, c: Chunk)
    requires Budgeted(cut, e) && e.Open()
    ensures Budgeted(cut, FeedEntry(cut, e, c).entry)
  {
    if e.limit > 0 {
      var q := Offered(cut, e, c);
      var quota := e.quota - |q.data|;
      CallBudget(cut, e, Feed(q), quota);
      CallBudget(cut, e.(calls := e.calls + [Feed(q)], quota := quota), Close(true), quota);
    }
  }

  /** The calls of a fed entry still line up with the chunks. */
  lemma FeedFollows(cut: bool, e: Entry, c: Chunk, chunks: seq<Chunk>)
    requires e.Open() && e.calls == Feeds(chunks)
    ensures FollowsChunks(FeedEntry(cut, e, c).entry, chunks + [c])
  {}

  /** One feed: a live entry stays live and whole, or becomes finished. */
  lemma FeedKeeps(cut: bool, e: Entry, c: Chunk, chunks: seq<Chunk>)
    requires ActiveOk(cut, e, chunks)
    ensures FeedEntry(cut, e, c).entry.Fresh() == e.Fresh()
    ensures !FeedEntry(cut, e, c).done ==> ActiveOk(cut, FeedEntry(cut, e, c).entry, chunks + [c])
    ensures FeedEntry(cut, e, c).done ==> FinishedOk(cut, FeedEntry(cut, e, c).entry, chunks + [c])
  {
    CallLive(e.behaviour, e.calls, Feed(Offered(cut, e, c)));
    FeedBudget(cut, e, c);
    FeedFollows(cut, e, c, chunks);
    assert Feeds(chunks + [c]) == Feeds(chunks) + [Feed(c)];
  }

  lemma CloseBudget(cut: bool, e: Entry)
    requires Budgeted(cut, e)
    ensures Budgeted(cut, CloseEntry(e).0)
  {
    if e.limit > 0 {
      CallBudget(cut, e, Close(false), e.quota);
    }
  }

  lemma CloseFollows(e: Entry, chunks: seq<Chunk>)
    requires e.calls == Feeds(chunks)
    ensures FollowsChunks(CloseEntry(e).0, chunks)
  {
    var calls := e.calls + [Close(false)];
    forall k | 0 <= k < |calls| && calls[k].Feed?
      ensures k < |chunks| && calls[k] == Feed(chunks[k])
    {}
  }

  /** Closing a live entry finishes it. */
  lemma CloseKeeps(cut: bool, e: Entry, chunks: seq<Chunk>)
    requires ActiveOk(cut, e, chunks)
    ensures CloseEntry(e).0.Fresh() == e.Fresh()
    ensures FinishedOk(cut, CloseEntry(e).0, chunks)
  {
    CallLive(e.behaviour, e.calls, Close(false));
    CloseBudget(cut, e);
    CloseFollows(e, chunks);
    assert CloseEntry(e).0.calls[|e.calls|] == Close(false);
  }

  /** A chunk given to every active entry keeps the two lists right. */
  lemma {:induction false} FeedAllKeeps(cut: bool, es: seq<Entry>, c: Chunk, chunks: seq<Chunk>)
    requires AllActive(cut, es, chunks)
    ensures AllActive(cut, Survivors(cut, es, c), chunks + [c])
    ensures AllFinished(cut, Leavers(cut, es, c), chunks + [c])
  {
    if es != [] {
      FeedKeeps(cut, es[0], c, chunks);
      FeedAllKeeps(cut, es[1..], c, chunks);
    }
  }

  lemma OriginsOne(e: Entry, es: seq<Entry>)
    ensures multiset(Origins([e] + es)) == multiset{e.Fresh()} + multiset(Origins(es))
    ensures multiset(Origins(es + [e])) == multiset{e.Fresh()} + multiset(Origins(es))
  {
    assert Origins([e] + es) == [e.Fresh()] + Origins(es);
    assert Origins(es + [e]) == Origins(es) + [e.Fresh()];
  }

  lemma OriginsFirst(es: seq<Entry>)
    requires |es| != 0
    ensures multiset(Origins(es)) == multiset{es[0].Fresh()} + multiset(Origins(es[1..]))
  {
    assert es == [es[0]] + es[1..];
    OriginsOne(es[0], es[1..]);
  }

  lemma FeedFresh(cut: bool, e: Entry, c: Chunk)
    ensures FeedEntry(cut, e, c).entry.Fresh() == e.Fresh()
  {}

  /** A fed entry goes to the one list or the other. */
  lemma OneGoes(stay: seq<Entry>, leave: seq<Entry>, e: Entry, done: bool)
    ensures multiset(Origins((if done then [] else [e]) + stay)) + multiset(Origins(leave + (if done then [e] else [])))
         == multiset{e.Fresh()} + (multiset(Origins(stay)) + multiset(Origins(leave)))
  {
    if done {
      OriginsOne(e, leave);
      assert [] + stay == stay;
    } else {
      OriginsOne(e, stay);
      assert leave + [] == leave;
    }
  }

  /** No entry is lost or doubled by the removals of one feeding round. */
  lemma {:induction false} FeedAllPermutes(cut: bool, es: seq<Entry>, c: Chunk)
    ensures multiset(Origins(Survivors(cut, es, c))) + multiset(Origins(Leavers(cut, es, c))) == multiset(Origins(es))
  {
    if |es| != 0 {
      var r, rest := FeedEntry(cut, es[0], c), es[1..];
      FeedAllPermutes(cut, rest, c);
      OneGoes(Survivors(cut, rest, c), Leavers(cut, rest, c), r.entry, r.done);
      FeedFresh(cut, es[0], c);
      OriginsFirst(es);
    }
  }

  lemma CloseAllKeeps(cut: bool, es: seq<Entry>, chunks: seq<Chunk>)
    requires AllActive(cut, es, chunks)
    ensures AllFinished(cut, CloseAll(es), chunks)
    ensures Origins(CloseAll(es)) == Origins(es)
  {
    forall i | 0 <= i < |es|
      ensures FinishedOk(cut, CloseAll(es)[i], chunks) && CloseAll(es)[i].Fresh() == es[i].Fresh()
    {
      CloseKeeps(cut, es[i], chunks);
    }
  }

  /** What is finished stays finished, whatever comes later. */
  lemma FinishedStay(cut: bool, es: seq<Entry>, chunks: seq<Chunk>, c: Chunk)
    requires AllFinished(cut, es, chunks)
    ensures AllFinished(cut, es, chunks + [c])
  {
    forall i | 0 <= i < |es| ensures FinishedOk(cut, es[i], chunks + [c]) {
      StillFollows(es[i], chunks, c);
    }
  }

  lemma StillFollows(e: Entry, chunks: seq<Chunk>, c: Chunk)
    requires FollowsChunks(e, chunks)
    ensures FollowsChunks(e, chunks + [c])
  {
    assert forall k :: 0 <= k < |chunks| ==> (chunks + [c])[k] == chunks[k];
  }

  lemma FinishedConcat(cut: bool, a: seq<Entry>, b: seq<Entry>, chunks: seq<Chunk>)
    requires AllFinished(cut, a, chunks) && AllFinished(cut, b, chunks)
    ensures AllFinished(cut, a + b, chunks)
  {}

  lemma LeaversMove(active: seq<Entry>, finished: seq<Entry>, stay: seq<Entry>, leave: seq<Entry>)
    requires multiset(Origins(stay)) + multiset(Origins(leave)) == multiset(Origins(active))
    ensures multiset(Origins(stay + (finished + leave))) == multiset(Origins(active + finished))
  {
    OriginsConcat(active, finished);
    OriginsConcat(stay, finished + leave);
    OriginsConcat(finished, leave);
  }

  /** Feeding one chunk to all entries keeps the lists right. */
  lemma FeedStep(cut: bool, created: seq<Entry>, chunks: seq<Chunk>,
                 active: seq<Entry>, finished: seq<Entry>, c: Chunk)
    requires EntriesOk(cut, created, chunks, active, finished)
    ensures EntriesOk(cut, created, chunks + [c],
                      Survivors(cut, active, c), finished + Leavers(cut, active, c))
  {
    FeedAllKeeps(cut, active, c, chunks);
    FeedAllPermutes(cut, active, c);
    FinishedStay(cut, finished, chunks, c);
    FinishedConcat(cut, finished, Leavers(cut, active, c), chunks + [c]);
    LeaversMove(active, finished, Survivors(cut, active, c), Leavers(cut, active, c));
  }

  /** Closing whatever is still active keeps the lists right. */
  lemma CloseStep(cut: bool, created: seq<Entry>, chunks: seq<Chunk>,
                  active: seq<Entry>, finished: seq<Entry>)
    requires EntriesOk(cut, created, chunks, active, finished)
    ensures EntriesOk(cut, created, chunks, [], finished + CloseAll(active))
  {
    CloseAllKeeps(cut, active, chunks);
    FinishedConcat(cut, finished, CloseAll(active), chunks);
    assert Origins([]) == [];
    LeaversMove(active, finished, [], CloseAll(active));
  }
}
