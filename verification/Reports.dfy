/** What analyzers say to one chunk, read off their behaviours, limits and call histories. */
module Reports {
  import opened Entries
  import opened Folds

  /** What a limited analyzer may still be fed, by what it was fed so far. */
  function Left(e: Entry): int {
    e.limit - FedBytes(e.calls)
  }

  /** The bytes of a chunk an analyzer gets: all, or for TCP what its limit still allows. */
  function Share(cut: bool, e: Entry, c: Chunk): Bytes {
    if cut && e.limit > 0 && 0 <= Left(e) < |c.data| then c.data[..Left(e)] else c.data
  }

  /** Its history with that feed. */
  function Heard(cut: bool, e: Entry, c: Chunk): seq<Call> {
    e.calls + [Feed(c.(data := Share(cut, e, c)))]
  }

  predicate UsedUp(cut: bool, e: Entry, c: Chunk) {
    e.limit > 0 && |Share(cut, e, c)| >= Left(e)
  }

  /** Its answer to the feed, and to the limited close when its limit is used up. */
  function Said(cut: bool, e: Entry, c: Chunk): seq<Update> {
    [e.behaviour(Heard(cut, e, c)).update]
    + if UsedUp(cut, e, c) then [e.behaviour(Heard(cut, e, c) + [Close(true)]).update] else []
  }

  predicate Ends(cut: bool, e: Entry, c: Chunk) {
    UsedUp(cut, e, c) || e.behaviour(Heard(cut, e, c)).done
  }

  /** It has something to say: an answer other than no update. */
  predicate Speaks(cut: bool, e: Entry, c: Chunk) {
    exists k :: 0 <= k < |Said(cut, e, c)| && !Said(cut, e, c)[k].NoUpdate?
  }

  predicate SomeSpeak(cut: bool, es: seq<Entry>, c: Chunk) {
    exists i :: 0 <= i < |es| && Speaks(cut, es[i], c)
  }

  predicate AllEnd(cut: bool, es: seq<Entry>, c: Chunk) {
    forall i :: 0 <= i < |es| ==> Ends(cut, es[i], c)
  }

  datatype Report = Report(name: string, update: Update)

  function Named(name: string, updates: seq<Update>): seq<Report> {
    seq(|updates|, i requires 0 <= i < |updates| => Report(name, updates[i]))
  }

  /** All that is said to a chunk, in the order it is said: by the last analyzer first. */
  function AllSaid(cut: bool, es: seq<Entry>, c: Chunk): seq<Report> {
    if |es| == 0 then [] else AllSaid(cut, es[1..], c) + Named(es[0].name, Said(cut, es[0], c))
  }

  function Noted(props: Props, r: Report): Props {
    Apply(props, r.name, r.update)
  }

  /** Those that go on, with what they have heard now. */
  function Remaining(cut: bool, es: seq<Entry>, c: Chunk): seq<Entry> {
    if |es| == 0 then []
    else
      (if Ends(cut, es[0], c) then []
       else [es[0].(calls := Heard(cut, es[0], c), quota := if es[0].limit > 0 then Left(es[0]) - |Share(cut, es[0], c)| else es[0].quota)])
      + Remaining(cut, es[1..], c)
  }

  /** The books of an analyzer that still runs. */
  ghost predicate Running(cut: bool, e: Entry) {
    Budgeted(cut, e) && e.Open()
  }

  ghost predicate AllRunning(cut: bool, es: seq<Entry>) {
    forall i :: 0 <= i < |es| ==> Running(cut, es[i])
  }

  lemma ActiveRuns(cut: bool, es: seq<Entry>, chunks: seq<Chunk>)
    requires AllActive(cut, es, chunks)
    ensures AllRunning(cut, es)
  {
    forall i | 0 <= i < |es| ensures Running(cut, es[i]) {
      assert ActiveOk(cut, es[i], chunks);
    }
  }

  lemma FedIs(cut: bool, e: Entry, c: Chunk)
    requires Running(cut, e)
    ensures var r, said := FeedEntry(cut, e, c), Said(cut, e, c);
            && r.done == Ends(cut, e, c)
            && r.update == said[0]
            && r.closeUpdate == (if |said| > 1 then said[1] else NoUpdate)
            && (!r.done ==> r.entry == e.(calls := Heard(cut, e, c),
                                          quota := if e.limit > 0 then Left(e) - |Share(cut, e, c)| else e.quota))
  {
    assert Offered(cut, e, c) == c.(data := Share(cut, e, c));
  }

  lemma SpeaksIff(cut: bool, e: Entry, c: Chunk)
    requires Running(cut, e)
    ensures FeedEntry(cut, e, c).Updates() <==> Speaks(cut, e, c)
  {
    FedIs(cut, e, c);
    assert 1 <= |Said(cut, e, c)| <= 2;
  }

  lemma {:induction false} AnyUpdateIff(cut: bool, es: seq<Entry>, c: Chunk)
    requires AllRunning(cut, es)
    ensures AnyUpdate(cut, es, c) <==> SomeSpeak(cut, es, c)
  {
    if |es| != 0 {
      var rest := es[1..];
      AnyUpdateIff(cut, rest, c);
      SpeaksIff(cut, es[0], c);
      assert forall i :: 0 <= i < |rest| ==> rest[i] == es[i + 1];
      assert forall i :: 0 < i < |es| ==> es[i] == rest[i - 1];
    }
  }

  lemma {:induction false} SurvivorsAre(cut: bool, es: seq<Entry>, c: Chunk)
    requires AllRunning(cut, es)
    ensures Survivors(cut, es, c) == Remaining(cut, es, c)
    ensures |Survivors(cut, es, c)| == 0 <==> AllEnd(cut, es, c)
  {
    if |es| != 0 {
      var rest := es[1..];
      SurvivorsAre(cut, rest, c);
      FedIs(cut, es[0], c);
      assert forall i :: 0 <= i < |rest| ==> rest[i] == es[i + 1];
      assert forall i :: 0 < i < |es| ==> es[i] == rest[i - 1];
    }
  }

  lemma NotedOne(cut: bool, e: Entry, c: Chunk, props: Props)
    requires Running(cut, e)
    ensures var r := FeedEntry(cut, e, c);
            Fold(Noted, props, Named(e.name, Said(cut, e, c)))
            == Apply(Apply(props, e.name, r.update), e.name, r.closeUpdate)
  {
    FedIs(cut, e, c);
    var said := Said(cut, e, c);
    var first := Report(e.name, said[0]);
    FoldSnoc(Noted, props, [], first);
    assert [] + [first] == [first];
    if |said| == 1 {
      assert Named(e.name, said) == [first];
    } else {
      assert Named(e.name, said) == [first] + [Report(e.name, said[1])];
      FoldSnoc(Noted, props, [first], Report(e.name, said[1]));
    }
  }

  lemma {:induction false} PropsAre(cut: bool, es: seq<Entry>, c: Chunk, props: Props)
    requires AllRunning(cut, es)
    ensures PropsAfter(cut, es, c, props) == Fold(Noted, props, AllSaid(cut, es, c))
  {
    if |es| != 0 {
      PropsAre(cut, es[1..], c, props);
      FoldConcat(Noted, props, AllSaid(cut, es[1..], c), Named(es[0].name, Said(cut, es[0], c)));
      NotedOne(cut, es[0], c, PropsAfter(cut, es[1..], c, props));
    }
  }

  /** What analyzers say when they are closed because the stream is decided, first to last. */
  function ClosingSaid(es: seq<Entry>): seq<Report> {
    seq(|es|, i requires 0 <= i < |es| => Report(es[i].name, es[i].behaviour(es[i].calls + [Close(false)]).update))
  }

  lemma {:induction false} ClosingPropsAre(es: seq<Entry>, props: Props)
    ensures PropsAfterClose(es, props) == Fold(Noted, props, ClosingSaid(es))
  {
    if |es| != 0 {
      var n := |es| - 1;
      ClosingPropsAre(es[..n], props);
      var last := Report(es[n].name, es[n].behaviour(es[n].calls + [Close(false)]).update);
      assert ClosingSaid(es) == ClosingSaid(es[..n]) + [last];
      FoldSnoc(Noted, props, ClosingSaid(es[..n]), last);
    }
  }

  // ---- What a property is after any reports ----

  function Lookup(props: Props, name: string, key: string): (string, bool) {
    if name in props && key in props[name] then (props[name][key], true) else ("", false)
  }

  /** The report says what this property is from now on. */
  predicate Settles(r: Report, name: string, key: string) {
    r.name == name && (r.update.Replace? || r.update.Delete? || (r.update.Merge? && key in r.update.m))
  }

  /** What it says: a value, or that there is none. */
  function Says(u: Update, key: string): (string, bool) {
    if (u.Merge? || u.Replace?) && key in u.m then (u.m[key], true) else ("", false)
  }

  lemma NotedLookup(props: Props, r: Report, name: string, key: string)
    ensures Lookup(Noted(props, r), name, key)
         == if Settles(r, name, key) then Says(r.update, key) else Lookup(props, name, key)
  {}

  /** A property is what the last report that settles it says, and what it was if none does:
      merging touches only the keys it has, replacing and deleting all of an analyzer's. */
  lemma {:induction false} LastReportSettles(props: Props, reports: seq<Report>, name: string, key: string)
    ensures var now := Lookup(Fold(Noted, props, reports), name, key);
            || (exists i :: 0 <= i < |reports| && Settles(reports[i], name, key) && now == Says(reports[i].update, key)
                  && forall j :: i < j < |reports| ==> !Settles(reports[j], name, key))
            || (now == Lookup(props, name, key) && forall j :: 0 <= j < |reports| ==> !Settles(reports[j], name, key))
  {
    if reports != [] {
      var n := |reports| - 1;
      LastReportSettles(props, reports[..n], name, key);
      NotedLookup(Fold(Noted, props, reports[..n]), reports[n], name, key);
      if !Settles(reports[n], name, key) {
        assert forall j :: 0 <= j < n ==> reports[..n][j] == reports[j];
      }
    }
  }
}
