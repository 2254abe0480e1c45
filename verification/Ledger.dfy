/** Books of traffic counters by key, as the trackers and the aggregator keep them. */
module Ledger {

  datatype Volume = Volume(bytes: nat, packets: nat)

  /** What was counted for one key. Flows and protocols only use the sent side. */
  datatype Tally = Tally(sent: Volume, received: Volume)

  const ZERO := Tally(Volume(0, 0), Volume(0, 0))

  function Plus(a: Tally, b: Tally): Tally {
    Tally(Volume(a.sent.bytes + b.sent.bytes, a.sent.packets + b.sent.packets),
          Volume(a.received.bytes + b.received.bytes, a.received.packets + b.received.packets))
  }

  function Sent(length: nat): Tally {
    Tally(Volume(length, 1), Volume(0, 0))
  }

  function Received(length: nat): Tally {
    Tally(Volume(0, 0), Volume(length, 1))
  }

  type Book<K(==)> = map<K, Tally>

  datatype Item<K> = Item(key: K, tally: Tally)

  function Get<K(==)>(book: Book<K>, key: K): Tally {
    if key in book then book[key] else ZERO
  }

  function Credit<K(==)>(book: Book<K>, item: Item<K>): Book<K> {
    book[item.key := Plus(Get(book, item.key), item.tally)]
  }

  function CreditAll<K(==)>(book: Book<K>, items: seq<Item<K>>): Book<K> {
    if items == [] then book else Credit(CreditAll(book, items[..|items| - 1]), items[|items| - 1])
  }

  /** The plain sum of all items of one key. */
  function Amount<K(==)>(items: seq<Item<K>>, key: K): Tally {
    if items == [] then ZERO
    else
      var last := items[|items| - 1];
      var before := Amount(items[..|items| - 1], key);
      if last.key == key then Plus(before, last.tally) else before
  }

  lemma AmountSnoc<K>(items: seq<Item<K>>, item: Item<K>, key: K)
    ensures Amount(items + [item], key)
         == if item.key == key then Plus(Amount(items, key), item.tally) else Amount(items, key)
  {
    assert (items + [item])[..|items|] == items;
  }

  lemma {:induction false} AmountConcat<K>(a: seq<Item<K>>, b: seq<Item<K>>, key: K)
    ensures Amount(a + b, key) == Plus(Amount(a, key), Amount(b, key))
  {
    if b == [] {
      assert a + b == a;
    } else {
      var n := |b| - 1;
      assert a + b == a + b[..n] + [b[n]];
      AmountSnoc(a + b[..n], b[n], key);
      AmountConcat(a, b[..n], key);
    }
  }

  lemma JoinedAmount<K>(a: seq<Item<K>>, b: seq<Item<K>>, key: K, x: Tally, y: Tally)
    requires Amount(a, key) == x && Amount(b, key) == y && (x == ZERO || y == ZERO)
    ensures Amount(a + b, key) == if x == ZERO then y else x
  {
    AmountConcat(a, b, key);
  }

  /** Keeping a book agrees with the plain sum, for every key at once. */
  lemma {:induction false} BookIsSum<K>(book: Book<K>, items: seq<Item<K>>, key: K)
    ensures Get(CreditAll(book, items), key) == Plus(Get(book, key), Amount(items, key))
  {
    if items != [] {
      BookIsSum(book, items[..|items| - 1], key);
    }
  }

  /** And it makes entries for the mentioned keys only. */
  lemma {:induction false} BookKeys<K>(book: Book<K>, items: seq<Item<K>>, key: K)
    ensures key in CreditAll(book, items) ==> key in book || exists i :: 0 <= i < |items| && items[i].key == key
    ensures key in book || (exists i :: 0 <= i < |items| && items[i].key == key) ==> key in CreditAll(book, items)
  {
    if items != [] {
      var n := |items| - 1;
      BookKeys(book, items[..n], key);
      assert forall i :: 0 <= i < n ==> items[..n][i] == items[i];
    }
  }

  function KeysOf<K(==)>(items: seq<Item<K>>): set<K> {
    set i | 0 <= i < |items| :: items[i].key
  }

  lemma KeysSnoc<K>(items: seq<Item<K>>, item: Item<K>)
    ensures KeysOf(items + [item]) == KeysOf(items) + {item.key}
  {
    var more := items + [item];
    forall k ensures k in KeysOf(more) <==> k in KeysOf(items) + {item.key} {
      if k in KeysOf(items) {
        var i :| 0 <= i < |items| && items[i].key == k;
        assert more[i].key == k;
      }
      assert more[|items|].key == item.key;
    }
  }

  /** `items` are entries of the book, no key twice. */
  ghost predicate Sublists<K>(items: seq<Item<K>>, book: Book<K>) {
    && (forall i :: 0 <= i < |items| ==> items[i].key in book && items[i].tally == book[items[i].key])
    && (forall i, j :: 0 <= i < j < |items| ==> items[i].key != items[j].key)
  }

  lemma SublistSnoc<K>(items: seq<Item<K>>, book: Book<K>, key: K)
    requires Sublists(items, book) && key in book && key !in KeysOf(items)
    ensures Sublists(items + [Item(key, book[key])], book)
    ensures KeysOf(items + [Item(key, book[key])]) == KeysOf(items) + {key}
  {
    KeysSnoc(items, Item(key, book[key]));
    assert forall i :: 0 <= i < |items| ==> items[i].key in KeysOf(items);
  }

  /** `items` is the whole book as a list, each key once, in any order. */
  ghost predicate Lists<K>(items: seq<Item<K>>, book: Book<K>) {
    Sublists(items, book) && KeysOf(items) == book.Keys
  }

  lemma {:induction false} AbsentAmount<K>(items: seq<Item<K>>, key: K)
    requires forall i :: 0 <= i < |items| ==> items[i].key != key
    ensures Amount(items, key) == ZERO
  {
    if items != [] {
      AbsentAmount(items[..|items| - 1], key);
    }
  }

  lemma {:induction false} OnceAmount<K>(items: seq<Item<K>>, i: nat)
    requires i < |items| && forall j :: 0 <= j < |items| && j != i ==> items[j].key != items[i].key
    ensures Amount(items, items[i].key) == items[i].tally
  {
    var n := |items| - 1;
    if i < n {
      OnceAmount(items[..n], i);
    } else {
      AbsentAmount(items[..n], items[i].key);
    }
  }

  lemma SublistedAmount<K>(items: seq<Item<K>>, book: Book<K>, key: K)
    requires Sublists(items, book)
    ensures Amount(items, key) == if key in KeysOf(items) then Get(book, key) else ZERO
  {
    if key in KeysOf(items) {
      var i :| 0 <= i < |items| && items[i].key == key;
      OnceAmount(items, i);
    } else {
      forall i | 0 <= i < |items| ensures items[i].key != key {
        assert items[i].key in KeysOf(items);
      }
      AbsentAmount(items, key);
    }
  }

  lemma ListedAmount<K>(items: seq<Item<K>>, book: Book<K>, key: K)
    requires Lists(items, book)
    ensures Amount(items, key) == Get(book, key)
  {
    SublistedAmount(items, book, key);
  }

  /** The loop that turns a book into a list; the order is the map's, so any. */
  method ListBook<K(==)>(book: Book<K>) returns (items: seq<Item<K>>)
    ensures Lists(items, book)
  {
    items := [];
    var rest := book.Keys;
    while rest != {}
      invariant rest <= book.Keys
      invariant Sublists(items, book) && KeysOf(items) == book.Keys - rest
    {
      var key :| key in rest;
      rest := rest - {key};
      SublistSnoc(items, book, key);
      items := items + [Item(key, book[key])];
    }
  }

  /** The merge loop: adds to an existing entry, or makes a new one. */
  method MergeAll<K(==)>(book: Book<K>, items: seq<Item<K>>) returns (merged: Book<K>)
    ensures merged == CreditAll(book, items)
  {
    merged := book;
    for i := 0 to |items|
      invariant merged == CreditAll(book, items[..i])
    {
      var item := items[i];
      if item.key in merged {
        merged := merged[item.key := Plus(merged[item.key], item.tally)];
      } else {
        merged := merged[item.key := item.tally];
      }
      assert items[..i + 1][..i] == items[..i];
    }
    assert items[..|items|] == items;
  }
}
