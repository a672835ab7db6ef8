/** The bounded cache of reverse proxies: gateway/proxy.go, proxyCache. */
module ProxyCache {
  import opened Wrappers

  /** A cached proxy and the host it is for; `proxy` stands for the reverse proxy itself. */
  datatype Entry = Entry(key: string, proxy: int)

  /** One element of the recency list. */
  class Element {
    const entry: Entry

    constructor (entry: Entry)
      ensures this.entry == entry
    {
      this.entry := entry;
    }
  }

  function KeysOf(es: seq<Entry>): seq<string> { seq(|es|, i requires 0 <= i < |es| => es[i].key) }

  function Drop<T(==)>(s: seq<T>, x: T): seq<T> {
    if s == [] then [] else if s[0] == x then Drop(s[1..], x) else [s[0]] + Drop(s[1..], x)
  }

  function Take<T>(s: seq<T>, n: nat): seq<T> { if |s| <= n then s else s[..n] }

  function DropKey(es: seq<Entry>, key: string): seq<Entry> {
    if es == [] then [] else if es[0].key == key then DropKey(es[1..], key) else [es[0]] + DropKey(es[1..], key)
  }

  predicate Holds(es: seq<Entry>, key: string) { exists i :: 0 <= i < |es| && es[i].key == key }

  function ProxyOf(es: seq<Entry>, key: string): int
    requires Holds(es, key)
  {
    if es[0].key == key then es[0].proxy else ProxyOf(es[1..], key)
  }

  /** The entry of a key that is held, moved to the front. */
  function Touched(es: seq<Entry>, key: string): seq<Entry>
    requires Holds(es, key)
  {
    [Entry(key, ProxyOf(es, key))] + DropKey(es, key)
  }

  predicate Unique(es: seq<Entry>) { forall i, j :: 0 <= i < j < |es| ==> es[i].key != es[j].key }

  predicate Indexed(el: Element, items: map<string, Element>) { el.entry.key in items && items[el.entry.key] == el }

  predicate Listed(order: seq<Element>, el: Element, key: string) { el in order && el.entry.key == key }

  /** The index leads from each key to its one element of the list. */
  ghost predicate Linked(order: seq<Element>, items: map<string, Element>) {
    && (forall i :: 0 <= i < |order| ==> Indexed(order[i], items))
    && (forall k :: k in items ==> Listed(order, items[k], k))
    && (forall i, j :: 0 <= i < j < |order| ==> order[i] != order[j])
  }

  function Entries(order: seq<Element>): seq<Entry> { seq(|order|, i requires 0 <= i < |order| => order[i].entry) }

  lemma EntriesPush(el: Element, order: seq<Element>)
    ensures Entries([el] + order) == [el.entry] + Entries(order)
  {
  }

  function Fronted<T>(s: seq<T>, i: nat): seq<T>
    requires i < |s|
  {
    [s[i]] + s[..i] + s[i + 1..]
  }

  lemma MovedEntries(order: seq<Element>, items: map<string, Element>, i: nat)
    requires Linked(order, items) && i < |order|
    ensures var es, el := Entries(order), order[i].entry;
            && Holds(es, el.key) && ProxyOf(es, el.key) == el.proxy
            && Entries(Fronted(order, i)) == Touched(es, el.key)
  {
    var es := Entries(order);
    Moved(es, i);
    assert es[i] == order[i].entry;
    assert Entries(Fronted(order, i)) == [es[i]] + (es[..i] + es[i + 1..]);
  }

  lemma LinkedPop(order: seq<Element>, items: map<string, Element>)
    requires Linked(order, items) && order != []
    ensures var n := |order| - 1; Linked(order[..n], items - {order[n].entry.key})
  {
    var n := |order| - 1;
    forall i | 0 <= i < n ensures Indexed(order[i], items - {order[n].entry.key}) {
      assert Indexed(order[i], items) && Entries(order)[i].key != Entries(order)[n].key;
    }
    forall k | k in items && k != order[n].entry.key ensures Listed(order[..n], items[k], k) {
      assert Listed(order, items[k], k);
    }
  }

  lemma LinkedHolds(order: seq<Element>, items: map<string, Element>, key: string)
    requires Linked(order, items)
    ensures key in items <==> Holds(Entries(order), key)
  {
    if key in items {
      assert Listed(order, items[key], key);
      var i :| 0 <= i < |order| && order[i] == items[key];
      assert Entries(order)[i].key == key;
    }
    if Holds(Entries(order), key) {
      var i :| 0 <= i < |order| && Entries(order)[i].key == key;
      assert Indexed(order[i], items);
    }
  }

  /** A least-recently-used cache: a list, most recently used first, and an index of its elements. */
  class Cache {
    var order: seq<Element>
    var items: map<string, Element>
    const cap: nat
    var closed: seq<int>

    constructor (cap: nat)
      ensures Valid() && Contents() == [] && this.cap == cap && closed == []
    {
      order, items, closed, this.cap := [], map[], [], cap;
    }

    /** List and index agree one to one, and the list is no longer than the capacity. */
    ghost predicate Valid()
      reads this
    {
      |order| <= cap && Linked(order, items)
    }

    function Contents(): seq<Entry>
      reads this
    {
      Entries(order)
    }

    /** Moves an element of the list to its front. */
    method MoveToFront(el: Element)
      requires Valid() && el in order
      modifies this`order
      ensures Valid() && Holds(old(Contents()), el.entry.key) && Contents() == Touched(old(Contents()), el.entry.key)
      ensures ProxyOf(old(Contents()), el.entry.key) == el.entry.proxy
    {
      var i := 0;
      while order[i] != el
        invariant 0 <= i < |order| && el in order[i..]
        decreases |order| - i
      {
        i := i + 1;
      }
      MovedEntries(order, items, i);
      order := Fronted(order, i);
    }

    method Get(key: string) returns (r: Option<int>)
      requires Valid()
      modifies this`order
      ensures Valid()
      ensures if Holds(old(Contents()), key)
              then r == Some(ProxyOf(old(Contents()), key)) && Contents() == Touched(old(Contents()), key)
              else r == None && Contents() == old(Contents())
    {
      LinkedHolds(order, items, key);
      if key in items {
        var el := items[key];
        MoveToFront(el);
        return Some(el.entry.proxy);
      }
      return None;
    }

    /** Drops the entry used longest ago and closes its proxy. */
    method Evict()
      requires Linked(order, items) && |order| == cap + 1
      modifies this
      ensures Valid() && order == old(order)[..cap] && closed == old(closed) + [old(order)[cap].entry.proxy]
    {
      LinkedPop(order, items);
      var oldest := order[|order| - 1];
      order := order[..|order| - 1];
      items := items - {oldest.entry.key};
      closed := closed + [oldest.entry.proxy];
    }

    /** Puts a new entry in front and evicts the one used longest ago when there are too many. */
    method Insert(key: string, proxy: int)
      requires Valid() && key !in items
      modifies this
      ensures Valid()
      ensures var longer := [Entry(key, proxy)] + old(Contents());
              Contents() == Take(longer, cap)
              && closed == (if |longer| > cap then old(closed) + [longer[|longer| - 1].proxy] else old(closed))
    {
      var el := new Element(Entry(key, proxy));
      EntriesPush(el, order);
      order := [el] + order;
      items := items[key := el];
      if |order| > cap {
        Evict();
      }
    }

    /** Stores the proxy unless the key is held already: then the one held wins and this one is
        closed. Over capacity the entry used longest ago is evicted and closed. */
    method Add(key: string, proxy: int) returns (r: int)
      requires Valid()
      modifies this
      ensures Valid()
      ensures if Holds(old(Contents()), key)
              then r == ProxyOf(old(Contents()), key) && Contents() == Touched(old(Contents()), key)
                   && closed == old(closed) + [proxy]
              else r == proxy
                   && var longer := [Entry(key, proxy)] + old(Contents());
                      Contents() == Take(longer, cap)
                      && closed == (if |longer| > cap then old(closed) + [longer[|longer| - 1].proxy] else old(closed))
    {
      LinkedHolds(order, items, key);
      if key in items {
        var el := items[key];
        MoveToFront(el);
        closed := closed + [proxy];
        return el.entry.proxy;
      }
      Insert(key, proxy);
      return proxy;
    }
  }

  lemma {:induction false} DropAbsent(es: seq<Entry>, key: string)
    requires !Holds(es, key)
    ensures DropKey(es, key) == es
  {
    if es != [] {
      assert es[0].key != key;
      assert forall i :: 0 <= i < |es[1..]| ==> es[1..][i] == es[i + 1];
      DropAbsent(es[1..], key);
    }
  }

  lemma {:induction false} Moved(es: seq<Entry>, i: nat)
    requires Unique(es) && i < |es|
    ensures Holds(es, es[i].key) && ProxyOf(es, es[i].key) == es[i].proxy
    ensures DropKey(es, es[i].key) == es[..i] + es[i + 1..]
  {
    var rest := es[1..];
    if i == 0 {
      assert !Holds(rest, es[0].key);
      DropAbsent(rest, es[0].key);
    } else {
      assert rest[i - 1] == es[i];
      Moved(rest, i - 1);
      assert es[..i] + es[i + 1..] == [es[0]] + (rest[..i - 1] + rest[i..]);
    }
  }
}
