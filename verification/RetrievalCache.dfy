// packages/adaptiveretrieval/cache.go: the LRU cache of subgraphs with its
// revision check. The map of element pointers and the linked list are both kept,
// as a map to element handles and a sequence of handles, front first.
module RetrievalCache {
  import opened Basics
  import opened Sorting

  datatype Path = Path(nodes: seq<string>, hops: seq<string>)
  datatype Source = Built | Cached | Fallback
  datatype Subgraph = Subgraph(
    caseId: string, anchor: string, paths: seq<Path>, depth: nat, visited: int, truncated: bool,
    source: Source, revision: int)

  datatype CacheKey = CacheKey(caseId: string, shape: string)
  datatype CacheEntry = CacheEntry(key: CacheKey, subgraph: Subgraph)
  datatype Lookup = Miss | Stale(subgraph: Subgraph) | Hit(subgraph: Subgraph)

  const DEFAULT_CAPACITY: nat := 256

  // ---------- the cache as a list of entries, most recently used first ----------

  function KeysOf(es: seq<CacheEntry>): seq<CacheKey> {
    seq(|es|, i requires 0 <= i < |es| => es[i].key)
  }

  function Without(es: seq<CacheEntry>, k: CacheKey): seq<CacheEntry> {
    if es == [] then []
    else if es[0].key == k then Without(es[1..], k) else [es[0]] + Without(es[1..], k)
  }

  function Find(es: seq<CacheEntry>, k: CacheKey): Option<Subgraph> {
    if es == [] then None else if es[0].key == k then Some(es[0].subgraph) else Find(es[1..], k)
  }

  function AfterPut(es: seq<CacheEntry>, capacity: nat, k: CacheKey, g: Subgraph): seq<CacheEntry> {
    Take([CacheEntry(k, g)] + Without(es, k), capacity)
  }

  function AfterGet(es: seq<CacheEntry>, k: CacheKey): seq<CacheEntry> {
    match Find(es, k)
    case None => es
    case Some(g) => [CacheEntry(k, g)] + Without(es, k)
  }

  type Revisions = map<string, int>

  function RevisionFor(revisions: Revisions, caseId: string): int {
    if caseId in revisions then revisions[caseId] else 0
  }

  function LookupResult(es: seq<CacheEntry>, revisions: Revisions, k: CacheKey): Lookup {
    match Find(es, k)
    case None => Miss
    case Some(g) => if g.revision < RevisionFor(revisions, k.caseId) then Stale(g) else Hit(g)
  }

  predicate DistinctKeys(es: seq<CacheEntry>) {
    forall i, j :: 0 <= i < j < |es| ==> es[i].key != es[j].key
  }

  lemma WithoutFacts(es: seq<CacheEntry>, k: CacheKey)
    ensures forall i :: 0 <= i < |Without(es, k)| ==> Without(es, k)[i].key != k
    ensures DistinctKeys(es) ==> DistinctKeys(Without(es, k))
  {
    hide Without, Drop;
    KeysWithout(es, k);
    DropFacts(KeysOf(es), k);
    var ks, out := KeysOf(es), Without(es, k);
    forall i | 0 <= i < |out| ensures out[i].key != k { assert KeysOf(out)[i] in KeysOf(out); }
    if DistinctKeys(es) {
      assert DistinctSeq(ks);
      forall i, j | 0 <= i < j < |out| ensures out[i].key != out[j].key {
        assert KeysOf(out)[i] != KeysOf(out)[j];
      }
    }
  }

  lemma {:induction false} WithoutAbsent(es: seq<CacheEntry>, k: CacheKey)
    requires forall i :: 0 <= i < |es| ==> es[i].key != k
    ensures Without(es, k) == es
  {
    if es != [] { WithoutAbsent(es[1..], k); }
  }

  // Removing the one entry at position i.
  lemma {:induction false} WithoutAt(es: seq<CacheEntry>, i: nat)
    requires DistinctKeys(es) && i < |es|
    ensures Without(es, es[i].key) == es[..i] + es[i + 1..]
    ensures Find(es, es[i].key) == Some(es[i].subgraph)
  {
    if i == 0 {
      WithoutAbsent(es[1..], es[0].key);
    } else {
      WithoutAt(es[1..], i - 1);
      assert es[1..][..i - 1] == es[1..i];
      assert [es[0]] + es[1..i] == es[..i];
    }
  }

  lemma {:induction false} FindNone(es: seq<CacheEntry>, k: CacheKey)
    ensures Find(es, k) == None <==> forall i :: 0 <= i < |es| ==> es[i].key != k
    ensures Find(es, k).Some? ==> CacheEntry(k, Find(es, k).value) in es
  {
    if es != [] {
      FindNone(es[1..], k);
      assert es == [es[0]] + es[1..];
    }
  }

  // ---------- the class ----------

  type Elem = nat

  function Listed(order: seq<Elem>, values: map<Elem, CacheEntry>): (es: seq<CacheEntry>)
    requires forall i :: 0 <= i < |order| ==> order[i] in values
    ensures |es| == |order| && forall i :: 0 <= i < |es| ==> es[i] == values[order[i]]
  {
    seq(|order|, i requires 0 <= i < |order| => values[order[i]])
  }

  // Map and list agree, element for element and key for key.
  predicate Agree(items: map<CacheKey, Elem>, order: seq<Elem>, values: map<Elem, CacheEntry>, nextElem: Elem) {
    && (forall i :: 0 <= i < |order| ==> order[i] in values && ItemIs(items, values[order[i]].key, order[i]))
    && (forall k :: k in items ==> items[k] in order && items[k] in values && values[items[k]].key == k)
    && (forall i, j :: 0 <= i < j < |order| ==> order[i] != order[j])
    && (forall e :: e in values ==> e < nextElem)
  }

  predicate ItemIs(items: map<CacheKey, Elem>, k: CacheKey, e: Elem) {
    k in items && items[k] == e
  }

  lemma AgreeIndices(items: map<CacheKey, Elem>, order: seq<Elem>, values: map<Elem, CacheEntry>, nextElem: Elem)
    requires Agree(items, order, values, nextElem)
    ensures forall i :: 0 <= i < |order| ==> order[i] in values
    ensures forall i, j :: 0 <= i < j < |order| ==> order[i] != order[j]
    ensures nextElem !in values
  {
  }

  lemma MovedAgrees(items: map<CacheKey, Elem>, order: seq<Elem>, values: map<Elem, CacheEntry>, nextElem: Elem, p: nat)
    requires Agree(items, order, values, nextElem) && p < |order|
    ensures Agree(items, [order[p]] + (order[..p] + order[p + 1..]), values, nextElem)
  {
    var now := [order[p]] + (order[..p] + order[p + 1..]);
    MovedSame(order, now, p);
    hide ItemIs;
    forall k | k in items ensures items[k] in now { assert items[k] in order; }
    forall i | 0 <= i < |now| ensures now[i] in values && ItemIs(items, values[now[i]].key, now[i]) {
      var j := if i == 0 then p else if i <= p then i - 1 else i;
      assert now[i] == order[j];
    }
  }

  lemma PushedAgrees(items: map<CacheKey, Elem>, order: seq<Elem>, values: map<Elem, CacheEntry>, e: Elem,
                     entry: CacheEntry)
    requires Agree(items, order, values, e) && entry.key !in items
    ensures Agree(items[entry.key := e], [e] + order, values[e := entry], e + 1)
  {
    var items', order', values' := items[entry.key := e], [e] + order, values[e := entry];
    forall k | k in items' ensures items'[k] in order' && items'[k] in values' && values'[items'[k]].key == k {
      if k == entry.key { assert order'[0] == e; } else {
        var i :| 0 <= i < |order| && order[i] == items[k];
        assert order'[i + 1] == items[k];
      }
    }
    forall i | 0 <= i < |order'| ensures order'[i] in values' && ItemIs(items', values'[order'[i]].key, order'[i]) {
      if i > 0 { assert ItemIs(items, values[order[i - 1]].key, order[i - 1]); }
    }
  }

  lemma EvictedAgrees(items: map<CacheKey, Elem>, order: seq<Elem>, values: map<Elem, CacheEntry>, nextElem: Elem)
    requires Agree(items, order, values, nextElem) && order != []
    ensures var n := |order| - 1;
      order[n] in values && Agree(items - {values[order[n]].key}, order[..n], values, nextElem)
  {
    var n := |order| - 1;
    var gone, items' := values[order[n]].key, items - {values[order[n]].key};
    assert ItemIs(items, gone, order[n]);
    forall k | k in items' ensures items'[k] in order[..n] {
      var i :| 0 <= i < |order| && order[i] == items[k];
      assert i < n;
      assert order[..n][i] == items[k];
    }
    forall i | 0 <= i < n ensures ItemIs(items', values[order[i]].key, order[i]) {
      assert ItemIs(items, values[order[i]].key, order[i]);
    }
  }

  lemma ReplacedAgrees(items: map<CacheKey, Elem>, order: seq<Elem>, values: map<Elem, CacheEntry>, nextElem: Elem,
                       entry: CacheEntry)
    requires Agree(items, order, values, nextElem) && entry.key in items
    ensures Agree(items, order, values[items[entry.key] := entry], nextElem)
  {
    var e := items[entry.key];
    forall i | 0 <= i < |order|
      ensures order[i] in values && ItemIs(items, values[e := entry][order[i]].key, order[i])
    {
      assert ItemIs(items, values[order[i]].key, order[i]);
    }
  }

  lemma ListedMoved(order: seq<Elem>, values: map<Elem, CacheEntry>, p: nat)
    requires p < |order| && forall i :: 0 <= i < |order| ==> order[i] in values
    ensures var now := [order[p]] + (order[..p] + order[p + 1..]); var es := Listed(order, values);
      && (forall i :: 0 <= i < |now| ==> now[i] in values)
      && Listed(now, values) == [es[p]] + (es[..p] + es[p + 1..])
  {
  }

  class Cache {
    const capacity: nat
    var items: map<CacheKey, Elem>
    var order: seq<Elem>
    var values: map<Elem, CacheEntry>
    var nextElem: Elem
    var revisions: Revisions

    // NewCache: a negative capacity is refused, zero means the default.
    static method New(capacity: int) returns (c: Option<Cache>)
      ensures c.None? <==> capacity < 0
      ensures c.Some? ==> fresh(c.value) && c.value.Valid() && c.value.Entries() == [] && c.value.revisions == map[]
      ensures c.Some? ==> c.value.capacity == if capacity == 0 then 256 else capacity
    {
      if capacity < 0 { return None; }
      var cache := new Cache(if capacity == 0 then DEFAULT_CAPACITY else capacity);
      c := Some(cache);
    }

    constructor (capacity: nat)
      requires capacity > 0
      ensures Valid() && Entries() == [] && revisions == map[] && this.capacity == capacity
    {
      this.capacity := capacity;
      items, order, values, nextElem, revisions := map[], [], map[], 0, map[];
    }

    ghost predicate Valid()
      reads this
    {
      capacity > 0 && |order| <= capacity && Agree(items, order, values, nextElem)
    }

    ghost function Entries(): (es: seq<CacheEntry>)
      requires Valid()
      reads this
      ensures |es| == |order| && forall i :: 0 <= i < |es| ==> es[i] == values[order[i]]
    {
      Listed(order, values)
    }

    lemma EntriesDistinct()
      requires Valid()
      ensures DistinctKeys(Entries())
    {
      forall i | 0 <= i < |order| ensures ItemIs(items, Entries()[i].key, order[i]) {
      }
    }

    lemma ItemsMeanFind(k: CacheKey) returns (p: nat)
      requires Valid()
      ensures k in items <==> Find(Entries(), k).Some?
      ensures k in items ==> p < |order| && order[p] == items[k] && Entries()[p].key == k
      ensures k in items ==> Find(Entries(), k) == Some(values[items[k]].subgraph)
      ensures k in items ==> Without(Entries(), k) == Entries()[..p] + Entries()[p + 1..]
      ensures k !in items ==> Without(Entries(), k) == Entries()
    {
      p := 0;
      EntriesDistinct();
      FindNone(Entries(), k);
      if k in items {
        p :| 0 <= p < |order| && order[p] == items[k];
        WithoutAt(Entries(), p);
      } else {
        WithoutAbsent(Entries(), k);
      }
    }

    method SetRevision(caseId: string, revision: int)
      requires Valid()
      modifies this`revisions
      ensures Valid() && Entries() == old(Entries())
      ensures revisions == old(revisions)[caseId := revision]
    {
      revisions := revisions[caseId := revision];
    }

    // order.MoveToFront
    method MoveToFront(e: Elem, ghost p: nat)
      requires Valid() && p < |order| && order[p] == e
      modifies this`order
      ensures Valid() && order == [e] + old(order[..p] + order[p + 1..])
      ensures Entries() == [values[e]] + old(Entries()[..p] + Entries()[p + 1..])
    {
      hide Listed, Agree;
      AgreeIndices(items, order, values, nextElem);
      MovedAgrees(items, order, values, nextElem, p);
      var i := 0;
      while order[i] != e
        invariant 0 <= i <= p
        decreases p - i
      {
        i := i + 1;
      }
      ghost var was := order;
      ListedMoved(was, values, p);
      assert i == p;
      order := [e] + (order[..i] + order[i + 1..]);
    }

    method Get(caseId: string, shape: string) returns (r: Lookup)
      requires Valid()
      modifies this`order
      ensures Valid()
      ensures Entries() == AfterGet(old(Entries()), CacheKey(caseId, shape))
      ensures r == LookupResult(old(Entries()), revisions, CacheKey(caseId, shape))
    {
      var key := CacheKey(caseId, shape);
      ghost var p := ItemsMeanFind(key);
      if key !in items { return Miss; }
      var elem := items[key];
      MoveToFront(elem, p);
      var entry := values[elem];
      r := if entry.subgraph.revision < RevisionFor(revisions, caseId) then Stale(entry.subgraph)
           else Hit(entry.subgraph);
    }

    method Put(caseId: string, shape: string, g: Subgraph)
      requires Valid()
      modifies this`items, this`order, this`values, this`nextElem
      ensures Valid()
      ensures Entries() == AfterPut(old(Entries()), capacity, CacheKey(caseId, shape), g)
    {
      var key := CacheKey(caseId, shape);
      ghost var p := ItemsMeanFind(key);
      ghost var was := Entries();
      if key in items {
        var elem := items[key];
        ReplacedAgrees(items, order, values, nextElem, CacheEntry(key, g));
        values := values[elem := CacheEntry(key, g)];
        assert Entries() == was[p := CacheEntry(key, g)];
        MoveToFront(elem, p);
        assert Entries() == [CacheEntry(key, g)] + Without(was, key);
      } else {
        PushFront(CacheEntry(key, g));
      }
    }

    // order.PushFront, and eviction of order.Back when that is one too many.
    method PushFront(entry: CacheEntry)
      requires Valid() && entry.key !in items
      modifies this`items, this`order, this`values, this`nextElem
      ensures Valid() && Entries() == Take([entry] + old(Entries()), capacity)
    {
      hide Agree;
      var elem := nextElem;
      AgreeIndices(items, order, values, nextElem);
      PushedAgrees(items, order, values, elem, entry);
      nextElem := nextElem + 1;
      values := values[elem := entry];
      order := [elem] + order;
      items := items[entry.key := elem];
      assert Listed(order, values) == [entry] + old(Entries());
      if |order| > capacity {
        EvictedAgrees(items, order, values, nextElem);
        var oldest := order[|order| - 1];
        order := order[..|order| - 1];
        items := items - {values[oldest].key};
      }
    }
  }

  lemma MovedSame(was: seq<Elem>, now: seq<Elem>, p: nat)
    requires p < |was| && now == [was[p]] + (was[..p] + was[p + 1..])
    ensures |now| == |was| && (forall e :: e in was <==> e in now)
    ensures (forall i, j :: 0 <= i < j < |was| ==> was[i] != was[j]) ==>
      forall i, j :: 0 <= i < j < |now| ==> now[i] != now[j]
  {
    forall e | e in was ensures e in now {
      var i :| 0 <= i < |was| && was[i] == e;
      assert now[if i < p then i + 1 else if i == p then 0 else i] == e;
    }
  }

  // ---------- recency over whole runs ----------

  datatype Op = PutOp(key: CacheKey, subgraph: Subgraph) | GetOp(key: CacheKey)

  function RunEntries(capacity: nat, ops: seq<Op>): seq<CacheEntry> {
    if ops == [] then []
    else
      var es := RunEntries(capacity, ops[..|ops| - 1]);
      match ops[|ops| - 1]
      case PutOp(k, g) => AfterPut(es, capacity, k, g)
      case GetOp(k) => AfterGet(es, k)
  }

  // The distinct keys of a history of touches, latest touch first.
  function Recency(touches: seq<CacheKey>): seq<CacheKey> {
    if touches == [] then []
    else
      var k := touches[|touches| - 1];
      [k] + Drop(Recency(touches[..|touches| - 1]), k)
  }

  function Drop(ks: seq<CacheKey>, k: CacheKey): seq<CacheKey> {
    if ks == [] then [] else if ks[0] == k then Drop(ks[1..], k) else [ks[0]] + Drop(ks[1..], k)
  }

  // Which calls touch a key, without looking at any cache: every put does, and a
  // get does when its key is among the `capacity` most recently touched.
  function Touches(capacity: nat, ops: seq<Op>): seq<CacheKey> {
    if ops == [] then []
    else
      var t := Touches(capacity, ops[..|ops| - 1]);
      match ops[|ops| - 1]
      case PutOp(k, _) => t + [k]
      case GetOp(k) => if k in Take(Recency(t), capacity) then t + [k] else t
  }

  predicate DistinctSeq(ks: seq<CacheKey>) {
    forall i, j :: 0 <= i < j < |ks| ==> ks[i] != ks[j]
  }

  lemma {:induction false} DropFacts(ks: seq<CacheKey>, k: CacheKey)
    ensures forall x :: x in Drop(ks, k) <==> x in ks && x != k
    ensures DistinctSeq(ks) ==> DistinctSeq(Drop(ks, k))
    ensures k !in ks ==> Drop(ks, k) == ks
  {
    if ks != [] {
      var rest := ks[1..];
      DropFacts(rest, k);
      assert ks == [ks[0]] + rest;
      if DistinctSeq(ks) {
        assert DistinctSeq(rest) && ks[0] !in rest;
        assert DistinctSeq(Drop(rest, k));
      }
    }
  }

  lemma {:induction false} DropAt(ks: seq<CacheKey>, i: nat)
    requires DistinctSeq(ks) && i < |ks|
    ensures Drop(ks, ks[i]) == ks[..i] + ks[i + 1..]
  {
    if i == 0 {
      DropFacts(ks[1..], ks[0]);
    } else {
      DropAt(ks[1..], i - 1);
      assert ks[1..][..i - 1] == ks[1..i];
      assert [ks[0]] + ks[1..i] == ks[..i];
    }
  }

  function LastTouch(touches: seq<CacheKey>, k: CacheKey): int {
    if touches == [] then -1
    else if touches[|touches| - 1] == k then |touches| - 1 else LastTouch(touches[..|touches| - 1], k)
  }

  // Recency is what its name says: each touched key once, ordered by last touch.
  lemma {:induction false} RecencyOrders(touches: seq<CacheKey>)
    ensures DistinctSeq(Recency(touches))
    ensures forall k :: k in Recency(touches) <==> k in touches
    ensures forall i, j :: 0 <= i < j < |Recency(touches)| ==>
      LastTouch(touches, Recency(touches)[i]) > LastTouch(touches, Recency(touches)[j])
  {
    if touches != [] {
      var n := |touches| - 1;
      var init, k := touches[..n], touches[n];
      RecencyOrders(init);
      DropFacts(Recency(init), k);
      assert touches == init + [k];
      DropKeepsOrder(init, Recency(init), k);
      forall x ensures LastTouch(init, x) < n { LastTouchBelow(init, x); }
    }
  }

  lemma {:induction false} LastTouchBelow(touches: seq<CacheKey>, k: CacheKey)
    ensures LastTouch(touches, k) < |touches|
  {
    if touches != [] { LastTouchBelow(touches[..|touches| - 1], k); }
  }

  lemma {:induction false} DropKeepsOrder(touches: seq<CacheKey>, ks: seq<CacheKey>, k: CacheKey)
    requires forall i, j :: 0 <= i < j < |ks| ==> LastTouch(touches, ks[i]) > LastTouch(touches, ks[j])
    ensures forall i, j :: 0 <= i < j < |Drop(ks, k)| ==>
      LastTouch(touches, Drop(ks, k)[i]) > LastTouch(touches, Drop(ks, k)[j])
  {
    if ks != [] {
      DropKeepsOrder(touches, ks[1..], k);
      DropFacts(ks[1..], k);
      assert forall x :: x in ks[1..] ==> LastTouch(touches, ks[0]) > LastTouch(touches, x);
    }
  }

  // Touching a key commutes with cutting the list to capacity.
  lemma TakeTouch(ks: seq<CacheKey>, k: CacheKey, n: nat)
    requires n > 0 && DistinctSeq(ks)
    ensures Take([k] + Drop(Take(ks, n), k), n) == Take([k] + Drop(ks, k), n)
  {
    hide Drop;
    var cut := Take(ks, n);
    DropFacts(ks, k);
    DropFacts(cut, k);
    if k in cut {
      var i :| 0 <= i < |cut| && cut[i] == k;
      DropAt(ks, i);
      DropAt(cut, i);
      assert forall m :: 0 <= m < |cut| - 1 ==> Drop(cut, k)[m] == Drop(ks, k)[m];
    } else if k in ks {
      var i :| 0 <= i < |ks| && ks[i] == k;
      assert i >= n;
      DropAt(ks, i);
    }
  }

  lemma {:induction false} KeysWithout(es: seq<CacheEntry>, k: CacheKey)
    ensures KeysOf(Without(es, k)) == Drop(KeysOf(es), k)
  {
    if es != [] {
      KeysWithout(es[1..], k);
      assert KeysOf(es)[1..] == KeysOf(es[1..]);
    }
  }

  // After any run of gets and puts the list holds exactly the `capacity` (or
  // fewer) most recently touched distinct keys, in recency order.
  lemma {:induction false} CacheIsRecency(capacity: nat, ops: seq<Op>)
    requires capacity > 0
    ensures KeysOf(RunEntries(capacity, ops)) == Take(Recency(Touches(capacity, ops)), capacity)
    ensures |RunEntries(capacity, ops)| <= capacity && DistinctKeys(RunEntries(capacity, ops))
  {
    if ops != [] {
      hide Without, Drop, Recency, Find;
      var n := |ops| - 1;
      var init, op := ops[..n], ops[n];
      CacheIsRecency(capacity, init);
      var es, t := RunEntries(capacity, init), Touches(capacity, init);
      RecencyOrders(t);
      KeysWithout(es, op.key);
      WithoutFacts(es, op.key);
      FindNone(es, op.key);
      RecencyAppend(t, op.key);
      TakeTouch(Recency(t), op.key, capacity);
      var ks := KeysOf(es);
      assert op.key in ks <==> Find(es, op.key).Some? by {
        if op.key in ks { var i :| 0 <= i < |ks| && ks[i] == op.key; assert es[i].key == op.key; }
        if Find(es, op.key).Some? {
          var i :| 0 <= i < |es| && es[i] == CacheEntry(op.key, Find(es, op.key).value);
          assert ks[i] == op.key;
        }
      }
      TouchedEntries(es, op.key, capacity);
    }
  }

  lemma RecencyAppend(t: seq<CacheKey>, k: CacheKey)
    ensures Recency(t + [k]) == [k] + Drop(Recency(t), k)
  {
    assert (t + [k])[..|t|] == t;
  }

  lemma TouchedEntries(es: seq<CacheEntry>, k: CacheKey, capacity: nat)
    requires DistinctKeys(es) && |es| <= capacity && capacity > 0
    ensures forall g :: KeysOf([CacheEntry(k, g)] + Without(es, k)) == [k] + KeysOf(Without(es, k))
    ensures forall g :: DistinctKeys([CacheEntry(k, g)] + Without(es, k))
    ensures Find(es, k).Some? ==> |Without(es, k)| < capacity
  {
    hide Without, Find;
    WithoutFacts(es, k);
    FindNone(es, k);
    if Find(es, k).Some? {
      var i :| 0 <= i < |es| && es[i] == CacheEntry(k, Find(es, k).value);
      WithoutAt(es, i);
    }
  }

  function LastPut(ops: seq<Op>, k: CacheKey): Option<Subgraph> {
    if ops == [] then None
    else
      match ops[|ops| - 1]
      case PutOp(x, g) => if x == k then Some(g) else LastPut(ops[..|ops| - 1], k)
      case GetOp(_) => LastPut(ops[..|ops| - 1], k)
  }

  lemma {:induction false} FindWithout(es: seq<CacheEntry>, k: CacheKey, x: CacheKey)
    ensures Find(Without(es, k), x) == if x == k then None else Find(es, x)
  {
    if es != [] { FindWithout(es[1..], k, x); }
  }

  lemma {:induction false} FindInPrefix(es: seq<CacheEntry>, n: nat, x: CacheKey)
    requires n <= |es|
    ensures Find(es[..n], x).Some? ==> Find(es, x) == Find(es[..n], x)
  {
    if es != [] && n > 0 {
      FindInPrefix(es[1..], n - 1, x);
      assert es[..n][1..] == es[1..][..n - 1];
    }
  }

  // What a key finds in the cache is what was last put under it.
  lemma {:induction false} CacheHoldsLastPut(capacity: nat, ops: seq<Op>, k: CacheKey)
    ensures Find(RunEntries(capacity, ops), k).Some? ==> Find(RunEntries(capacity, ops), k) == LastPut(ops, k)
  {
    if ops != [] {
      hide Without, Find;
      var n := |ops| - 1;
      var init, op := ops[..n], ops[n];
      CacheHoldsLastPut(capacity, init, k);
      var es := RunEntries(capacity, init);
      match op {
        case PutOp(x, g) =>
          var out := [CacheEntry(x, g)] + Without(es, x);
          FindFirst(CacheEntry(x, g), Without(es, x), k);
          FindWithout(es, x, k);
          FindInPrefix(out, if |out| > capacity then capacity else |out|, k);
          assert out[..|out|] == out;
        case GetOp(x) =>
          if Find(es, x).Some? {
            FindFirst(CacheEntry(x, Find(es, x).value), Without(es, x), k);
            FindWithout(es, x, k);
          }
      }
    }
  }

  lemma FindFirst(e: CacheEntry, es: seq<CacheEntry>, k: CacheKey)
    ensures Find([e] + es, k) == if e.key == k then Some(e.subgraph) else Find(es, k)
  {
    assert ([e] + es)[1..] == es;
  }
}
