/** The trends screen: per-key sums built by mutating a dictionary in a
    loop, and the entry with the largest sum picked by a reduce that only
    moves on a strictly larger value, so the first maximum in entry order
    wins. A dictionary keyed by strings (flavour and user ids) lists its
    entries in insertion order; one keyed by small integers (weekday,
    month, hour) lists them in ascending key order. */
module Trends {
  import opened Js
  import opened Records

  /** A weighted item, or a dictionary entry: a key and a number. */
  datatype Entry<K> = Entry(key: K, value: real)

  // ------------------------------------------------------------------
  // Weighted items and their sums

  /** Whether some item carries key k. */
  predicate HasKey<K(==)>(items: seq<Entry<K>>, k: K)
  {
    exists i :: 0 <= i < |items| && items[i].key == k
  }

  /** The sum of the weights of the items with key k. */
  function SumFor<K(==)>(items: seq<Entry<K>>, k: K): real
  {
    if items == [] then 0.0
    else
      var last := items[|items| - 1];
      SumFor(items[..|items| - 1], k) + (if last.key == k then last.value else 0.0)
  }

  /** The sum of all the weights. */
  function SumAll<K>(items: seq<Entry<K>>): real
  {
    if items == [] then 0.0 else SumAll(items[..|items| - 1]) + items[|items| - 1].value
  }

  lemma {:induction false} SumForAbsent<K>(items: seq<Entry<K>>, k: K)
    requires !HasKey(items, k)
    ensures SumFor(items, k) == 0.0
  {
    if items != [] {
      var init := items[..|items| - 1];
      assert !HasKey(init, k) by {
        forall i | 0 <= i < |init| ensures init[i].key != k {
          assert init[i] == items[i];
        }
      }
      SumForAbsent(init, k);
    }
  }

  lemma HasKeyStep<K>(items: seq<Entry<K>>, k: K)
    requires items != []
    ensures HasKey(items, k) <==> HasKey(items[..|items| - 1], k) || items[|items| - 1].key == k
  {
    var init := items[..|items| - 1];
    if HasKey(items, k) && items[|items| - 1].key != k {
      var i :| 0 <= i < |items| && items[i].key == k;
      assert init[i].key == k;
    }
    if HasKey(init, k) {
      var i :| 0 <= i < |init| && init[i].key == k;
      assert items[i].key == k;
    }
  }

  // ------------------------------------------------------------------
  // A string-keyed dictionary as its entry list
  // (HasKey, SumFor and SumAll above serve the entry lists too.)

  predicate DistinctKeys<K(==)>(e: seq<Entry<K>>)
  {
    forall i, j :: 0 <= i < j < |e| ==> e[i].key != e[j].key
  }

  /** The position of key k among the entries, |e| when it is absent. */
  function KeyIndex<K(==)>(e: seq<Entry<K>>, k: K): (i: nat)
    ensures i <= |e|
    ensures forall j :: 0 <= j < i ==> e[j].key != k
    ensures i < |e| ==> e[i].key == k
  {
    if e == [] || e[0].key == k then 0 else 1 + KeyIndex(e[1..], k)
  }

  /** `dict[k] || 0`. */
  function Lookup<K(==)>(e: seq<Entry<K>>, k: K): real
  {
    var i := KeyIndex(e, k);
    if i < |e| then e[i].value else 0.0
  }

  /** `dict[k] = (dict[k] || 0) + x`: the entry is updated in place, or
      added at the end when the key is new. */
  function Bump<K(==)>(e: seq<Entry<K>>, k: K, x: real): seq<Entry<K>>
  {
    var i := KeyIndex(e, k);
    if i < |e| then e[i := Entry(k, e[i].value + x)] else e + [Entry(k, x)]
  }

  lemma KeyIndexAbsent<K>(e: seq<Entry<K>>, k: K)
    ensures KeyIndex(e, k) < |e| <==> HasKey(e, k)
  {
  }

  /** Bumping adds x to key k's sum only, and keeps the keys distinct. */
  lemma BumpSpec<K>(e: seq<Entry<K>>, k: K, x: real)
    requires DistinctKeys(e)
    ensures var r := Bump(e, k, x);
      && DistinctKeys(r)
      && (forall k' :: HasKey(r, k') <==> HasKey(e, k') || k' == k)
      && (forall k' :: Lookup(r, k') == Lookup(e, k') + (if k' == k then x else 0.0))
  {
    var i := KeyIndex(e, k);
    var r := Bump(e, k, x);
    forall k' ensures HasKey(r, k') <==> HasKey(e, k') || k' == k {
      if HasKey(r, k') {
        var j :| 0 <= j < |r| && r[j].key == k';
        if j < |e| { assert e[j].key == k'; }
      }
      if HasKey(e, k') {
        var j :| 0 <= j < |e| && e[j].key == k';
        assert r[j].key == k';
      }
      if k' == k {
        if i < |e| { assert r[i].key == k; } else { assert r[|e|].key == k; }
      }
    }
    forall k' ensures Lookup(r, k') == Lookup(e, k') + (if k' == k then x else 0.0) {
      var a := KeyIndex(e, k');
      var b := KeyIndex(r, k');
      if a < |e| {
        assert r[a].key == k';
        assert b == a;
      } else if k' == k {
        assert r[|e|].key == k;
        assert b == |e|;
      } else {
        assert !HasKey(r, k') by {
          assert !HasKey(e, k');
        }
      }
    }
  }

  /** The dictionary after adding every item's weight to its key. */
  function TallyOf<K(==)>(items: seq<Entry<K>>): seq<Entry<K>>
  {
    if items == [] then []
    else
      var last := items[|items| - 1];
      Bump(TallyOf(items[..|items| - 1]), last.key, last.value)
  }

  /** One entry per key that occurs, and each entry holds its key's sum. */
  lemma {:induction false} TallyOfSpec<K>(items: seq<Entry<K>>)
    ensures DistinctKeys(TallyOf(items))
    ensures forall k :: HasKey(TallyOf(items), k) <==> HasKey(items, k)
    ensures forall k :: Lookup(TallyOf(items), k) == SumFor(items, k)
  {
    if items != [] {
      var init := items[..|items| - 1];
      var last := items[|items| - 1];
      TallyOfSpec(init);
      BumpSpec(TallyOf(init), last.key, last.value);
      forall k ensures HasKey(items, k) <==> HasKey(init, k) || last.key == k {
        HasKeyStep(items, k);
      }
    }
  }

  /** With distinct keys every entry holds what Lookup finds for its key. */
  lemma LookupAt<K>(e: seq<Entry<K>>, i: nat)
    requires DistinctKeys(e) && i < |e|
    ensures Lookup(e, e[i].key) == e[i].value
  {
    assert KeyIndex(e, e[i].key) == i;
  }

  lemma {:induction false} SumAllAppend<K>(a: seq<Entry<K>>, b: seq<Entry<K>>)
    ensures SumAll(a + b) == SumAll(a) + SumAll(b)
  {
    if b != [] {
      assert (a + b)[..|a + b| - 1] == a + b[..|b| - 1];
      SumAllAppend(a, b[..|b| - 1]);
    } else {
      assert a + b == a;
    }
  }

  lemma SumAllUpdate<K>(e: seq<Entry<K>>, i: nat, p: Entry<K>)
    requires i < |e|
    ensures SumAll(e[i := p]) == SumAll(e) - e[i].value + p.value
  {
    assert e == e[..i] + [e[i]] + e[i + 1..];
    assert e[i := p] == e[..i] + [p] + e[i + 1..];
    SumAllAppend(e[..i] + [e[i]], e[i + 1..]);
    SumAllAppend(e[..i] + [p], e[i + 1..]);
    SumAllAppend(e[..i], [e[i]]);
    SumAllAppend(e[..i], [p]);
    assert SumAll([p]) == SumAll<K>([]) + p.value;
    assert SumAll([e[i]]) == SumAll<K>([]) + e[i].value;
  }

  /** Every weight lands in exactly one entry, so the entries add up to
      the sum of all the weights. */
  lemma {:induction false} TallyOfTotal<K>(items: seq<Entry<K>>)
    ensures SumAll(TallyOf(items)) == SumAll(items)
  {
    if items != [] {
      var init := items[..|items| - 1];
      var last := items[|items| - 1];
      TallyOfTotal(init);
      var e := TallyOf(init);
      var i := KeyIndex(e, last.key);
      assert SumAll(items) == SumAll(init) + last.value;
      if i < |e| {
        assert TallyOf(items) == e[i := Entry(last.key, e[i].value + last.value)];
        SumAllUpdate(e, i, Entry(last.key, e[i].value + last.value));
      } else {
        var t := e + [Entry(last.key, last.value)];
        assert TallyOf(items) == t;
        assert t[..|t| - 1] == e;
      }
    }
  }

  /** The forEach that fills a string-keyed dictionary. */
  method Tally<K(==)>(items: seq<Entry<K>>) returns (e: seq<Entry<K>>)
    ensures e == TallyOf(items)
  {
    e := [];
    var i := 0;
    while i < |items|
      invariant 0 <= i <= |items|
      invariant e == TallyOf(items[..i])
    {
      assert items[..i + 1][..i] == items[..i];
      e := Bump(e, items[i].key, items[i].value);
      i := i + 1;
    }
    assert items[..i] == items;
  }

  // ------------------------------------------------------------------
  // A small-integer-keyed dictionary

  /** The entries of a dictionary keyed by 0..n-1 after adding every
      item's weight to its key, in ascending key order. */
  function BucketsBelow(items: seq<Entry<int>>, n: nat): seq<Entry<int>>
  {
    if n == 0 then []
    else BucketsBelow(items, n - 1) + (if HasKey(items, n - 1) then [Entry(n - 1, SumFor(items, n - 1))] else [])
  }

  /** The bucket keys lie below n and ascend. */
  lemma {:induction false} BucketsBelowKeys(items: seq<Entry<int>>, n: nat)
    ensures forall i :: 0 <= i < |BucketsBelow(items, n)| ==> 0 <= BucketsBelow(items, n)[i].key < n
    ensures forall i, j :: 0 <= i < j < |BucketsBelow(items, n)| ==>
      BucketsBelow(items, n)[i].key < BucketsBelow(items, n)[j].key
  {
    if n > 0 {
      BucketsBelowKeys(items, n - 1);
      var a := BucketsBelow(items, n - 1);
      var extra := if HasKey(items, n - 1) then [Entry(n - 1, SumFor(items, n - 1))] else [];
      var b := a + extra;
      assert BucketsBelow(items, n) == b;
      forall i | 0 <= i < |b| ensures 0 <= b[i].key < n {
        if i < |a| {
          assert b[i] == a[i];
        } else {
          assert b[i] == extra[0];
        }
      }
      forall i, j | 0 <= i < j < |b| ensures b[i].key < b[j].key {
        assert b[i] == a[i];
        if j < |a| {
          assert b[j] == a[j];
        } else {
          assert b[j] == extra[0];
        }
      }
    }
  }

  /** Each bucket holds a key that occurs and that key's sum. */
  lemma {:induction false} BucketsBelowSums(items: seq<Entry<int>>, n: nat)
    ensures forall i :: 0 <= i < |BucketsBelow(items, n)| ==>
      HasKey(items, BucketsBelow(items, n)[i].key) && BucketsBelow(items, n)[i].value == SumFor(items, BucketsBelow(items, n)[i].key)
  {
    if n > 0 {
      BucketsBelowSums(items, n - 1);
      var a := BucketsBelow(items, n - 1);
      var extra := if HasKey(items, n - 1) then [Entry(n - 1, SumFor(items, n - 1))] else [];
      var b := a + extra;
      assert BucketsBelow(items, n) == b;
      forall i | 0 <= i < |b| ensures HasKey(items, b[i].key) && b[i].value == SumFor(items, b[i].key) {
        if i < |a| {
          assert b[i] == a[i];
        } else {
          assert b[i] == extra[0];
        }
      }
    }
  }

  /** Every key below n that occurs has a bucket. */
  lemma {:induction false} BucketsBelowCovers(items: seq<Entry<int>>, n: nat)
    ensures forall k :: 0 <= k < n && HasKey(items, k) ==> HasKey(BucketsBelow(items, n), k)
  {
    if n > 0 {
      BucketsBelowCovers(items, n - 1);
      var a := BucketsBelow(items, n - 1);
      var b := BucketsBelow(items, n);
      forall k | 0 <= k < n && HasKey(items, k) ensures HasKey(b, k) {
        if k < n - 1 {
          var i :| 0 <= i < |a| && a[i].key == k;
          assert b[i].key == k;
        } else {
          assert b[|a|].key == k;
        }
      }
    }
  }

  /** Ascending keys below n, one entry per key that occurs, each holding
      its key's sum. */
  lemma BucketsBelowSpec(items: seq<Entry<int>>, n: nat)
    ensures var b := BucketsBelow(items, n);
      && (forall i, j :: 0 <= i < j < |b| ==> b[i].key < b[j].key)
      && (forall i :: 0 <= i < |b| ==> 0 <= b[i].key < n && HasKey(items, b[i].key) && b[i].value == SumFor(items, b[i].key))
      && (forall k :: 0 <= k < n && HasKey(items, k) ==> HasKey(b, k))
  {
    BucketsBelowKeys(items, n);
    BucketsBelowSums(items, n);
    BucketsBelowCovers(items, n);
  }

  /** The sum over the keys 0..n-1 of each key's sum. */
  function KeySums(items: seq<Entry<int>>, n: nat): real
  {
    if n == 0 then 0.0 else KeySums(items, n - 1) + SumFor(items, n - 1)
  }

  lemma {:induction false} BucketsBelowTotal(items: seq<Entry<int>>, n: nat)
    ensures SumAll(BucketsBelow(items, n)) == KeySums(items, n)
  {
    if n > 0 {
      BucketsBelowTotal(items, n - 1);
      var extra := if HasKey(items, n - 1) then [Entry(n - 1, SumFor(items, n - 1))] else [];
      SumAllAppend(BucketsBelow(items, n - 1), extra);
      if !HasKey(items, n - 1) {
        SumForAbsent(items, n - 1);
      } else {
        assert SumAll(extra) == SumAll<int>([]) + SumFor(items, n - 1);
      }
    }
  }

  lemma {:induction false} KeySumsStep(items: seq<Entry<int>>, p: Entry<int>, n: nat)
    ensures KeySums(items + [p], n) == KeySums(items, n) + (if 0 <= p.key < n then p.value else 0.0)
  {
    if n > 0 {
      KeySumsStep(items, p, n - 1);
      assert (items + [p])[..|items + [p]| - 1] == items;
    }
  }

  /** When every key is below n, every weight is in some bucket and the
      buckets add up to the sum of all the weights. */
  lemma {:induction false} BucketsTotal(items: seq<Entry<int>>, n: nat)
    requires forall i :: 0 <= i < |items| ==> 0 <= items[i].key < n
    ensures SumAll(BucketsBelow(items, n)) == SumAll(items)
  {
    BucketsBelowTotal(items, n);
    KeySumsAll(items, n);
  }

  lemma {:induction false} KeySumsAll(items: seq<Entry<int>>, n: nat)
    requires forall i :: 0 <= i < |items| ==> 0 <= items[i].key < n
    ensures KeySums(items, n) == SumAll(items)
  {
    if items == [] {
      KeySumsEmpty(n);
    } else {
      var init := items[..|items| - 1];
      var last := items[|items| - 1];
      KeySumsAll(init, n);
      assert items == init + [last];
      KeySumsStep(init, last, n);
    }
  }

  lemma {:induction false} KeySumsEmpty(n: nat)
    ensures KeySums([], n) == 0.0
  {
    if n > 0 {
      KeySumsEmpty(n - 1);
    }
  }

  /** The forEach that fills a dictionary keyed by 0..n-1, held as one
      slot per key with a flag for the keys already present, followed by
      Object.entries. */
  method Buckets(items: seq<Entry<int>>, n: nat) returns (e: seq<Entry<int>>)
    requires forall i :: 0 <= i < |items| ==> 0 <= items[i].key < n
    ensures e == BucketsBelow(items, n)
  {
    var sums := seq(n, _ => 0.0);
    var seen := seq(n, _ => false);
    var i := 0;
    while i < |items|
      invariant 0 <= i <= |items| && |sums| == n && |seen| == n
      invariant forall k :: 0 <= k < n ==> sums[k] == SumFor(items[..i], k)
      invariant forall k :: 0 <= k < n ==> (seen[k] <==> HasKey(items[..i], k))
    {
      var k := items[i].key;
      assert items[..i + 1][..i] == items[..i];
      forall k' | 0 <= k' < n ensures HasKey(items[..i + 1], k') <==> HasKey(items[..i], k') || k == k' {
        HasKeyStep(items[..i + 1], k');
      }
      sums := sums[k := sums[k] + items[i].value];
      seen := seen[k := true];
      i := i + 1;
    }
    assert items[..i] == items;
    e := [];
    var k := 0;
    while k < n
      invariant 0 <= k <= n
      invariant e == BucketsBelow(items, k)
    {
      if seen[k] {
        e := e + [Entry(k, sums[k])];
      }
      k := k + 1;
    }
  }

  // ------------------------------------------------------------------
  // The leader

  /** `entries.reduce((a, b) => b[1] > a[1] ? b : a)`: the position of the
      first entry with the largest value. */
  function Leader<K>(e: seq<Entry<K>>): (i: nat)
    requires |e| > 0
    ensures i < |e|
    ensures forall j :: 0 <= j < |e| ==> e[j].value <= e[i].value
    ensures forall j :: 0 <= j < i ==> e[j].value < e[i].value
  {
    if |e| == 1 then 0
    else
      var p := Leader(e[..|e| - 1]);
      if e[|e| - 1].value > e[p].value then |e| - 1 else p
  }

  /** The leader of a tally holds a key that occurs and its sum, and no
      key's sum is larger. */
  lemma TallyLeader<K>(items: seq<Entry<K>>)
    requires items != []
    ensures var e := TallyOf(items);
      |e| > 0 && HasKey(items, e[Leader(e)].key) && e[Leader(e)].value == SumFor(items, e[Leader(e)].key)
      && forall k :: HasKey(items, k) ==> SumFor(items, k) <= e[Leader(e)].value
  {
    TallyOfSpec(items);
    var e := TallyOf(items);
    assert HasKey(items, items[0].key);
    var i := Leader(e);
    LookupAt(e, i);
    forall k | HasKey(items, k) ensures SumFor(items, k) <= e[i].value {
      var j := KeyIndex(e, k);
      LookupAt(e, j);
    }
  }

  /** The leader of the buckets holds a key that occurs and its sum, and
      no key's sum is larger. */
  lemma BucketsLeader(items: seq<Entry<int>>, n: nat)
    requires items != [] && forall i :: 0 <= i < |items| ==> 0 <= items[i].key < n
    ensures var b := BucketsBelow(items, n);
      |b| > 0 && 0 <= b[Leader(b)].key < n && HasKey(items, b[Leader(b)].key)
      && b[Leader(b)].value == SumFor(items, b[Leader(b)].key)
      && forall k :: HasKey(items, k) ==> SumFor(items, k) <= b[Leader(b)].value
  {
    BucketsBelowSpec(items, n);
    var b := BucketsBelow(items, n);
    assert HasKey(items, items[0].key);
    assert HasKey(b, items[0].key);
    var i := Leader(b);
    forall k | HasKey(items, k) ensures SumFor(items, k) <= b[i].value {
      var j :| 0 <= j < |items| && items[j].key == k;
      assert HasKey(b, k);
      var m :| 0 <= m < |b| && b[m].key == k;
    }
  }

  /** Ties go to the smallest key: every smaller key that occurs has a
      strictly smaller sum than the leader's. */
  lemma BucketsLeaderFirst(items: seq<Entry<int>>, n: nat)
    requires BucketsBelow(items, n) != []
    ensures var b := BucketsBelow(items, n);
      forall k :: 0 <= k < b[Leader(b)].key && HasKey(items, k) ==> SumFor(items, k) < b[Leader(b)].value
  {
    BucketsBelowSpec(items, n);
    var b := BucketsBelow(items, n);
    var i := Leader(b);
    forall k | 0 <= k < b[i].key && HasKey(items, k) ensures SumFor(items, k) < b[i].value {
      assert HasKey(b, k);
      var m :| 0 <= m < |b| && b[m].key == k;
      assert m < i;
    }
  }

  // ------------------------------------------------------------------
  // The five trends

  /** `Object.values(detallesMap).flat()`: the details of each sale in
      turn, in sale order. */
  function SoldDetails(sales: seq<Sale>, details: seq<Detail>): seq<Detail>
  {
    if sales == [] then []
    else SoldDetails(sales[..|sales| - 1], details) + DetailsOf(details, sales[|sales| - 1].id)
  }

  /** `sabores.find(s => s.ID_Sabor === id)?.Nombre_Sabor || "Desconocido"`. */
  function ProductName(flavors: seq<Flavor>, id: string): (name: string)
    ensures forall i :: 0 <= i < |flavors| && flavors[i].id == id && (forall j :: 0 <= j < i ==> flavors[j].id != id) ==>
      name == if flavors[i].name != "" then flavors[i].name else "Desconocido"
    ensures (forall i :: 0 <= i < |flavors| ==> flavors[i].id != id) ==> name == "Desconocido"
  {
    if flavors == [] then "Desconocido"
    else if flavors[0].id == id then (if flavors[0].name != "" then flavors[0].name else "Desconocido")
    else
      var rest := flavors[1..];
      assert forall i :: 1 <= i < |flavors| ==> rest[i - 1] == flavors[i];
      ProductName(rest, id)
  }

  /** `usuarios.find(u => u.ID_Usuario === id)?.Nombre || "Anónimo"`. */
  function UserName(users: seq<User>, id: string): (name: string)
    ensures forall i :: 0 <= i < |users| && users[i].id == id && (forall j :: 0 <= j < i ==> users[j].id != id) ==>
      name == if users[i].name != "" then users[i].name else "Anónimo"
    ensures (forall i :: 0 <= i < |users| ==> users[i].id != id) ==> name == "Anónimo"
  {
    if users == [] then "Anónimo"
    else if users[0].id == id then (if users[0].name != "" then users[0].name else "Anónimo")
    else
      var rest := users[1..];
      assert forall i :: 1 <= i < |users| ==> rest[i - 1] == users[i];
      UserName(rest, id)
  }

  /** Each detail as (flavour, quantity sold). */
  function QuantityItems(ds: seq<Detail>): (items: seq<Entry<string>>)
    ensures |items| == |ds|
    ensures forall i :: 0 <= i < |ds| ==> items[i] == Entry(ds[i].flavorId, ds[i].qty as real)
  {
    seq(|ds|, i requires 0 <= i < |ds| => Entry(ds[i].flavorId, ds[i].qty as real))
  }

  /** topProduct: the flavour with the most units sold and that number,
      "N/A" and 0 when nothing was sold. */
  method TopProduct(sales: seq<Sale>, details: seq<Detail>, flavors: seq<Flavor>) returns (name: string, qty: real)
    ensures var items := QuantityItems(SoldDetails(sales, details));
      && (items == [] ==> name == "N/A" && qty == 0.0)
      && (items != [] ==>
            var e := TallyOf(items);
            |e| > 0 && name == ProductName(flavors, e[Leader(e)].key) && qty == e[Leader(e)].value
            && HasKey(items, e[Leader(e)].key) && qty == SumFor(items, e[Leader(e)].key)
            && forall id :: HasKey(items, id) ==> SumFor(items, id) <= qty)
  {
    var items := QuantityItems(SoldDetails(sales, details));
    var e := Tally(items);
    if items != [] {
      TallyLeader(items);
    }
    if |e| == 0 {
      return "N/A", 0.0;
    }
    var i := Leader(e);
    name, qty := ProductName(flavors, e[i].key), e[i].value;
  }

  /** Each sale as (its bucket key, its total). */
  function TotalItems(sales: seq<Sale>, keys: seq<int>): (items: seq<Entry<int>>)
    requires |keys| == |sales|
    ensures |items| == |sales|
    ensures forall i :: 0 <= i < |sales| ==> items[i] == Entry(keys[i], sales[i].total)
  {
    seq(|sales|, i requires 0 <= i < |sales| => Entry(keys[i], sales[i].total))
  }

  /** The bucket whose sales add up to the most, the first such key in
      ascending order on ties. */
  method TopBucket(sales: seq<Sale>, keys: seq<int>, n: nat) returns (found: bool, key: int)
    requires |keys| == |sales| && forall i :: 0 <= i < |keys| ==> 0 <= keys[i] < n
    ensures found <==> sales != []
    ensures found ==>
      var items := TotalItems(sales, keys);
      var b := BucketsBelow(items, n);
      |b| > 0 && key == b[Leader(b)].key && 0 <= key < n && HasKey(items, key)
      && (forall k :: HasKey(items, k) ==> SumFor(items, k) <= SumFor(items, key))
      && forall k :: 0 <= k < key && HasKey(items, k) ==> SumFor(items, k) < SumFor(items, key)
  {
    var items := TotalItems(sales, keys);
    var b := Buckets(items, n);
    BucketsBelowSpec(items, n);
    if sales != [] {
      BucketsLeader(items, n);
      BucketsLeaderFirst(items, n);
    }
    if |b| == 0 {
      return false, 0;
    }
    found, key := true, b[Leader(b)].key;
  }

  const DayNames: seq<string> := ["Domingo", "Lunes", "Martes", "Miércoles", "Jueves", "Viernes", "Sábado"]

  const MonthNames: seq<string> := ["Enero", "Febrero", "Marzo", "Abril", "Mayo", "Junio", "Julio",
                                    "Agosto", "Septiembre", "Octubre", "Noviembre", "Diciembre"]

  /** topDay, with `days[k]` the weekday (0 = Sunday) of sale k. */
  method TopDay(sales: seq<Sale>, days: seq<int>) returns (title: string)
    requires |days| == |sales| && forall i :: 0 <= i < |days| ==> 0 <= days[i] < 7
    ensures sales == [] ==> title == "N/A"
    ensures sales != [] ==> exists d :: (0 <= d < 7 && title == DayNames[d]
      && HasKey(TotalItems(sales, days), d)
      && (forall k :: HasKey(TotalItems(sales, days), k) ==>
            SumFor(TotalItems(sales, days), k) <= SumFor(TotalItems(sales, days), d))
      && forall k :: 0 <= k < d && HasKey(TotalItems(sales, days), k) ==>
           SumFor(TotalItems(sales, days), k) < SumFor(TotalItems(sales, days), d))
  {
    var found, d := TopBucket(sales, days, 7);
    title := if found then DayNames[d] else "N/A";
  }

  /** topMonth, with `months[k]` the month (0 = January) of sale k. */
  method TopMonth(sales: seq<Sale>, months: seq<int>) returns (title: string)
    requires |months| == |sales| && forall i :: 0 <= i < |months| ==> 0 <= months[i] < 12
    ensures sales == [] ==> title == "N/A"
    ensures sales != [] ==> exists m :: (0 <= m < 12 && title == MonthNames[m]
      && HasKey(TotalItems(sales, months), m)
      && (forall k :: HasKey(TotalItems(sales, months), k) ==>
            SumFor(TotalItems(sales, months), k) <= SumFor(TotalItems(sales, months), m))
      && forall k :: 0 <= k < m && HasKey(TotalItems(sales, months), k) ==>
           SumFor(TotalItems(sales, months), k) < SumFor(TotalItems(sales, months), m))
  {
    var found, m := TopBucket(sales, months, 12);
    title := if found then MonthNames[m] else "N/A";
  }

  /** The title of hour h, "h:00–h+1:00". */
  function HourLabel(h: int): string
  {
    IntToString(h) + ":00–" + IntToString(ParseIntAutoOrZero(IntToString(h)) + 1) + ":00"
  }

  /** The key is read back as the number it was written from. */
  lemma HourLabelOf(h: int)
    ensures HourLabel(h) == IntToString(h) + ":00–" + IntToString(h + 1) + ":00"
  {
    ParseIntAutoRoundTrip(h);
  }

  /** topHour, with `hours[k]` the hour of day of sale k. */
  method TopHour(sales: seq<Sale>, hours: seq<int>) returns (title: string)
    requires |hours| == |sales| && forall i :: 0 <= i < |hours| ==> 0 <= hours[i] < 24
    ensures sales == [] ==> title == "N/A"
    ensures sales != [] ==> exists h :: (0 <= h < 24 && title == HourLabel(h)
      && HasKey(TotalItems(sales, hours), h)
      && (forall k :: HasKey(TotalItems(sales, hours), k) ==>
            SumFor(TotalItems(sales, hours), k) <= SumFor(TotalItems(sales, hours), h))
      && forall k :: 0 <= k < h && HasKey(TotalItems(sales, hours), k) ==>
           SumFor(TotalItems(sales, hours), k) < SumFor(TotalItems(sales, hours), h))
  {
    var found, h := TopBucket(sales, hours, 24);
    title := if found then HourLabel(h) else "N/A";
  }

  /** `if (v.ID_Usuario)`: a user id that is present and not empty. */
  predicate HasUser(s: Sale)
  {
    s.userId.Some? && s.userId.value != ""
  }

  /** The sales that name a user, as (user, total). */
  function UserItems(sales: seq<Sale>): (items: seq<Entry<string>>)
    ensures |items| <= |sales|
    ensures (forall i :: 0 <= i < |sales| ==> !HasUser(sales[i])) ==> items == []
    ensures forall i :: 0 <= i < |sales| && HasUser(sales[i]) ==> Entry(sales[i].userId.value, sales[i].total) in items
    ensures forall e :: e in items ==>
      exists i :: 0 <= i < |sales| && HasUser(sales[i]) && e == Entry(sales[i].userId.value, sales[i].total)
  {
    if sales == [] then []
    else
      var s := sales[|sales| - 1];
      UserItems(sales[..|sales| - 1]) + (if HasUser(s) then [Entry(s.userId.value, s.total)] else [])
  }

  /** The total of the sales that name user u. */
  function UserTotal(sales: seq<Sale>, u: string): real
  {
    if sales == [] then 0.0
    else
      var s := sales[|sales| - 1];
      UserTotal(sales[..|sales| - 1], u) + (if HasUser(s) && s.userId.value == u then s.total else 0.0)
  }

  /** The user tally's sum for u is the total of u's sales. */
  lemma {:induction false} UserItemsSum(sales: seq<Sale>, u: string)
    ensures SumFor(UserItems(sales), u) == UserTotal(sales, u)
  {
    if sales != [] {
      var init, s := sales[..|sales| - 1], sales[|sales| - 1];
      UserItemsSum(init, u);
      var a := UserItems(init);
      if HasUser(s) {
        var e := Entry(s.userId.value, s.total);
        assert UserItems(sales) == a + [e];
        assert (a + [e])[..|a|] == a;
      } else {
        assert UserItems(sales) == a;
      }
    }
  }

  /** topUser: the user whose sales add up to the most and that total;
      "N/A" and 0 when no sale names a user. */
  method TopUser(sales: seq<Sale>, users: seq<User>) returns (name: string, total: real)
    ensures (forall i :: 0 <= i < |sales| ==> !HasUser(sales[i])) ==> name == "N/A" && total == 0.0
    ensures var items := UserItems(sales);
      items != [] ==>
        var e := TallyOf(items);
        |e| > 0 && name == UserName(users, e[Leader(e)].key) && total == e[Leader(e)].value
        && total == UserTotal(sales, e[Leader(e)].key)
        && forall id :: HasKey(items, id) ==> UserTotal(sales, id) <= total
  {
    var items := UserItems(sales);
    var e := Tally(items);
    if items != [] {
      TallyLeader(items);
      UserItemsSum(sales, e[Leader(e)].key);
      forall id | HasKey(items, id) ensures UserTotal(sales, id) <= e[Leader(e)].value {
        UserItemsSum(sales, id);
      }
    }
    if |e| == 0 {
      return "N/A", 0.0;
    }
    var i := Leader(e);
    name, total := UserName(users, e[i].key), e[i].value;
  }
}
