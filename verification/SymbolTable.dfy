/**
 * The hash table of `hash.c` and the scoped symbol table of `symbol.c` on top.
 *
 * Symbols are addresses and 0 is the null pointer.  A bucket's `prev` is a
 * pointer to a pointer: to a slot of the table, or to the `next` field of the
 * bucket in front.  The hash function is any function of the name.
 *
 * `log` is history: the symbols in the table in the order of their insertion.
 */
module SymbolTable {
  import opened Basics

  const NULL := 0

  datatype Cell = Slot(h: nat) | NextOf(b: int)
  datatype Bucket = Bucket(next: int, prev: Cell)

  /** The part of a `SYM` that matters here; names are kept apart, as the key. */
  datatype Sym = Sym(level: int, isDup: bool, next: int)

  // ---------- What lookups mean ----------

  function Name(names: map<int, string>, s: int): string { if s in names then names[s] else "" }

  /** The most recently inserted symbol of that name, or the null pointer */
  function Lookup(log: seq<int>, names: map<int, string>, key: string): (s: int)
    ensures s != NULL ==> s in log && Name(names, s) == key
  {
    if log == [] then NULL
    else if Name(names, log[|log| - 1]) == key && log[|log| - 1] != NULL then log[|log| - 1]
    else Lookup(log[..|log| - 1], names, key)
  }

  /** What `Lookup` finds has no later namesake, and it misses only names that are not there. */
  lemma {:induction false} LookupIsLatest(log: seq<int>, names: map<int, string>, key: string)
    requires NULL !in log
    ensures var s := Lookup(log, names, key);
            if s == NULL then forall i :: 0 <= i < |log| ==> Name(names, log[i]) != key
            else exists i :: 0 <= i < |log| && log[i] == s && Name(names, s) == key && forall j :: i < j < |log| ==> Name(names, log[j]) != key
  {
    if log != [] {
      var n := |log| - 1;
      if Name(names, log[n]) == key {
        assert log[n] == Lookup(log, names, key);
      } else {
        LookupIsLatest(log[..n], names, key);
        assert forall i :: 0 <= i < n ==> log[..n][i] == log[i];
        var s := Lookup(log, names, key);
        if s != NULL {
          var i :| 0 <= i < n && log[..n][i] == s && forall j :: i < j < n ==> Name(names, log[..n][j]) != key;
          assert log[i] == s && forall j :: i < j < |log| ==> Name(names, log[j]) != key;
        }
      }
    }
  }

  predicate Distinct(log: seq<int>) { forall i, j :: 0 <= i < j < |log| ==> log[i] != log[j] }

  /** The log without some symbols, in the old order */
  function Without(log: seq<int>, gone: set<int>): seq<int> {
    if log == [] then []
    else Without(log[..|log| - 1], gone) + (if log[|log| - 1] in gone then [] else [log[|log| - 1]])
  }

  lemma {:induction false} WithoutHas(log: seq<int>, gone: set<int>, s: int)
    ensures s in Without(log, gone) <==> s in log && s !in gone
  {
    if log != [] {
      WithoutHas(log[..|log| - 1], gone, s);
      assert log == log[..|log| - 1] + [log[|log| - 1]];
    }
  }

  lemma {:induction false} WithoutDistinct(log: seq<int>, gone: set<int>)
    requires Distinct(log)
    ensures Distinct(Without(log, gone))
  {
    if log != [] {
      var n := |log| - 1;
      WithoutDistinct(log[..n], gone);
      WithoutHas(log[..n], gone, log[n]);
      DistinctSnoc(log[..n], log[n]);
    }
  }

  lemma DistinctSnoc(log: seq<int>, s: int)
    requires Distinct(log + [s])
    ensures Distinct(log) && s !in log
  {
    assert forall i :: 0 <= i < |log| ==> (log + [s])[i] == log[i];
    assert (log + [s])[|log|] == s;
  }

  lemma WithoutSnoc(log: seq<int>, s: int, gone: set<int>)
    ensures Without(log + [s], gone) == Without(log, gone) + (if s in gone then [] else [s])
  {
    assert (log + [s])[..|log|] == log;
  }

  lemma {:induction false} WithoutNone(log: seq<int>, gone: set<int>)
    requires forall s :: s in log ==> s !in gone
    ensures Without(log, gone) == log
  {
    if log != [] {
      var n := |log| - 1;
      WithoutNone(log[..n], gone);
      assert log[n] in log && log == log[..n] + [log[n]];
      WithoutSnoc(log[..n], log[n], gone);
    }
  }

  lemma {:induction false} WithoutTwice(log: seq<int>, a: set<int>, b: set<int>)
    ensures Without(Without(log, a), b) == Without(log, a + b)
  {
    if log != [] {
      var front, s := log[..|log| - 1], log[|log| - 1];
      WithoutTwice(front, a, b);
      assert log == front + [s];
      WithoutSnoc(front, s, a);
      WithoutSnoc(front, s, a + b);
      WithoutSnoc(Without(front, a), s, b);
      assert Without(front, a) + [] == Without(front, a);
      assert Without(front, a + b) + [] == Without(front, a + b);
    }
  }

  /** Removing what was added on top leaves what was there. */
  lemma {:induction false} WithoutTop(log: seq<int>, top: seq<int>, gone: set<int>)
    requires (forall s :: s in log ==> s !in gone) && forall s :: s in top ==> s in gone
    ensures Without(log + top, gone) == log
  {
    if top == [] {
      assert log + top == log;
      WithoutNone(log, gone);
    } else {
      var n := |top| - 1;
      assert log + top == (log + top[..n]) + [top[n]];
      WithoutSnoc(log + top[..n], top[n], gone);
      WithoutTop(log, top[..n], gone);
    }
  }

  // ---------- Chains ----------

  /** The symbols of slot `h`, latest first: what the hash chain of the slot must be */
  function Chain(log: seq<int>, names: map<int, string>, hash: string -> nat, size: nat, h: nat): seq<int>
    requires size > 0
  {
    if log == [] then []
    else
      var s := log[|log| - 1];
      (if hash(Name(names, s)) % size == h then [s] else []) + Chain(log[..|log| - 1], names, hash, size, h)
  }

  /** A new symbol comes first in its chain. */
  lemma ChainAdd(log: seq<int>, names: map<int, string>, hash: string -> nat, size: nat, h: nat, s: int)
    requires size > 0
    ensures Chain(log + [s], names, hash, size, h)
            == (if hash(Name(names, s)) % size == h then [s] else []) + Chain(log, names, hash, size, h)
  {
    assert (log + [s])[..|log|] == log;
  }

  lemma {:induction false} ChainHas(log: seq<int>, names: map<int, string>, hash: string -> nat, size: nat, h: nat, s: int)
    requires size > 0
    ensures s in Chain(log, names, hash, size, h) <==> s in log && hash(Name(names, s)) % size == h
  {
    if log != [] {
      ChainHas(log[..|log| - 1], names, hash, size, h, s);
      assert log == log[..|log| - 1] + [log[|log| - 1]];
    }
  }

  lemma {:induction false} ChainDistinct(log: seq<int>, names: map<int, string>, hash: string -> nat, size: nat, h: nat)
    requires size > 0 && Distinct(log)
    ensures Distinct(Chain(log, names, hash, size, h))
  {
    if log != [] {
      var n := |log| - 1;
      ChainDistinct(log[..n], names, hash, size, h);
      ChainHas(log[..n], names, hash, size, h, log[n]);
      assert log[n] !in log[..n];
    }
  }

  /** The first symbol of a chain with that name */
  function FirstNamed(L: seq<int>, names: map<int, string>, key: string): int {
    if L == [] then NULL else if Name(names, L[0]) == key then L[0] else FirstNamed(L[1..], names, key)
  }

  lemma {:induction false} FirstNamedAt(L: seq<int>, names: map<int, string>, key: string, i: nat)
    requires i <= |L| && (forall j :: 0 <= j < i ==> Name(names, L[j]) != key) && (i < |L| ==> Name(names, L[i]) == key)
    ensures FirstNamed(L, names, key) == if i < |L| then L[i] else NULL
  {
    if i > 0 {
      assert forall j :: 0 <= j < i - 1 ==> L[1..][j] == L[j + 1];
      FirstNamedAt(L[1..], names, key, i - 1);
    }
  }

  lemma FirstNamedNext(L: seq<int>, names: map<int, string>, key: string, k: nat)
    requires k < |L|
    ensures FirstNamed(L[k + 1..], names, key)
            == if k + 1 == |L| then NULL else if Name(names, L[k + 1]) == key then L[k + 1] else FirstNamed(L[k + 2..], names, key)
  {
    if k + 1 < |L| { assert L[k + 1..][1..] == L[k + 2..]; }
  }

  /** The first of the name in its chain is the latest of the name in the log. */
  lemma {:induction false} ChainFinds(log: seq<int>, names: map<int, string>, hash: string -> nat, size: nat, key: string)
    requires size > 0 && NULL !in log
    ensures FirstNamed(Chain(log, names, hash, size, hash(key) % size), names, key) == Lookup(log, names, key)
  {
    if log != [] {
      var h, front, s := hash(key) % size, log[..|log| - 1], log[|log| - 1];
      assert log == front + [s] && s in log;
      ChainFinds(front, names, hash, size, key);
      ChainAdd(front, names, hash, size, h, s);
      var c := Chain(front, names, hash, size, h);
      assert [] + c == c && ([s] + c)[1..] == c;
    }
  }

  /** Taking a symbol out of the log takes it out of its chain, and leaves the other chains. */
  lemma {:induction false} ChainWithout(log: seq<int>, names: map<int, string>, hash: string -> nat, size: nat, h: nat, s: int)
    requires size > 0 && Distinct(log)
    ensures Chain(Without(log, {s}), names, hash, size, h) == Without1(Chain(log, names, hash, size, h), s)
  {
    if log != [] {
      var front, x := log[..|log| - 1], log[|log| - 1];
      assert log == front + [x];
      assert Distinct(front) && x !in front;
      hide Distinct;
      ChainWithout(front, names, hash, size, h, s);
      WithoutSnoc(front, x, {s});
      ChainAdd(front, names, hash, size, h, x);
      var c := Chain(front, names, hash, size, h);
      assert [] + c == c && Without(front, {s}) + [] == Without(front, {s}) && [] + Without1(c, s) == Without1(c, s);
      if x == s {
        ChainHas(front, names, hash, size, h, s);
        Without1Absent(c, s);
        Without1Head(c, s, s);
      } else {
        ChainAdd(Without(front, {s}), names, hash, size, h, x);
        Without1Head(c, x, s);
      }
      hide Chain, Without, Without1, Distinct;
    }
  }

  lemma Without1Head(L: seq<int>, x: int, s: int)
    ensures Without1([x] + L, s) == if x == s then L else [x] + Without1(L, s)
  {
    assert ([x] + L)[1..] == L;
  }

  /** A chain without one symbol */
  function Without1(L: seq<int>, s: int): seq<int> {
    if L == [] then [] else if L[0] == s then L[1..] else [L[0]] + Without1(L[1..], s)
  }

  lemma {:induction false} Without1Absent(L: seq<int>, s: int)
    requires s !in L
    ensures Without1(L, s) == L
  {
    if L != [] { Without1Absent(L[1..], s); }
  }

  lemma {:induction false} Without1At(L: seq<int>, p: nat)
    requires p < |L| && Distinct(L)
    ensures Without1(L, L[p]) == L[..p] + L[p + 1..]
  {
    if p > 0 {
      assert L[0] != L[p];
      Without1At(L[1..], p - 1);
      assert L[1..][p - 1] == L[p];
      assert [L[0]] + (L[1..][..p - 1] + L[1..][p..]) == L[..p] + L[p + 1..];
    }
  }

  // ---------- Chains in memory ----------

  ghost predicate ChainLinked(table: seq<int>, bucket: map<int, Bucket>, h: nat, L: seq<int>)
    requires h < |table|
  {
    && table[h] == (if L == [] then NULL else L[0])
    && forall i :: 0 <= i < |L| ==> LinkAt(bucket, h, L, i)
  }

  predicate LinkAt(bucket: map<int, Bucket>, h: nat, L: seq<int>, i: nat)
    requires i < |L|
  {
    && L[i] in bucket && L[i] != NULL
    && bucket[L[i]] == Bucket(if i + 1 < |L| then L[i + 1] else NULL, if i == 0 then Slot(h) else NextOf(L[i - 1]))
  }

  /** The writes of `addsym` */
  function AddBucket(table: seq<int>, bucket: map<int, Bucket>, h: nat, s: int): map<int, Bucket>
    requires h < |table|
  {
    var b1 := bucket[s := Bucket(table[h], Slot(h))];
    if table[h] != NULL && table[h] in b1 then b1[table[h] := b1[table[h]].(prev := NextOf(s))] else b1
  }

  lemma AddLinks(table: seq<int>, bucket: map<int, Bucket>, h: nat, L: seq<int>, s: int)
    requires h < |table| && ChainLinked(table, bucket, h, L) && Distinct(L) && s !in L && s != NULL
    ensures ChainLinked(table[h := s], AddBucket(table, bucket, h, s), h, [s] + L)
    ensures forall x :: x in bucket && x != s && x !in L ==> x in AddBucket(table, bucket, h, s) && AddBucket(table, bucket, h, s)[x] == bucket[x]
  {
    if L != [] { assert LinkAt(bucket, h, L, 0); }
    forall i | 0 <= i < |[s] + L| ensures LinkAt(AddBucket(table, bucket, h, s), h, [s] + L, i) {
      if i > 0 { assert LinkAt(bucket, h, L, i - 1); }
    }
  }

  /** The writes of `delsym`: through the pointer to the pointer, and back */
  function DelTable(table: seq<int>, b: Bucket): seq<int> {
    match b.prev
    case Slot(h) => if h < |table| then table[h := b.next] else table
    case NextOf(x) => table
  }

  function DelBucket(bucket: map<int, Bucket>, b: Bucket): map<int, Bucket> {
    var b1 := match b.prev
              case Slot(h) => bucket
              case NextOf(x) => if x in bucket then bucket[x := bucket[x].(next := b.next)] else bucket;
    if b.next != NULL && b.next in b1 then b1[b.next := b1[b.next].(prev := b.prev)] else b1
  }

  lemma DelLinks(table: seq<int>, bucket: map<int, Bucket>, h: nat, L: seq<int>, p: nat)
    requires h < |table| && ChainLinked(table, bucket, h, L) && Distinct(L) && p < |L| && LinkAt(bucket, h, L, p)
    ensures ChainLinked(DelTable(table, bucket[L[p]]), DelBucket(bucket, bucket[L[p]]), h, L[..p] + L[p + 1..])
    ensures forall x :: x in bucket && x !in L ==> x in DelBucket(bucket, bucket[L[p]]) && DelBucket(bucket, bucket[L[p]])[x] == bucket[x]
    ensures forall k :: 0 <= k < |table| && k != h ==> DelTable(table, bucket[L[p]])[k] == table[k]
    ensures DelBucket(bucket, bucket[L[p]]).Keys == bucket.Keys
  {
    var L' := L[..p] + L[p + 1..];
    if p > 0 { assert LinkAt(bucket, h, L, p - 1); }
    if p + 1 < |L| { assert LinkAt(bucket, h, L, p + 1); }
    forall i | 0 <= i < |L'| ensures LinkAt(DelBucket(bucket, bucket[L[p]]), h, L', i) {
      assert LinkAt(bucket, h, L, if i < p then i else i + 1);
    }
  }

  lemma ChainElsewhere(table: seq<int>, bucket: map<int, Bucket>, table': seq<int>, bucket': map<int, Bucket>, h: nat, L: seq<int>)
    requires h < |table| == |table'| && ChainLinked(table, bucket, h, L) && table'[h] == table[h]
    requires forall x :: x in L && x in bucket ==> x in bucket' && bucket'[x] == bucket[x]
    ensures ChainLinked(table', bucket', h, L)
  {
    forall i | 0 <= i < |L| ensures LinkAt(bucket', h, L, i) {
      assert LinkAt(bucket, h, L, i);
      var x := L[i];
      assert x in L;
    }
  }

  // ---------- The whole table ----------

  datatype Tab = Tab(size: nat, numsyms: int, table: seq<int>, bucket: map<int, Bucket>, names: map<int, string>, log: seq<int>)

  function ChainOf(t: Tab, hash: string -> nat, h: nat): seq<int>
    requires t.size > 0
  { Chain(t.log, t.names, hash, t.size, h) }

  ghost predicate TabOk(t: Tab, hash: string -> nat) {
    && t.size > 0 && |t.table| == t.size && t.numsyms == |t.log| && Distinct(t.log) && NULL !in t.log
    && (forall s :: s in t.log ==> s in t.names)
    && forall h :: 0 <= h < t.size ==> ChainLinked(t.table, t.bucket, h, ChainOf(t, hash, h))
  }

  function SlotOf(t: Tab, hash: string -> nat, s: int): nat
    requires t.size > 0
  { hash(Name(t.names, s)) % t.size }

  function AddTab(t: Tab, hash: string -> nat, s: int): Tab
    requires t.size == |t.table| > 0
  {
    var h := SlotOf(t, hash, s);
    t.(numsyms := t.numsyms + 1, table := t.table[h := s], bucket := AddBucket(t.table, t.bucket, h, s), log := t.log + [s])
  }

  /** The chains of other slots share no bucket with the one that changed. */
  lemma OtherChain(t: Tab, hash: string -> nat, h: nat, k: nat, s: int, table': seq<int>, bucket': map<int, Bucket>)
    requires TabOk(t, hash) && h < t.size && k < t.size && h != k && |table'| == t.size && table'[h] == t.table[h]
    requires forall x :: x in t.bucket && x != s && x !in ChainOf(t, hash, k) ==> x in bucket' && bucket'[x] == t.bucket[x]
    requires s !in ChainOf(t, hash, h)
    ensures ChainLinked(table', bucket', h, ChainOf(t, hash, h))
  {
    assert ChainLinked(t.table, t.bucket, h, ChainOf(t, hash, h));
    forall x | x in ChainOf(t, hash, h) && x in t.bucket ensures x in bucket' && bucket'[x] == t.bucket[x] {
      ChainHas(t.log, t.names, hash, t.size, h, x);
      ChainHas(t.log, t.names, hash, t.size, k, x);
      ChainHas(t.log, t.names, hash, t.size, k, s);
    }
    ChainElsewhere(t.table, t.bucket, table', bucket', h, ChainOf(t, hash, h));
  }

  lemma AddOwn(t: Tab, hash: string -> nat, s: int)
    requires TabOk(t, hash) && s != NULL && s !in t.log && s in t.names
    ensures var t', k := AddTab(t, hash, s), SlotOf(t, hash, s); ChainLinked(t'.table, t'.bucket, k, ChainOf(t', hash, k))
    ensures var t', k := AddTab(t, hash, s), SlotOf(t, hash, s);
            forall x :: x in t.bucket && x != s && x !in ChainOf(t, hash, k) ==> x in t'.bucket && t'.bucket[x] == t.bucket[x]
  {
    var k := SlotOf(t, hash, s);
    assert ChainLinked(t.table, t.bucket, k, ChainOf(t, hash, k));
    ChainDistinct(t.log, t.names, hash, t.size, k);
    ChainHas(t.log, t.names, hash, t.size, k, s);
    hide TabOk, Chain, ChainLinked;
    AddLinks(t.table, t.bucket, k, ChainOf(t, hash, k), s);
    ChainAdd(t.log, t.names, hash, t.size, k, s);
  }

  lemma AddOther(t: Tab, hash: string -> nat, s: int, h: nat)
    requires TabOk(t, hash) && s != NULL && s !in t.log && s in t.names && h < t.size && h != SlotOf(t, hash, s)
    ensures var t' := AddTab(t, hash, s); ChainLinked(t'.table, t'.bucket, h, ChainOf(t', hash, h))
  {
    var t', k := AddTab(t, hash, s), SlotOf(t, hash, s);
    AddOwn(t, hash, s);
    ChainHas(t.log, t.names, hash, t.size, h, s);
    ChainAdd(t.log, t.names, hash, t.size, h, s);
    assert [] + ChainOf(t, hash, h) == ChainOf(t, hash, h);
    hide Chain, ChainLinked, AddBucket;
    OtherChain(t, hash, h, k, s, t'.table, t'.bucket);
  }

  /** `addsym` keeps every chain in order. */
  lemma AddTabOk(t: Tab, hash: string -> nat, s: int)
    requires TabOk(t, hash) && s != NULL && s !in t.log && s in t.names
    ensures TabOk(AddTab(t, hash, s), hash)
  {
    var t', k := AddTab(t, hash, s), SlotOf(t, hash, s);
    AddOwn(t, hash, s);
    forall h | 0 <= h < t.size && h != k { AddOther(t, hash, s, h); }
    hide Chain, ChainLinked, AddBucket;
  }

  function DelTab(t: Tab, s: int): Tab
    requires s in t.bucket
  {
    t.(numsyms := t.numsyms - 1, table := DelTable(t.table, t.bucket[s]), bucket := DelBucket(t.bucket, t.bucket[s]),
       log := Without(t.log, {s}))
  }

  lemma DelOwn(t: Tab, hash: string -> nat, s: int)
    requires TabOk(t, hash) && s in t.log
    ensures s in t.bucket
    ensures var t', k := DelTab(t, s), SlotOf(t, hash, s);
            && |t'.table| == t.size && t'.bucket.Keys == t.bucket.Keys
            && ChainLinked(t'.table, t'.bucket, k, ChainOf(t', hash, k))
            && (forall x :: x in t.bucket && x !in ChainOf(t, hash, k) ==> x in t'.bucket && t'.bucket[x] == t.bucket[x])
            && (forall h :: 0 <= h < t.size && h != k ==> t'.table[h] == t.table[h])
  {
    var k := SlotOf(t, hash, s);
    var L := ChainOf(t, hash, k);
    assert ChainLinked(t.table, t.bucket, k, L);
    ChainHas(t.log, t.names, hash, t.size, k, s);
    ChainDistinct(t.log, t.names, hash, t.size, k);
    ChainWithout(t.log, t.names, hash, t.size, k, s);
    var p := IndexOf(L, s);
    assert LinkAt(t.bucket, k, L, p);
    hide TabOk, Chain, ChainLinked, DelBucket;
    Without1At(L, p);
    DelLinks(t.table, t.bucket, k, L, p);
  }

  lemma DelOther(t: Tab, hash: string -> nat, s: int, h: nat)
    requires TabOk(t, hash) && s in t.log && h < t.size && h != SlotOf(t, hash, s) && s in t.bucket
    ensures var t' := DelTab(t, s); |t'.table| == t.size && ChainLinked(t'.table, t'.bucket, h, ChainOf(t', hash, h))
  {
    var t', k := DelTab(t, s), SlotOf(t, hash, s);
    DelOwn(t, hash, s);
    ChainHas(t.log, t.names, hash, t.size, h, s);
    ChainWithout(t.log, t.names, hash, t.size, h, s);
    Without1Absent(ChainOf(t, hash, h), s);
    hide Chain, ChainLinked, DelBucket, DelTable;
    OtherChain(t, hash, h, k, s, t'.table, t'.bucket);
  }

  /** `delsym` keeps every chain in order. */
  lemma DelTabOk(t: Tab, hash: string -> nat, s: int)
    requires TabOk(t, hash) && s in t.log
    ensures s in t.bucket && TabOk(DelTab(t, s), hash)
  {
    DelOwn(t, hash, s);
    var t', k := DelTab(t, s), SlotOf(t, hash, s);
    forall h | 0 <= h < t.size && h != k { DelOther(t, hash, s, h); }
    WithoutDistinct(t.log, {s});
    WithoutSize(t.log, s);
    forall x | x in t'.log ensures x in t.log { WithoutHas(t.log, {s}, x); }
    hide Chain, ChainLinked, DelBucket, DelTable;
  }

  /** The cells that `delsym` writes through are there. */
  lemma DelReady(t: Tab, hash: string -> nat, s: int)
    requires TabOk(t, hash) && s in t.log
    ensures s in t.bucket
    ensures t.bucket[s].prev.Slot? ==> t.bucket[s].prev.h < |t.table|
    ensures t.bucket[s].prev.NextOf? ==> t.bucket[s].prev.b in t.bucket
    ensures t.bucket[s].next != NULL ==> t.bucket[s].next in t.bucket
  {
    var h := SlotOf(t, hash, s);
    var L := ChainOf(t, hash, h);
    assert ChainLinked(t.table, t.bucket, h, L);
    ChainHas(t.log, t.names, hash, t.size, h, s);
    var p := IndexOf(L, s);
    assert LinkAt(t.bucket, h, L, p);
    if p > 0 { assert LinkAt(t.bucket, h, L, p - 1); }
    if p + 1 < |L| { assert LinkAt(t.bucket, h, L, p + 1); }
  }

  lemma {:induction false} WithoutSize(log: seq<int>, s: int)
    requires Distinct(log)
    ensures |Without(log, {s})| == |log| - (if s in log then 1 else 0)
  {
    if log != [] {
      var front, x := log[..|log| - 1], log[|log| - 1];
      assert log == front + [x];
      DistinctSnoc(front, x);
      WithoutSnoc(front, x, {s});
      WithoutSize(front, s);
    }
  }

  /** The symbols inserted before `s` */
  function Before(log: seq<int>, s: int): seq<int> {
    if log == [] then [] else if log[|log| - 1] == s then log[..|log| - 1] else Before(log[..|log| - 1], s)
  }

  /** The symbols behind `s` in a chain */
  function Behind(L: seq<int>, s: int): seq<int> {
    if L == [] then [] else if L[0] == s then L[1..] else Behind(L[1..], s)
  }

  lemma BehindHead(L: seq<int>, x: int, s: int)
    ensures Behind([x] + L, s) == if x == s then L else Behind(L, s)
  {
    assert ([x] + L)[1..] == L;
  }

  lemma {:induction false} BehindAt(L: seq<int>, i: nat)
    requires Distinct(L) && i < |L|
    ensures Behind(L, L[i]) == L[i + 1..]
  {
    if i > 0 {
      assert L[0] != L[i] && L[1..][i - 1] == L[i];
      BehindAt(L[1..], i - 1);
    }
  }

  /** Behind a symbol its chain is the chain of the symbols inserted before it. */
  lemma {:induction false} ChainBehind(log: seq<int>, names: map<int, string>, hash: string -> nat, size: nat, h: nat, s: int)
    requires size > 0 && s in log && hash(Name(names, s)) % size == h
    ensures Behind(Chain(log, names, hash, size, h), s) == Chain(Before(log, s), names, hash, size, h)
  {
    var front, x := log[..|log| - 1], log[|log| - 1];
    assert log == front + [x];
    ChainAdd(front, names, hash, size, h, x);
    var c := Chain(front, names, hash, size, h);
    assert [] + c == c;
    BehindHead(c, x, s);
    if x != s { ChainBehind(front, names, hash, size, h, s); }
  }

  /** Lookups depend on the names of the symbols in the table only. */
  lemma {:induction false} LookupSameNames(log: seq<int>, names: map<int, string>, names': map<int, string>, key: string)
    requires forall s :: s in log ==> Name(names', s) == Name(names, s)
    ensures Lookup(log, names', key) == Lookup(log, names, key)
  {
    if log != [] {
      assert log[|log| - 1] in log;
      LookupSameNames(log[..|log| - 1], names, names', key);
    }
  }

  lemma {:induction false} ChainSameNames(log: seq<int>, names: map<int, string>, names': map<int, string>, hash: string -> nat, size: nat, h: nat)
    requires size > 0 && forall s :: s in log ==> Name(names', s) == Name(names, s)
    ensures Chain(log, names', hash, size, h) == Chain(log, names, hash, size, h)
  {
    if log != [] {
      assert log[|log| - 1] in log;
      ChainSameNames(log[..|log| - 1], names, names', hash, size, h);
    }
  }

  /** The first of the name behind a symbol in its chain is the latest of those inserted before it. */
  lemma NextOlder(log: seq<int>, names: map<int, string>, hash: string -> nat, size: nat, s: int, i: nat)
    requires size > 0 && Distinct(log) && NULL !in log && s in log
    requires var L := Chain(log, names, hash, size, hash(Name(names, s)) % size); i < |L| && L[i] == s
    ensures var L := Chain(log, names, hash, size, hash(Name(names, s)) % size);
            FirstNamed(L[i + 1..], names, Name(names, s)) == Lookup(Before(log, s), names, Name(names, s))
  {
    var h := hash(Name(names, s)) % size;
    ChainDistinct(log, names, hash, size, h);
    BehindAt(Chain(log, names, hash, size, h), i);
    ChainBehind(log, names, hash, size, h, s);
    BeforeIn(log, s);
    ChainFinds(Before(log, s), names, hash, size, Name(names, s));
  }

  lemma {:induction false} BeforeIn(log: seq<int>, s: int)
    ensures forall x :: x in Before(log, s) ==> x in log
  {
    if log != [] {
      BeforeIn(log[..|log| - 1], s);
      assert log == log[..|log| - 1] + [log[|log| - 1]];
    }
  }

  // ---------- Lists of symbols ----------

  predicate SymAt(sym: map<int, Sym>, L: seq<int>, i: nat) requires i < |L| {
    L[i] in sym && L[i] != NULL && sym[L[i]].next == if i + 1 < |L| then L[i + 1] else NULL
  }

  /** The symbols of `L` are linked by `SYM.next` from `head` on. */
  ghost predicate SymListed(sym: map<int, Sym>, head: int, L: seq<int>) {
    && head == (if L == [] then NULL else L[0])
    && forall i :: 0 <= i < |L| ==> SymAt(sym, L, i)
  }

  lemma ListedElsewhere(sym: map<int, Sym>, sym': map<int, Sym>, head: int, L: seq<int>)
    requires SymListed(sym, head, L) && forall s :: s in L ==> s in sym && s in sym' && sym'[s].next == sym[s].next
    ensures SymListed(sym', head, L)
  {
    forall i | 0 <= i < |L| ensures SymAt(sym', L, i) {
      var s := L[i];
      assert s in L && SymAt(sym, L, i);
    }
  }

  lemma ListedTail(sym: map<int, Sym>, head: int, L: seq<int>)
    requires SymListed(sym, head, L) && L != []
    ensures head in sym && SymListed(sym, sym[head].next, L[1..])
  {
    assert SymAt(sym, L, 0);
    forall i | 0 <= i < |L[1..]| ensures SymAt(sym, L[1..], i) { assert SymAt(sym, L, i + 1); }
  }

  lemma HeadThere(sym: map<int, Sym>, head: int, L: seq<int>)
    requires SymListed(sym, head, L) && L != []
    ensures head != NULL && head in sym
  {
    assert SymAt(sym, L, 0);
  }

  lemma ListedCons(sym: map<int, Sym>, sym': map<int, Sym>, head: int, L: seq<int>, s: int)
    requires SymListed(sym, head, L) && s !in L && s in sym' && s != NULL && sym'[s].next == head
    requires forall x :: x in L ==> x in sym && x in sym' && sym'[x].next == sym[x].next
    ensures SymListed(sym', s, [s] + L)
  {
    ListedElsewhere(sym, sym', head, L);
    forall i | 0 <= i < |[s] + L| ensures SymAt(sym', [s] + L, i) { if i > 0 { assert SymAt(sym', L, i - 1); } }
  }

  function Reverse(L: seq<int>): (r: seq<int>)
    ensures |r| == |L| && forall i :: 0 <= i < |L| ==> r[i] == L[|L| - 1 - i]
  { if L == [] then [] else Reverse(L[1..]) + [L[0]] }

  /** Links that lead from each symbol to the one before are those of the reversed list. */
  lemma ReversedListed(sym: map<int, Sym>, L: seq<int>)
    requires L != [] && L[0] in sym && L[0] != NULL && sym[L[0]].next == NULL
    requires forall j :: 1 <= j < |L| ==> L[j] in sym && L[j] != NULL && sym[L[j]].next == L[j - 1]
    ensures SymListed(sym, L[|L| - 1], Reverse(L))
  {
    forall k | 0 <= k < |Reverse(L)| ensures SymAt(sym, Reverse(L), k) {
      var j := |L| - 1 - k;
      assert Reverse(L)[k] == L[j] && (k + 1 < |L| ==> Reverse(L)[k + 1] == L[j - 1]);
    }
  }

  /** The links of the first `i` symbols but the first are turned, the others are as they were. */
  predicate Turned(sym: map<int, Sym>, L: seq<int>, i: nat) requires 1 <= i <= |L| {
    && L[0] in sym && L[0] != NULL
    && (forall j :: 1 <= j < i ==> L[j] in sym && L[j] != NULL && sym[L[j]].next == L[j - 1])
    && (forall j :: i <= j < |L| ==> SymAt(sym, L, j))
  }

  /** Nothing but links of `L` changed. */
  predicate SameButNext(sym: map<int, Sym>, sym': map<int, Sym>, L: seq<int>) {
    sym'.Keys == sym.Keys
    && forall x :: x in sym ==> sym'[x].level == sym[x].level && sym'[x].isDup == sym[x].isDup && (x !in L ==> sym'[x] == sym[x])
  }

  lemma TurnOne(was: map<int, Sym>, sym: map<int, Sym>, L: seq<int>, i: nat)
    requires 1 <= i < |L| && Turned(sym, L, i) && Distinct(L) && L[i] in sym && SameButNext(was, sym, L)
    ensures Turned(sym[L[i] := sym[L[i]].(next := L[i - 1])], L, i + 1)
    ensures SameButNext(was, sym[L[i] := sym[L[i]].(next := L[i - 1])], L)
  {
    var sym' := sym[L[i] := sym[L[i]].(next := L[i - 1])];
    assert SymAt(sym, L, i);
    forall j | i < j < |L| ensures SymAt(sym', L, j) { assert SymAt(sym, L, j); }
  }

  lemma TurnHead(was: map<int, Sym>, sym: map<int, Sym>, L: seq<int>)
    requires L != [] && Turned(sym, L, |L|) && Distinct(L) && SameButNext(was, sym, L)
    ensures var sym' := sym[L[0] := sym[L[0]].(next := NULL)];
            SameButNext(was, sym', L) && forall j :: 1 <= j < |L| ==> L[j] in sym' && L[j] != NULL && sym'[L[j]].next == L[j - 1]
  { }

  lemma DistinctAt(L: seq<int>, i: nat)
    requires Distinct(L) && i < |L|
    ensures L[i] !in L[i + 1..] && L[i] !in L[..i]
  { }

  lemma {:induction false} ReverseSnoc(L: seq<int>, s: int)
    ensures Reverse(L + [s]) == [s] + Reverse(L)
  {
    if L != [] {
      ReverseSnoc(L[1..], s);
      assert (L + [s])[1..] == L[1..] + [s];
    }
  }

  /** The table does not depend on the names of symbols that are not in it. */
  lemma NamesOk(t: Tab, names: map<int, string>, hash: string -> nat)
    requires TabOk(t, hash) && forall s :: s in t.log ==> s in names && names[s] == t.names[s]
    ensures TabOk(t.(names := names), hash)
  {
    forall h | 0 <= h < t.size ensures ChainLinked(t.table, t.bucket, h, ChainOf(t.(names := names), hash, h)) {
      assert ChainLinked(t.table, t.bucket, h, ChainOf(t, hash, h));
      assert forall x :: x in t.log ==> x in t.names;
      ChainSameNames(t.log, t.names, names, hash, t.size, h);
    }
  }

  // ---------- The code ----------

  class SymTab {
    const size: nat
    const hash: string -> nat
    var numsyms: int
    var table: seq<int>
    var bucket: map<int, Bucket>
    var names: map<int, string>
    var sym: map<int, Sym>
    var freesymlist: int
    ghost var log: seq<int>
    ghost var freed: seq<int>

    ghost function St(): Tab
      reads this
    { Tab(size, numsyms, table, bucket, names, log) }

    ghost predicate Valid()
      reads this
    {
      && TabOk(St(), hash)
      && SymListed(sym, freesymlist, freed) && Distinct(freed)
      && (forall s :: s in freed ==> s in sym && s !in log)
      && sym.Keys == names.Keys && NULL !in sym
    }

    /** `maketab` */
    constructor (maxsym: nat, h: string -> nat)
      ensures Valid() && log == [] && hash == h && size == if maxsym == 0 then 127 else maxsym
    {
      var n := if maxsym == 0 then 127 else maxsym;
      size, hash, numsyms, freesymlist := n, h, 0, NULL;
      table := seq(n, k => NULL);
      bucket, names, sym := map[], map[], map[];
      log, freed := [], [];
    }

    /** `addsym` */
    method Addsym(s: int)
      requires Valid() && s in sym && s !in log && s !in freed
      modifies this`numsyms, this`table, this`bucket, this`log
      ensures Valid() && log == old(log) + [s]
    {
      ghost var t := St();
      AddTabOk(t, hash, s);
      var h := hash(names[s]) % size;
      var tmp := table[h];
      assert ChainLinked(t.table, t.bucket, h, ChainOf(t, hash, h));
      if tmp != NULL { assert LinkAt(t.bucket, h, ChainOf(t, hash, h), 0); }
      ChainHas(t.log, t.names, hash, size, h, tmp);
      hide TabOk, Chain, ChainLinked;
      table := table[h := s];
      bucket := bucket[s := Bucket(tmp, Slot(h))];
      if tmp != NULL { bucket := bucket[tmp := bucket[tmp].(prev := NextOf(s))]; }
      numsyms := numsyms + 1;
      log := log + [s];
      assert St() == AddTab(t, hash, s);
    }

    /** `delsym` */
    method Delsym(s: int)
      requires Valid() && (s != NULL ==> s in log)
      modifies this`numsyms, this`table, this`bucket, this`log
      ensures Valid() && log == if s == NULL then old(log) else Without(old(log), {s})
    {
      if s == NULL { return; }
      ghost var t := St();
      DelTabOk(t, hash, s);
      DelReady(t, hash, s);
      hide TabOk, Chain, ChainLinked;
      numsyms := numsyms - 1;
      var b := bucket[s];
      match b.prev {
        case Slot(k) => table := table[k := b.next];
        case NextOf(x) => bucket := bucket[x := bucket[x].(next := b.next)];
      }
      if b.next != NULL { bucket := bucket[b.next := bucket[b.next].(prev := b.prev)]; }
      log := Without(log, {s});
      assert St() == DelTab(t, s);
      hide DelTable, DelBucket, Without;
      forall x | x in freed ensures x !in log { WithoutHas(t.log, {s}, x); }
    }

    /** `findsym`: the most recently inserted symbol of that name which is still in the table */
    method Findsym(key: string) returns (s: int)
      requires Valid()
      ensures s == Lookup(log, names, key)
      ensures s != NULL ==> s in log && names[s] == key
    {
      ghost var h := hash(key) % size;
      ghost var L := ChainOf(St(), hash, h);
      assert ChainLinked(table, bucket, h, L);
      s := table[hash(key) % size];
      ghost var i := 0;
      InLog(h);
      while s != NULL && names[s] != key
        invariant 0 <= i <= |L| && s == if i < |L| then L[i] else NULL
        invariant forall j :: 0 <= j < i ==> Name(names, L[j]) != key
        decreases |L| - i
      {
        assert LinkAt(bucket, h, L, i);
        s := bucket[s].next;
        i := i + 1;
      }
      if i < |L| { assert LinkAt(bucket, h, L, i); }
      FirstNamedAt(L, names, key, i);
      ChainFinds(log, names, hash, size, key);
    }

    /** The symbols of a chain are in the table. */
    lemma InLog(h: nat)
      requires Valid() && h < size
      ensures forall i :: 0 <= i < |ChainOf(St(), hash, h)| ==>
                var s := ChainOf(St(), hash, h)[i]; s in log && s in names && s in sym && s != NULL
    {
      var L := ChainOf(St(), hash, h);
      forall i | 0 <= i < |L| ensures L[i] in log && L[i] in names && L[i] in sym && L[i] != NULL {
        ChainHas(log, names, hash, size, h, L[i]);
      }
    }

    /** What `nextsym` starts from: the symbol in its chain, and the next of its name behind it */
    lemma NextReady(last: int, h: nat, k: nat)
      requires Valid() && last in log && h == hash(names[last]) % size && k == IndexOf(ChainOf(St(), hash, h), last)
      ensures var L := ChainOf(St(), hash, h);
              && k < |L| && L[k] == last && (forall i :: 0 <= i < |L| ==> LinkAt(bucket, h, L, i) && L[i] in names)
              && FirstNamed(L[k + 1..], names, names[last]) == Lookup(Before(log, last), names, names[last])
    {
      var L := ChainOf(St(), hash, h);
      assert ChainLinked(table, bucket, h, L);
      InLog(h);
      ChainHas(log, names, hash, size, h, last);
      NextOlder(log, names, hash, size, last, k);
    }

    /** `nextsym`: the next older symbol of the same name */
    method Nextsym(last: int) returns (s: int)
      requires Valid() && last in log
      ensures s == Lookup(Before(log, last), names, names[last])
    {
      ghost var key, h := names[last], hash(names[last]) % size;
      ghost var L := ChainOf(St(), hash, h);
      ghost var k := IndexOf(L, last);
      NextReady(last, h, k);
      hide TabOk, Chain, ChainOf, Distinct, Lookup, SymListed, Valid, Before, FirstNamed, IndexOf;
      s := last;
      ghost var target := Lookup(Before(log, last), names, key);
      while bucket[s].next != NULL && names[bucket[s].next] != names[last]
        invariant k < |L| && s == L[k]
        invariant FirstNamed(L[k + 1..], names, key) == target
        decreases |L| - k
      {
        FirstNamedNext(L, names, key, k);
        s := bucket[s].next;
        k := k + 1;
      }
      FirstNamedNext(L, names, key, k);
      s := bucket[s].next;
    }

    /** `add_SYM`: a symbol is entered unless its name is taken at its own level. */
    method AddSYM(s: int)
      requires Valid() && s in sym && s !in log && s !in freed
      modifies this
      ensures Valid() && names == old(names) && freed == old(freed) && sym.Keys == old(sym).Keys
      ensures var e := Lookup(old(log), names, names[s]);
              var taken := e != NULL && old(sym)[e].level == old(sym)[s].level;
              && log == (if taken then old(log) else old(log) + [s])
              && sym == old(sym)[s := old(sym)[s].(isDup := taken)]
    {
      var exists_ := Findsym(names[s]);
      if exists_ == NULL || sym[exists_].level != sym[s].level {
        Addsym(s);
        sym := sym[s := sym[s].(isDup := false)];
      } else {
        sym := sym[s := sym[s].(isDup := true)];
      }
      ListedElsewhere(old(sym), sym, freesymlist, freed);
    }

    /** `discard_SYM`: the symbol goes to the free list. */
    method DiscardSYM(s: int)
      requires Valid() && s in sym && s !in log && s !in freed
      modifies this`sym, this`freesymlist, this`freed
      ensures Valid() && freed == [s] + old(freed)
      ensures sym.Keys == old(sym).Keys && forall x :: x in sym && x != s ==> sym[x] == old(sym)[x]
    {
      ListedCons(sym, sym[s := sym[s].(next := freesymlist)], freesymlist, freed, s);
      sym := sym[s := sym[s].(next := freesymlist)];
      freesymlist := s;
      freed := [s] + freed;
    }

    /** One round of `discard_SYM_chain` */
    method DiscardOne(s: int)
      requires Valid() && s in sym && s !in freed && (sym[s].isDup <==> s !in log)
      modifies this
      ensures Valid() && log == Without(old(log), {s}) && names == old(names) && freed == [s] + old(freed)
      ensures sym.Keys == old(sym).Keys && forall x :: x in sym && x != s ==> sym[x] == old(sym)[x]
    {
      if !sym[s].isDup { Delsym(s); } else { WithoutNone(log, {s}); }
      WithoutHas(old(log), {s}, s);
      DiscardSYM(s);
    }

    /** The loop body of `discard_SYM_chain` */
    method DiscardNext(s: int, ghost L: seq<int>, ghost i: nat, ghost log0: seq<int>, ghost freed0: seq<int>) returns (p: int)
      requires Valid() && s != NULL && Distinct(L) && i < |L| && Discarding(sym, freed, log, s, L, i, log0, freed0)
      modifies this
      ensures Valid() && i + 1 <= |L| && Discarding(sym, freed, log, p, L, i + 1, log0, freed0) && names == old(names)
      ensures p == NULL ==> i + 1 == |L|
    {
      hide TabOk;
      NextToDiscard(sym, freed, log, s, L, i, log0, freed0);
      p := sym[s].next;
      ghost var log1, sym1, freed1 := log, sym, freed;
      DiscardOne(s);
      DiscardStep(sym1, freed1, log1, sym, s, L, i, log0, freed0);
    }

    /**
     * `discard_SYM_chain`: the symbols of a chain that are not duplicates go
     * out of the table, and all of them to the free list.
     */
    method DiscardChain(head: int, ghost L: seq<int>)
      requires Valid() && SymListed(sym, head, L) && Distinct(L)
      requires forall s :: s in L ==> s in sym && s !in freed && (sym[s].isDup <==> s !in log)
      modifies this
      ensures Valid() && log == Without(old(log), Elems(L)) && names == old(names)
      ensures freed == Reverse(L) + old(freed)
    {
      var s := head;
      ghost var i := 0;
      assert L[0..] == L && Elems(L[..0]) == {};
      WithoutNone(log, {});
      if L != [] { HeadThere(sym, head, L); }
      while s != NULL
        invariant Valid() && i <= |L| && Discarding(sym, freed, log, s, L, i, old(log), old(freed)) && names == old(names) && (s == NULL ==> i == |L|)
        decreases |L| - i
      {
        s := DiscardNext(s, L, i, old(log), old(freed));
        i := i + 1;
      }
      assert L[..i] == L;
    }

    /** `reverse_symlink`: the links of a chain are turned round in place. */
    method ReverseSymlink(head: int, ghost L: seq<int>) returns (r: int)
      requires SymListed(sym, head, L) && Distinct(L)
      modifies this`sym
      ensures SymListed(sym, r, Reverse(L))
      ensures SameButNext(old(sym), sym, L)
    {
      if head == NULL {
        assert L != [] ==> SymAt(sym, L, 0);
        return NULL;
      }
      assert SymAt(sym, L, 0);
      var previous, current := head, sym[head].next;
      ghost var i := 1;
      while current != NULL
        invariant 1 <= i <= |L| && previous == L[i - 1] && current == (if i < |L| then L[i] else NULL)
        invariant Turned(sym, L, i) && SameButNext(old(sym), sym, L)
        decreases |L| - i
      {
        assert SymAt(sym, L, i);
        TurnOne(old(sym), sym, L, i);
        var next := sym[current].next;
        sym := sym[current := sym[current].(next := previous)];
        previous := current;
        current := next;
        i := i + 1;
      }
      assert i < |L| ==> SymAt(sym, L, i);
      ghost var before := sym;
      sym := sym[head := sym[head].(next := NULL)];
      r := previous;
      TurnHead(old(sym), before, L);
      ReversedListed(sym, L);
    }

    /**
     * `new_SYM`: a recycled symbol, or a new one at the address `fresh`; what
     * `calloc` gives is not marked as a duplicate, a recycled one may be.
     */
    method NewSYM(name: string, level: int, fresh_: int) returns (s: int)
      requires Valid() && fresh_ != NULL && fresh_ !in sym
      modifies this`sym, this`names, this`freesymlist, this`freed
      ensures Valid() && s in sym && s !in log && s !in freed && sym[s].next == NULL && sym[s].level == level
      ensures names == old(names)[s := name]
      ensures if old(freed) == [] then s == fresh_ && !sym[s].isDup
              else s == old(freed)[0] && s in old(sym) && sym[s].isDup == old(sym)[s].isDup
      ensures freed == if old(freed) == [] then [] else old(freed)[1..]
      ensures sym.Keys == old(sym).Keys + {s} && forall x :: x in old(sym) && x != s ==> sym[x] == old(sym)[x]
    {
      ghost var t, freed0, sym0 := St(), freed, sym;
      var dup := false;
      if freesymlist != NULL {
        ListedTail(sym, freesymlist, freed);
        s := freesymlist;
        dup := sym[s].isDup;
        freesymlist := sym[s].next;
        freed := freed[1..];
        DistinctAt(freed0, 0);
      } else {
        s := fresh_;
        assert freed == [];
      }
      assert forall x :: x in freed ==> x in freed0;
      names := names[s := name];
      sym := sym[s := Sym(level, dup, NULL)];
      ListedElsewhere(sym0, sym, freesymlist, freed);
      NamesOk(t, names, hash);
      hide TabOk, SymListed;
    }

    /**
     * A scope: symbols are made, chained and entered one after the other, and
     * in the end the chain is discarded.  Then the table is as it was, and
     * every lookup gives what it gave before.
     */
    method Scope(decls: seq<string>, level: int, fresh_: seq<int>)
      requires Valid() && |fresh_| == |decls|
      requires forall i :: 0 <= i < |fresh_| ==> fresh_[i] != NULL && fresh_[i] !in sym
      requires Distinct(fresh_)
      modifies this
      ensures Valid() && log == old(log)
      ensures forall key :: Lookup(log, names, key) == old(Lookup(log, names, key))
    {
      var head := NULL;
      ghost var L, top: seq<int> := [], [];
      for i := 0 to |decls|
        invariant Valid() && InScope(head, L, old(log), top)
        invariant forall k :: i <= k < |decls| ==> fresh_[k] !in sym
        invariant forall s :: s in old(log) ==> Name(names, s) == old(Name(names, s))
      {
        head, L, top := Declare(decls[i], level, fresh_[i], head, L, old(log), top);
      }
      DiscardChain(head, L);
      WithoutTop(old(log), top, Elems(L));
      forall key ensures Lookup(log, names, key) == old(Lookup(log, names, key)) {
        LookupSameNames(log, old(names), names, key);
      }
    }

    /** What a scope in progress keeps: its chain `L`, and `top`, the part of the chain that is in the table */
    ghost predicate InScope(head: int, L: seq<int>, log0: seq<int>, top: seq<int>)
      reads this
    {
      && SymListed(sym, head, L) && Distinct(L) && log == log0 + top && (forall s :: s in top ==> s in L)
      && forall s :: s in L ==> s in sym && s !in freed && s !in log0 && (sym[s].isDup <==> s !in log)
    }

    /** One declaration of a scope */
    method Declare(name: string, level: int, fresh_: int, head: int, ghost L: seq<int>, ghost log0: seq<int>, ghost top: seq<int>)
      returns (head': int, ghost L': seq<int>, ghost top': seq<int>)
      requires Valid() && fresh_ != NULL && fresh_ !in sym && InScope(head, L, log0, top)
      modifies this
      ensures Valid() && InScope(head', L', log0, top')
      ensures forall x :: x in sym ==> x in old(sym) || x == fresh_
      ensures forall s :: s in log0 ==> Name(names, s) == old(Name(names, s))
    {
      hide TabOk, Lookup;
      ghost var sym0 := sym;
      var s := NewSYM(name, level, fresh_);
      assert s !in L && s !in log0;
      ListedElsewhere(sym0, sym, head, L);
      head', L', top' := EnterSYM(s, head, L, log0, top);
    }

    method EnterSYM(s: int, head: int, ghost L: seq<int>, ghost log0: seq<int>, ghost top: seq<int>)
      returns (head': int, ghost L': seq<int>, ghost top': seq<int>)
      requires Valid() && InScope(head, L, log0, top) && s in sym && s !in log && s !in freed && s !in L
      modifies this
      ensures Valid() && InScope(head', L', log0, top') && names == old(names) && sym.Keys == old(sym).Keys
    {
      hide TabOk, Lookup;
      ghost var sym0, log1 := sym, log;
      AddSYM(s);
      ghost var sym1 := sym;
      sym := sym[s := sym[s].(next := head)];
      ListedElsewhere(sym1, sym, freesymlist, freed);
      ListedCons(sym0, sym, head, L, s);
      head', L' := s, [s] + L;
      top' := if log == log1 then top else top + [s];
      assert log == log0 + top';
      DistinctCons(s, L);
    }
  }

  function Elems(L: seq<int>): set<int> { set x | x in L }

  lemma ElemsSnoc(L: seq<int>, s: int)
    ensures Elems(L + [s]) == Elems(L) + {s}
  { }

  lemma StillIn(log0: seq<int>, log: seq<int>, s: int, L: seq<int>)
    requires log == Without(log0, {s}) && s !in L
    ensures forall x :: x in L ==> (x in log <==> x in log0)
  {
    forall x | x in L ensures x in log <==> x in log0 { WithoutHas(log0, {s}, x); }
  }

  /** After `i` symbols of the chain `L`, `s` is the rest of it. */
  ghost predicate Discarding(sym: map<int, Sym>, freed: seq<int>, log: seq<int>, s: int, L: seq<int>, i: nat, log0: seq<int>, freed0: seq<int>)
    requires i <= |L|
  {
    && SymListed(sym, s, L[i..]) && log == Without(log0, Elems(L[..i])) && freed == Reverse(L[..i]) + freed0
    && forall x :: x in L[i..] ==> x in sym && x !in freed && (sym[x].isDup <==> x !in log)
  }

  lemma NextToDiscard(sym: map<int, Sym>, freed: seq<int>, log: seq<int>, s: int, L: seq<int>, i: nat, log0: seq<int>, freed0: seq<int>)
    requires i < |L| && Discarding(sym, freed, log, s, L, i, log0, freed0)
    ensures s == L[i] && s in sym && s !in freed && (sym[s].isDup <==> s !in log)
    ensures SymListed(sym, sym[s].next, L[i + 1..]) && (sym[s].next == NULL ==> i + 1 == |L|)
  {
    assert L[i..][0] == L[i] && L[i] in L[i..];
    ListedTail(sym, s, L[i..]);
    assert L[i..][1..] == L[i + 1..];
    if i + 1 < |L| { HeadThere(sym, sym[s].next, L[i + 1..]); }
  }

  lemma DiscardStep(sym: map<int, Sym>, freed: seq<int>, log: seq<int>, sym': map<int, Sym>, s: int, L: seq<int>, i: nat, log0: seq<int>, freed0: seq<int>)
    requires i < |L| && Distinct(L) && Discarding(sym, freed, log, s, L, i, log0, freed0) && s in sym
    requires sym'.Keys == sym.Keys && forall x :: x in sym && x != s ==> sym'[x] == sym[x]
    ensures Discarding(sym', [s] + freed, Without(log, {s}), sym[s].next, L, i + 1, log0, freed0)
  {
    var rest, done := L[i + 1..], L[..i];
    NextToDiscard(sym, freed, log, s, L, i, log0, freed0);
    DistinctAt(L, i);
    assert L[i..] == [s] + rest && L[..i + 1] == done + [s];
    StillIn(log, Without(log, {s}), s, rest);
    ListedElsewhere(sym, sym', sym[s].next, rest);
    WithoutTwice(log0, Elems(done), {s});
    ElemsSnoc(done, s);
    ReverseSnoc(done, s);
    assert [s] + (Reverse(done) + freed0) == ([s] + Reverse(done)) + freed0;
  }

  lemma DistinctCons(s: int, L: seq<int>)
    requires Distinct(L) && s !in L
    ensures Distinct([s] + L)
  {
    assert forall i :: 0 <= i < |L| ==> L[i] in L;
  }
}
