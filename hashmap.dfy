// The fixed-size chained hash map used for the symbol tables: a bucket array
// whose chains are walked from the head, new keys inserted at the head, an
// equal key's value replaced in place.
module HashMap {
  import opened Wrappers

  const TwoTo32 := 0x1_0000_0000

  /** The value a C `char` (signed) adds to an int: a character stands for the
      byte of its low eight bits. */
  function CharValue(c: char): (v: int)
    ensures -128 <= v < 128
  {
    var b := (c as int) % 256;
    if b >= 128 then b - 256 else b
  }

  /** The unsigned 32-bit rolling hash h := 31*h + c over the whole key. */
  function RollingHash(key: string): (h: nat)
    ensures h < TwoTo32
  {
    if key == [] then 0
    else (31 * RollingHash(key[..|key| - 1]) + CharValue(key[|key| - 1])) % TwoTo32
  }

  /** The bucket of a key in a map of `size` buckets. */
  function Bucket(key: string, size: int): nat
    requires size > 0
  {
    RollingHash(key) % size
  }

  /** hash(): the loop over the key's characters, reduced mod size. */
  method Hash(key: string, size: int) returns (index: nat)
    requires size > 0
    ensures index < size
    ensures index == RollingHash(key) % size
  {
    var h := 0;
    var i := 0;
    while i < |key|
      invariant 0 <= i <= |key|
      invariant h == RollingHash(key[..i])
    {
      assert key[..i + 1][..i] == key[..i];
      h := (31 * h + CharValue(key[i])) % TwoTo32;
      i := i + 1;
    }
    assert key[..i] == key;
    index := h % size;
  }

  datatype Entry<V> = Entry(key: string, value: V)

  /** A bucket chain, head first. */
  type Chain<V> = seq<Entry<V>>

  /** The bucket array: one chain per bucket. */
  type Table<V> = seq<Chain<V>>

  /** Position of the first entry of the chain with this key, |c| if none. */
  function FirstIndex<V>(c: Chain<V>, key: string): (i: nat)
    ensures i <= |c|
    ensures i < |c| ==> c[i].key == key
    ensures forall j :: 0 <= j < i ==> c[j].key != key
  {
    if c == [] then 0
    else if c[0].key == key then 0
    else 1 + FirstIndex(c[1..], key)
  }

  predicate InChain<V>(c: Chain<V>, key: string) { FirstIndex(c, key) < |c| }

  /** The chain walk of getValueFromHashMap. */
  function ChainGet<V>(c: Chain<V>, key: string): Option<V>
  {
    var i := FirstIndex(c, key);
    if i < |c| then Some(c[i].value) else None
  }

  /** The chain after insertToHashMap: the first equal key gets the new value,
      otherwise a new entry goes in front. */
  function ChainPut<V>(c: Chain<V>, key: string, value: V): Chain<V>
  {
    var i := FirstIndex(c, key);
    if i < |c| then c[i := Entry(c[i].key, value)] else [Entry(key, value)] + c
  }

  /** The chain after removeFromHashMap: the first equal key is unlinked. */
  function ChainRemove<V>(c: Chain<V>, key: string): Chain<V>
  {
    var i := FirstIndex(c, key);
    if i < |c| then c[..i] + c[i + 1..] else c
  }

  /** The table newHashMap allocates: every bucket NULL. */
  function EmptyTable<V>(size: nat): (t: Table<V>)
    ensures |t| == size && forall b :: 0 <= b < size ==> t[b] == []
  {
    seq(size, _ => [])
  }

  function TableGet<V>(t: Table<V>, key: string): Option<V>
    requires |t| > 0
  {
    ChainGet(t[Bucket(key, |t|)], key)
  }

  function TablePut<V>(t: Table<V>, key: string, value: V): (r: Table<V>)
    requires |t| > 0
    ensures |r| == |t|
  {
    var b := Bucket(key, |t|);
    t[b := ChainPut(t[b], key, value)]
  }

  function TableRemove<V>(t: Table<V>, key: string): (r: Table<V>)
    requires |t| > 0
    ensures |r| == |t|
  {
    var b := Bucket(key, |t|);
    t[b := ChainRemove(t[b], key)]
  }

  predicate DistinctKeys<V>(c: Chain<V>)
  {
    forall i, j :: 0 <= i < j < |c| ==> c[i].key != c[j].key
  }

  /** Every entry sits in its key's bucket and no chain holds a key twice. */
  predicate WellFormed<V>(t: Table<V>)
  {
    |t| > 0 &&
    (forall b, i :: 0 <= b < |t| && 0 <= i < |t[b]| ==> Bucket(t[b][i].key, |t|) == b) &&
    (forall b :: 0 <= b < |t| ==> DistinctKeys(t[b]))
  }

  function Lookup<V>(m: map<string, V>, key: string): Option<V>
  {
    if key in m then Some(m[key]) else None
  }

  /** The table stores exactly the finite map m. */
  ghost predicate Abstracts<V>(t: Table<V>, m: map<string, V>)
    requires |t| > 0
  {
    forall key :: TableGet(t, key) == Lookup(m, key)
  }

  /** A fresh map answers NULL for every key. */
  lemma EmptyTableIsEmpty<V>(size: nat)
    requires size > 0
    ensures WellFormed(EmptyTable<V>(size))
    ensures Abstracts(EmptyTable<V>(size), map[])
  {
  }

  /** Lookup after insert: the inserted key finds the new value, every other
      key finds what it found before. */
  lemma {:induction false} GetAfterPut<V>(t: Table<V>, key: string, value: V, other: string)
    requires |t| > 0
    ensures TableGet(TablePut(t, key, value), other) ==
            if other == key then Some(value) else TableGet(t, other)
  {
    var b := Bucket(key, |t|);
    var c := t[b];
    var i := FirstIndex(c, key);
    var c' := ChainPut(c, key, value);
    if Bucket(other, |t|) == b {
      if i < |c| {
        assert forall j :: 0 <= j < |c'| ==> c'[j].key == c[j].key;
        FirstIndexSameKeys(c, c', other);
      } else {
        if other != key {
          FirstIndexBehindHead(c, Entry(key, value), other);
        }
      }
    }
  }

  /** Replacing a value (not a key) does not move where a key is first found. */
  lemma {:induction false} FirstIndexSameKeys<V>(c: Chain<V>, d: Chain<V>, key: string)
    requires |c| == |d| && forall j :: 0 <= j < |c| ==> c[j].key == d[j].key
    ensures FirstIndex(c, key) == FirstIndex(d, key)
  {
    if c != [] && c[0].key != key {
      FirstIndexSameKeys(c[1..], d[1..], key);
    }
  }

  lemma FirstIndexBehindHead<V>(c: Chain<V>, e: Entry<V>, key: string)
    requires e.key != key
    ensures FirstIndex([e] + c, key) == 1 + FirstIndex(c, key)
  {
    assert ([e] + c)[1..] == c;
  }

  /** Inserting a key that is present replaces that entry's value in the same
      position and adds no entry. */
  lemma PutPresentKey<V>(t: Table<V>, key: string, value: V)
    requires |t| > 0 && InChain(t[Bucket(key, |t|)], key)
    ensures var b := Bucket(key, |t|);
      var i := FirstIndex(t[b], key);
      TablePut(t, key, value) == t[b := t[b][i := Entry(key, value)]] &&
      |TablePut(t, key, value)[b]| == |t[b]|
  {
  }

  /** Inserting a new key prepends exactly one entry to its chain; all other
      buckets stay as they were. */
  lemma PutAbsentKey<V>(t: Table<V>, key: string, value: V)
    requires |t| > 0 && !InChain(t[Bucket(key, |t|)], key)
    ensures var b := Bucket(key, |t|);
      TablePut(t, key, value) == t[b := [Entry(key, value)] + t[b]]
  {
  }

  lemma PutWellFormed<V>(t: Table<V>, key: string, value: V)
    requires WellFormed(t)
    ensures WellFormed(TablePut(t, key, value))
  {
    var b := Bucket(key, |t|);
    var c := t[b];
    var i := FirstIndex(c, key);
    var c' := ChainPut(c, key, value);
    if i < |c| {
      assert forall j :: 0 <= j < |c'| ==> c'[j].key == c[j].key;
    } else {
      assert forall j :: 0 < j < |c'| ==> c'[j] == c[j - 1];
    }
  }

  /** First-match positions are determined by the two defining properties. */
  lemma FirstIndexIs<V>(c: Chain<V>, key: string, i: nat)
    requires i <= |c| && (i < |c| ==> c[i].key == key)
    requires forall j :: 0 <= j < i ==> c[j].key != key
    ensures FirstIndex(c, key) == i
  {
  }

  /** The chain with position i unlinked, element by element. */
  lemma UnlinkAt<V>(c: Chain<V>, i: nat, d: Chain<V>)
    requires i < |c| && d == c[..i] + c[i + 1..]
    ensures |d| == |c| - 1
    ensures forall j :: 0 <= j < i ==> d[j] == c[j]
    ensures forall j :: i <= j < |d| ==> d[j] == c[j + 1]
  {
  }

  lemma ChainGetAfterRemove<V>(c: Chain<V>, key: string, other: string)
    requires DistinctKeys(c)
    ensures ChainGet(ChainRemove(c, key), other) == if other == key then None else ChainGet(c, other)
  {
    var i := FirstIndex(c, key);
    if i < |c| {
      var c' := c[..i] + c[i + 1..];
      UnlinkAt(c, i, c');
      if other == key {
        forall j | 0 <= j < |c'| ensures c'[j].key != key {
          if j >= i { assert c'[j] == c[j + 1]; assert c[i].key != c[j + 1].key; }
        }
        FirstIndexIs(c', key, |c'|);
      } else {
        var k := FirstIndex(c, other);
        if k < i {
          FirstIndexIs(c', other, k);
        } else if k < |c| {
          assert k != i;
          forall j | 0 <= j < k - 1 ensures c'[j].key != other {
            if j >= i { assert c'[j] == c[j + 1]; }
          }
          FirstIndexIs(c', other, k - 1);
        } else {
          forall j | 0 <= j < |c'| ensures c'[j].key != other {
            if j >= i { assert c'[j] == c[j + 1]; }
          }
          FirstIndexIs(c', other, |c'|);
        }
      }
    }
  }

  /** Lookup after remove: the removed key is gone, the others are
      unaffected. */
  lemma GetAfterRemove<V>(t: Table<V>, key: string, other: string)
    requires WellFormed(t)
    ensures TableGet(TableRemove(t, key), other) ==
            if other == key then None else TableGet(t, other)
  {
    var b := Bucket(key, |t|);
    if Bucket(other, |t|) == b {
      ChainGetAfterRemove(t[b], key, other);
    }
  }

  lemma RemoveWellFormed<V>(t: Table<V>, key: string)
    requires WellFormed(t)
    ensures WellFormed(TableRemove(t, key))
  {
    var b := Bucket(key, |t|);
    var c := t[b];
    var i := FirstIndex(c, key);
    if i < |c| {
      var c' := ChainRemove(c, key);
      assert forall j :: 0 <= j < i ==> c'[j] == c[j];
      assert forall j :: i <= j < |c'| ==> c'[j] == c[j + 1];
    }
  }

  lemma PutAbstracts<V>(t: Table<V>, m: map<string, V>, key: string, value: V)
    requires |t| > 0 && Abstracts(t, m)
    ensures Abstracts(TablePut(t, key, value), m[key := value])
  {
    forall other ensures TableGet(TablePut(t, key, value), other) == Lookup(m[key := value], other) {
      GetAfterPut(t, key, value, other);
    }
  }

  lemma RemoveAbstracts<V>(t: Table<V>, m: map<string, V>, key: string)
    requires WellFormed(t) && Abstracts(t, m)
    ensures Abstracts(TableRemove(t, key), m - {key})
  {
    forall other ensures TableGet(TableRemove(t, key), other) == Lookup(m - {key}, other) {
      GetAfterRemove(t, key, other);
    }
  }

  /** A HashMap object: `size` buckets in `entries`, standing for the finite
      map Contents. */
  class HashMap<V> {
    const size: int
    var entries: array<Chain<V>>
    ghost var Contents: map<string, V>

    ghost predicate Valid()
      reads this, entries
    {
      size > 0 && entries.Length == size && WellFormed(entries[..]) &&
      Abstracts(entries[..], Contents)
    }

    /** newHashMap: `size` buckets, all NULL. */
    constructor (size: int)
      requires size > 0
      ensures Valid() && fresh(entries) && this.size == size
      ensures entries[..] == EmptyTable(size) && Contents == map[]
    {
      this.size := size;
      var a := new Chain<V>[size];
      var i := 0;
      while i < size
        invariant 0 <= i <= size
        invariant forall b :: 0 <= b < i ==> a[b] == []
      {
        a[i] := [];
        i := i + 1;
      }
      entries := a;
      Contents := map[];
      new;
      assert entries[..] == EmptyTable(size);
      EmptyTableIsEmpty<V>(size);
    }

    /** getValueFromHashMap: the stored value, None for NULL. */
    method Get(key: string) returns (value: Option<V>)
      requires Valid()
      ensures value == TableGet(entries[..], key)
      ensures value == Lookup(Contents, key)
    {
      var index := Hash(key, size);
      var chain := entries[index];
      var j := 0;
      while j < |chain| && chain[j].key != key
        invariant 0 <= j <= |chain|
        invariant forall k :: 0 <= k < j ==> chain[k].key != key
      {
        j := j + 1;
      }
      assert j == FirstIndex(chain, key);
      value := if j < |chain| then Some(chain[j].value) else None;
    }

    /** insertToHashMap */
    method Insert(key: string, value: V)
      requires Valid()
      modifies this, entries
      ensures Valid() && entries == old(entries)
      ensures entries[..] == TablePut(old(entries[..]), key, value)
      ensures Contents == old(Contents)[key := value]
    {
      var index := Hash(key, size);
      var chain := entries[index];
      var j := 0;
      while j < |chain| && chain[j].key != key
        invariant 0 <= j <= |chain|
        invariant forall k :: 0 <= k < j ==> chain[k].key != key
      {
        j := j + 1;
      }
      assert j == FirstIndex(chain, key);
      ghost var t := entries[..];
      if j < |chain| {
        entries[index] := chain[j := Entry(chain[j].key, value)];
      } else {
        entries[index] := [Entry(key, value)] + chain;
      }
      assert entries[..] == TablePut(t, key, value);
      PutWellFormed(t, key, value);
      PutAbstracts(t, Contents, key, value);
      Contents := Contents[key := value];
    }

    /** removeFromHashMap: -1 when the key is absent (nothing changes), else 0
        with the entry unlinked, at the head of its chain or behind `pred`. */
    method Remove(key: string) returns (r: int)
      requires Valid()
      modifies this, entries
      ensures Valid() && entries == old(entries)
      ensures r == (if key in old(Contents) then 0 else -1)
      ensures entries[..] == TableRemove(old(entries[..]), key)
      ensures Contents == old(Contents) - {key}
      ensures r == -1 ==> entries[..] == old(entries[..]) && Contents == old(Contents)
    {
      var index := Hash(key, size);
      var chain := entries[index];
      var j := 0;
      while j < |chain| && chain[j].key != key
        invariant 0 <= j <= |chain|
        invariant forall k :: 0 <= k < j ==> chain[k].key != key
      {
        j := j + 1;
      }
      assert j == FirstIndex(chain, key);
      ghost var t := entries[..];
      assert TableGet(t, key) == Lookup(Contents, key);
      if j == |chain| {
        assert TableRemove(t, key) == t;
        assert key !in Contents;
        assert Contents - {key} == Contents;
        return -1;
      }
      if j == 0 {
        entries[index] := chain[1..];
        assert chain[..0] + chain[1..] == chain[1..];
      } else {
        entries[index] := chain[..j] + chain[j + 1..];
      }
      assert entries[..] == TableRemove(t, key);
      RemoveWellFormed(t, key);
      RemoveAbstracts(t, Contents, key);
      Contents := Contents - {key};
      r := 0;
    }

    /** freeHashMap, seen from the map's contents: afterwards it is empty. */
    method Free()
      requires Valid()
      modifies this, entries
      ensures Valid() && entries == old(entries)
      ensures entries[..] == EmptyTable(size) && Contents == map[]
    {
      var i := 0;
      while i < size
        invariant 0 <= i <= size
        invariant forall b :: 0 <= b < i ==> entries[b] == []
        modifies entries
      {
        entries[i] := [];
        i := i + 1;
      }
      assert entries[..] == EmptyTable(size);
      EmptyTableIsEmpty<V>(size);
      Contents := map[];
    }
  }
}
