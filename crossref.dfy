// The cross reference listing of 4/parse.c (printCrossreferenceTable with
// compareEntryKeys): the entries of a table are gathered bucket by bucket
// into an array, which qsort puts in strcmp order of the keys. The listing is
// modelled as the sequence of entries in printing order; the rows' text is
// left out.
module CrossReference {
  import opened Wrappers
  import opened Lpp
  import opened HashMap
  import opened Symbols
  import opened Chars

  /** Each key sorts no later than the next one. */
  predicate SortedByKey(s: seq<Entry<Id>>)
  {
    forall i :: 0 <= i < |s| - 1 ==> !Before(s[i + 1].key, s[i].key)
  }

  /** Two different strings are ordered one way or the other by strcmp. */
  lemma {:induction false} BeforeTotal(a: string, b: string)
    requires a != b
    ensures Before(a, b) || Before(b, a)
    decreases |a|
  {
    if a != [] && b != [] && a[0] == b[0] {
      assert a == [a[0]] + a[1..] && b == [b[0]] + b[1..];
      BeforeTotal(a[1..], b[1..]);
    }
  }

  /** Not both of a, b sort before the other. */
  lemma BeforeAsymmetric(a: string, b: string)
    requires Before(a, b)
    ensures !Before(b, a)
  {
    if Before(b, a) {
      BeforeTransitive(a, b, a);
      BeforeIrreflexive(a);
    }
  }

  /** "Sorts no later than" is transitive. */
  lemma NotAfterTransitive(a: string, b: string, c: string)
    requires !Before(b, a) && !Before(c, b)
    ensures !Before(c, a)
  {
    if Before(c, a) {
      if a == b {
      } else {
        BeforeTotal(a, b);
        BeforeTransitive(c, a, b);
      }
    }
  }

  /** The entry put in front of the first entry that does not sort before
      it. */
  function InsertByKey(e: Entry<Id>, s: seq<Entry<Id>>): (r: seq<Entry<Id>>)
    ensures |r| == |s| + 1
  {
    if s == [] then [e]
    else if !Before(s[0].key, e.key) then [e] + s
    else [s[0]] + InsertByKey(e, s[1..])
  }

  /** The order qsort with compareEntryKeys leaves the array in: insertion
      of each entry into the sorted rest. Entries with equal keys may come
      in any order, as with qsort. */
  function SortByKey(s: seq<Entry<Id>>): (r: seq<Entry<Id>>)
    ensures |r| == |s|
  {
    if s == [] then [] else InsertByKey(s[0], SortByKey(s[1..]))
  }

  /** Inserting keeps the multiset and adds the entry, and the result starts
      with the entry or with the sequence's first entry. */
  lemma {:induction false} InsertByKeyContents(e: Entry<Id>, s: seq<Entry<Id>>)
    ensures multiset(InsertByKey(e, s)) == multiset(s) + multiset{e}
    ensures InsertByKey(e, s)[0] == e || (s != [] && InsertByKey(e, s)[0] == s[0])
  {
    if s != [] && Before(s[0].key, e.key) {
      InsertByKeyContents(e, s[1..]);
      assert s == [s[0]] + s[1..];
    }
  }

  /** Inserting into a sorted sequence gives a sorted sequence. */
  lemma {:induction false} InsertByKeySorted(e: Entry<Id>, s: seq<Entry<Id>>)
    requires SortedByKey(s)
    ensures SortedByKey(InsertByKey(e, s))
  {
    if s != [] && Before(s[0].key, e.key) {
      var rest := s[1..];
      assert SortedByKey(rest) by {
        forall i | 0 <= i < |rest| - 1 ensures !Before(rest[i + 1].key, rest[i].key) {
          assert rest[i] == s[i + 1] && rest[i + 1] == s[i + 2];
        }
      }
      InsertByKeySorted(e, rest);
      InsertByKeyContents(e, rest);
      var ins := InsertByKey(e, rest);
      var r := [s[0]] + ins;
      if ins[0] == e {
        BeforeAsymmetric(s[0].key, e.key);
      } else {
        assert ins[0] == s[1];
      }
      forall i | 0 <= i < |r| - 1 ensures !Before(r[i + 1].key, r[i].key) {
        if i > 0 {
          assert r[i] == ins[i - 1] && r[i + 1] == ins[i];
        }
      }
    }
  }

  /** SortByKey sorts and keeps every entry: a sorted permutation. */
  lemma {:induction false} SortByKeySorts(s: seq<Entry<Id>>)
    ensures SortedByKey(SortByKey(s))
    ensures multiset(SortByKey(s)) == multiset(s)
  {
    if s != [] {
      SortByKeySorts(s[1..]);
      InsertByKeySorted(s[0], SortByKey(s[1..]));
      InsertByKeyContents(s[0], SortByKey(s[1..]));
      assert s == [s[0]] + s[1..];
    }
  }

  /** In a sorted sequence every key sorts no later than every key behind
      it, not only the next one. */
  lemma {:induction false} SortedByKeyPairs(s: seq<Entry<Id>>, i: int, j: int)
    requires SortedByKey(s) && 0 <= i <= j < |s|
    ensures !Before(s[j].key, s[i].key)
    decreases j - i
  {
    if i == j {
      BeforeIrreflexive(s[i].key);
    } else {
      SortedByKeyPairs(s, i + 1, j);
      NotAfterTransitive(s[i].key, s[i + 1].key, s[j].key);
    }
  }

  /** printCrossreferenceTable without the printing: the nested loops that
      gather the entries bucket by bucket, then qsort by key. The rows are
      the table's entries, each once, in strcmp order of the keys. */
  method CrossReferenceRows(t: Table<Id>) returns (rows: seq<Entry<Id>>)
    ensures SortedByKey(rows) && multiset(rows) == multiset(Entries(t))
  {
    var gathered: seq<Entry<Id>> := [];
    var b := 0;
    while b < |t|
      invariant 0 <= b <= |t| && gathered == Entries(t[..b])
    {
      var chain := t[b];
      var k := 0;
      while k < |chain|
        invariant 0 <= k <= |chain| && gathered == Entries(t[..b]) + chain[..k]
      {
        assert chain[..k + 1] == chain[..k] + [chain[k]];
        gathered := gathered + [chain[k]];
        k := k + 1;
      }
      assert t[..b + 1][..b] == t[..b];
      assert chain[..k] == chain;
      b := b + 1;
    }
    assert t[..b] == t;
    SortByKeySorts(gathered);
    rows := SortByKey(gathered);
  }
}
