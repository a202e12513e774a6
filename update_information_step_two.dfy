/**
 * The option lists of the influencer's content step: every entry but the
 * last is sorted by the lower-cased first character of its value, and a
 * final "Other" entry is appended. JavaScript's `sort` is stable, so the
 * result is the stable sort; it is computed here by insertion.
 * `localeCompare` on the single lower-cased characters is taken as their
 * code order, which agrees with it on the ASCII letters the lists start with.
 */
module UpdateInformationStepTwo {
  import opened Common

  /** A `[value, label]` pair. */
  datatype Entry = Entry(value: string, text: string)

  /** Every value has a first character, which the comparator reads. */
  predicate NonEmptyValues(s: seq<Entry>)
  {
    forall i :: 0 <= i < |s| ==> s[i].value != []
  }

  function Key(e: Entry): char
    requires e.value != []
  {
    LowerChar(e.value[0])
  }

  predicate SortedByKey(s: seq<Entry>)
    requires NonEmptyValues(s)
  {
    forall i, j :: 0 <= i < j < |s| ==> Key(s[i]) <= Key(s[j])
  }

  /** The entries whose key is `k`, in their order. */
  function WithKey(s: seq<Entry>, k: char): (r: seq<Entry>)
    requires NonEmptyValues(s)
    ensures |r| <= |s|
  {
    if s == [] then []
    else WithKey(s[..|s| - 1], k) + (if Key(s[|s| - 1]) == k then [s[|s| - 1]] else [])
  }

  /** Inserts `x` after every entry whose key is not greater than its own. */
  function Insert(x: Entry, s: seq<Entry>): (r: seq<Entry>)
    requires x.value != [] && NonEmptyValues(s)
    ensures NonEmptyValues(r) && |r| == |s| + 1 && multiset(r) == multiset(s) + multiset{x}
  {
    if s == [] then [x]
    else if Key(x) < Key(s[0]) then [x] + s
    else
      assert s == [s[0]] + s[1..];
      [s[0]] + Insert(x, s[1..])
  }

  /** The stable sort by key. */
  function Sort(s: seq<Entry>): (r: seq<Entry>)
    requires NonEmptyValues(s)
    ensures NonEmptyValues(r) && |r| == |s| && multiset(r) == multiset(s)
  {
    if s == [] then []
    else
      assert s == s[..|s| - 1] + [s[|s| - 1]];
      Insert(s[|s| - 1], Sort(s[..|s| - 1]))
  }

  /** `data.slice(0, -1).sort(byFirstLetter).concat(tail.slice(-1))`. */
  function ItemsWithTail(data: seq<Entry>, tail: seq<Entry>): seq<Entry>
    requires NonEmptyValues(data)
  {
    (if data == [] then [] else Sort(data[..|data| - 1])) + (if tail == [] then [] else [tail[|tail| - 1]])
  }

  /** A list's own items: its last entry is the one appended. */
  function Items(data: seq<Entry>): seq<Entry>
    requires NonEmptyValues(data)
  {
    ItemsWithTail(data, data)
  }

  /** The `value` of each item, in order. */
  function Values(items: seq<Entry>): (r: seq<string>)
    ensures |r| == |items| && forall i :: 0 <= i < |items| ==> r[i] == items[i].value
  {
    seq(|items|, i requires 0 <= i < |items| => items[i].value)
  }

  predicate DistinctValues(s: seq<Entry>)
  {
    forall i, j :: 0 <= i < j < |s| ==> s[i].value != s[j].value
  }

  const NicheOther := Entry("Other", "Other (for categories not listed)")
  const SpecializationOther := Entry("Other", "Other (for specializations not listed)")

  /** The specialization items as written: its sorted entries followed by the niche list's last entry. */
  function SpecializationItemsAsWritten(specializationData: seq<Entry>, nicheData: seq<Entry>): seq<Entry>
    requires NonEmptyValues(specializationData)
  {
    ItemsWithTail(specializationData, nicheData)
  }

  /** The specialization items as intended: the list's own last entry is appended. */
  function SpecializationItems(specializationData: seq<Entry>): seq<Entry>
    requires NonEmptyValues(specializationData)
  {
    Items(specializationData)
  }

  // ---- Properties ----

  /** Every key of `s` is at least `c`. */
  predicate KeysFrom(s: seq<Entry>, c: char)
    requires NonEmptyValues(s)
  {
    forall i :: 0 <= i < |s| ==> c <= Key(s[i])
  }

  lemma SortedTail(s: seq<Entry>)
    requires NonEmptyValues(s) && SortedByKey(s) && s != []
    ensures NonEmptyValues(s[1..]) && SortedByKey(s[1..]) && KeysFrom(s[1..], Key(s[0]))
  {
    forall i, j | 0 <= i < j < |s[1..]| ensures Key(s[1..][i]) <= Key(s[1..][j]) {
      assert s[1..][i] == s[i + 1] && s[1..][j] == s[j + 1];
    }
    forall i | 0 <= i < |s[1..]| ensures Key(s[0]) <= Key(s[1..][i]) {
      assert s[1..][i] == s[i + 1];
    }
  }

  /** A sorted list headed by `e` whose tail keys are at least `Key(e)`. */
  lemma SortedCons(e: Entry, r: seq<Entry>)
    requires e.value != [] && NonEmptyValues(r) && SortedByKey(r) && KeysFrom(r, Key(e))
    ensures NonEmptyValues([e] + r) && SortedByKey([e] + r)
  {
    var t := [e] + r;
    forall i, j | 0 <= i < j < |t| ensures Key(t[i]) <= Key(t[j]) {
      assert t[j] == r[j - 1];
      if i > 0 {
        assert t[i] == r[i - 1];
      }
    }
  }

  lemma {:induction false} InsertKeysFrom(x: Entry, s: seq<Entry>, c: char)
    requires x.value != [] && NonEmptyValues(s) && KeysFrom(s, c) && c <= Key(x)
    ensures KeysFrom(Insert(x, s), c)
  {
    if s != [] && Key(x) >= Key(s[0]) {
      assert KeysFrom(s[1..], c) by {
        forall i | 0 <= i < |s[1..]| ensures c <= Key(s[1..][i]) {
          assert s[1..][i] == s[i + 1];
        }
      }
      InsertKeysFrom(x, s[1..], c);
      var t := [s[0]] + Insert(x, s[1..]);
      forall i | 0 <= i < |t| ensures c <= Key(t[i]) {
        if i > 0 {
          assert t[i] == Insert(x, s[1..])[i - 1];
        }
      }
    }
  }

  lemma {:induction false} InsertSorted(x: Entry, s: seq<Entry>)
    requires x.value != [] && NonEmptyValues(s) && SortedByKey(s)
    ensures SortedByKey(Insert(x, s))
  {
    if s == [] {
    } else if Key(x) < Key(s[0]) {
      SortedTail(s);
      assert KeysFrom(s, Key(x)) by {
        forall i | 0 <= i < |s| ensures Key(x) <= Key(s[i]) {
          if i > 0 {
            assert s[i] == s[1..][i - 1];
          }
        }
      }
      SortedCons(x, s);
    } else {
      SortedTail(s);
      InsertSorted(x, s[1..]);
      InsertKeysFrom(x, s[1..], Key(s[0]));
      SortedCons(s[0], Insert(x, s[1..]));
    }
  }

  /** The sort orders by the lower-cased first character. */
  lemma {:induction false} SortSorted(s: seq<Entry>)
    requires NonEmptyValues(s)
    ensures SortedByKey(Sort(s))
    decreases |s|
  {
    if s != [] {
      SortSorted(s[..|s| - 1]);
      InsertSorted(s[|s| - 1], Sort(s[..|s| - 1]));
    }
  }

  lemma {:induction false} WithKeyPrepend(e: Entry, s: seq<Entry>, k: char)
    requires e.value != [] && NonEmptyValues(s)
    ensures WithKey([e] + s, k) == (if Key(e) == k then [e] else []) + WithKey(s, k)
    decreases |s|
  {
    if s == [] {
      assert [e] + s == [e];
      assert ([e] + s)[..0] == [];
    } else {
      var t := [e] + s;
      assert t[..|t| - 1] == [e] + s[..|s| - 1];
      assert t[|t| - 1] == s[|s| - 1];
      WithKeyPrepend(e, s[..|s| - 1], k);
    }
  }

  /** Inserting `x` into a sorted list puts it after every entry of its key. */
  lemma {:induction false} InsertKeepsKeyOrder(x: Entry, s: seq<Entry>, k: char)
    requires x.value != [] && NonEmptyValues(s) && SortedByKey(s)
    ensures WithKey(Insert(x, s), k) == WithKey(s, k) + (if Key(x) == k then [x] else [])
  {
    if s == [] {
      assert [x][..0] == [];
    } else if Key(x) < Key(s[0]) {
      InsertBeforeFirst(x, s, k);
    } else {
      SortedTail(s);
      InsertKeepsKeyOrder(x, s[1..], k);
      PrependKeepsKeyOrder(s[0], Insert(x, s[1..]), s[1..], if Key(x) == k then [x] else [], k);
      assert [s[0]] + s[1..] == s;
    }
  }

  /** An entry put before a sorted list of greater keys comes after that list's entries of its key, of which there are none. */
  lemma InsertBeforeFirst(x: Entry, s: seq<Entry>, k: char)
    requires x.value != [] && NonEmptyValues(s) && SortedByKey(s) && s != [] && Key(x) < Key(s[0])
    ensures WithKey([x] + s, k) == WithKey(s, k) + (if Key(x) == k then [x] else [])
  {
    WithKeyPrepend(x, s, k);
    if Key(x) == k {
      NoKeyBelowFirst(s, k);
    }
  }

  lemma PrependKeepsKeyOrder(e: Entry, a: seq<Entry>, b: seq<Entry>, own: seq<Entry>, k: char)
    requires e.value != [] && NonEmptyValues(a) && NonEmptyValues(b) && WithKey(a, k) == WithKey(b, k) + own
    ensures WithKey([e] + a, k) == WithKey([e] + b, k) + own
  {
    var h := if Key(e) == k then [e] else [];
    WithKeyPrepend(e, a, k);
    WithKeyPrepend(e, b, k);
    var wb := WithKey(b, k);
    assert h + (wb + own) == (h + wb) + own;
  }

  /** A sorted list whose first key is above `k` has no entry of key `k`. */
  lemma {:induction false} NoKeyBelowFirst(s: seq<Entry>, k: char)
    requires NonEmptyValues(s) && SortedByKey(s) && s != [] && k < Key(s[0])
    ensures WithKey(s, k) == []
    decreases |s|
  {
    if |s| > 1 {
      var p := s[..|s| - 1];
      assert p[0] == s[0];
      assert SortedByKey(p);
      NoKeyBelowFirst(p, k);
      assert Key(s[|s| - 1]) >= Key(s[0]);
    } else {
      assert s[..0] == [];
    }
  }

  /** The sort is stable: the entries of each key keep their source order. */
  lemma {:induction false} SortStable(s: seq<Entry>, k: char)
    requires NonEmptyValues(s)
    ensures WithKey(Sort(s), k) == WithKey(s, k)
    decreases |s|
  {
    if s != [] {
      var p := s[..|s| - 1];
      SortStable(p, k);
      SortSorted(p);
      InsertKeepsKeyOrder(s[|s| - 1], Sort(p), k);
    }
  }

  /** A list keeps its length and ends with its own last entry; the rest is the sorted permutation of the others. */
  lemma ItemsShape(data: seq<Entry>)
    requires NonEmptyValues(data) && data != []
    ensures var items := Items(data);
      && |items| == |data|
      && items[|items| - 1] == data[|data| - 1]
      && multiset(items[..|items| - 1]) == multiset(data[..|data| - 1])
      && NonEmptyValues(items[..|items| - 1]) && SortedByKey(items[..|items| - 1])
  {
    var items := Items(data);
    assert items[..|items| - 1] == Sort(data[..|data| - 1]);
    SortSorted(data[..|data| - 1]);
  }

  /** Within a list's sorted part, the entries of each key keep their source order. */
  lemma ItemsStable(data: seq<Entry>, k: char)
    requires NonEmptyValues(data) && data != []
    ensures var items := Items(data);
      |items| == |data| && NonEmptyValues(items[..|items| - 1])
      && WithKey(items[..|items| - 1], k) == WithKey(data[..|data| - 1], k)
  {
    var items := Items(data);
    assert items[..|items| - 1] == Sort(data[..|data| - 1]);
    SortStable(data[..|data| - 1], k);
  }

  /** Every item's value is its entry's value; distinct source values stay distinct. */
  lemma ValuesDistinct(data: seq<Entry>)
    requires NonEmptyValues(data) && data != [] && DistinctValues(data)
    ensures DistinctValues(Items(data)) && Values(Items(data))[|data| - 1] == data[|data| - 1].value
  {
    var items := Items(data);
    ItemsShape(data);
    assert items == items[..|items| - 1] + [data[|data| - 1]];
    assert data == data[..|data| - 1] + [data[|data| - 1]];
    assert multiset(items) == multiset(data);
    PermutationKeepsDistinct(items, data);
  }

  /** A permutation of entries with distinct values has distinct values. */
  lemma PermutationKeepsDistinct(body: seq<Entry>, src: seq<Entry>)
    requires multiset(body) == multiset(src) && DistinctValues(src)
    ensures DistinctValues(body)
  {
    forall i, j | 0 <= i < j < |body| ensures body[i].value != body[j].value {
      assert body[i] in multiset(src) && body[j] in multiset(src);
      var a :| 0 <= a < |src| && src[a] == body[i];
      var b :| 0 <= b < |src| && src[b] == body[j];
      if body[i].value == body[j].value {
        assert a == b;
        assert multiset(body)[src[a]] >= 2 by {
          assert body == body[..i] + [body[i]] + body[i + 1..j] + [body[j]] + body[j + 1..];
        }
        SingleOccurrence(src, a);
        assert false;
      }
    }
  }

  /** With distinct values, each entry occurs once. */
  lemma {:induction false} SingleOccurrence(src: seq<Entry>, a: nat)
    requires a < |src| && DistinctValues(src)
    ensures multiset(src)[src[a]] == 1
    decreases |src|
  {
    var last := |src| - 1;
    var p := src[..last];
    assert src == p + [src[last]];
    assert DistinctValues(p);
    if a < last {
      SingleOccurrence(p, a);
      assert src[last].value != src[a].value;
    } else {
      forall c | 0 <= c < |p| ensures p[c] != src[last] {
        assert p[c] == src[c];
      }
      assert src[last] !in p;
    }
  }

  /** As written, the specialization list ends with the niche list's "Other" text. */
  lemma SpecializationEndsWithNicheOther(specializationData: seq<Entry>, nicheData: seq<Entry>)
    requires NonEmptyValues(specializationData) && specializationData != [] && nicheData != []
    requires nicheData[|nicheData| - 1] == NicheOther && specializationData[|specializationData| - 1] == SpecializationOther
    ensures var items := SpecializationItemsAsWritten(specializationData, nicheData);
      && items[|items| - 1] == NicheOther
      && items[|items| - 1].text != specializationData[|specializationData| - 1].text
      && items[|items| - 1].value == specializationData[|specializationData| - 1].value
  {
  }

  /** As intended, it ends with its own "Other" entry. */
  lemma SpecializationEndsWithOwnOther(specializationData: seq<Entry>)
    requires NonEmptyValues(specializationData) && specializationData != []
    requires specializationData[|specializationData| - 1] == SpecializationOther
    ensures var items := SpecializationItems(specializationData);
      && |items| == |specializationData| && items[|items| - 1] == SpecializationOther
  {
    ItemsShape(specializationData);
  }
}
