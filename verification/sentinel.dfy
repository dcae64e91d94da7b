/**
 * SentinelX, the start-up integrity scrubber (services/SentinelX.ts).
 *
 * `CheckIntegrity` walks three storage keys; a value that is present, not
 * empty and does not parse is replaced by the text `[]`. It then rebuilds
 * the transactions list through a JavaScript `Map` keyed by `id` and writes
 * it back when that removed duplicates. Each write adds one to the count it
 * returns; `Heal` logs one audit entry when the count is positive.
 */
module SentinelX {
  import opened Wrappers
  import opened Storage
  import opened Types
  import Strings

  /** The keys the scrubber checks, in the order it checks them. */
  const CheckedKeys: seq<string> := [TransactionsKey, ProductsKey, ProfileKey]

  /** `JSON.stringify([])`, written in place of a corrupt value. */
  const EmptyArrayText: string := "[]"

  // ---------------------------------------------------------- the JS Map

  /** A `Map` key: the record's `id` property, or None for `undefined`. */
  type Key = Option<Json>

  function IdKey(v: Json): Key
  {
    if v.JObj? && "id" in v.fields then Some(v.fields["id"]) else None
  }

  /** The state of a JavaScript `Map`: keys in insertion order, and the value under each. */
  datatype JsMap = JsMap(order: seq<Key>, entries: map<Key, Json>)

  /** `map.set(t.id, t)`: a new key goes to the end, a known key keeps its place and takes the new value. */
  function Set(m: JsMap, v: Json): JsMap
  {
    var k := IdKey(v);
    if k in m.entries then JsMap(m.order, m.entries[k := v])
    else JsMap(m.order + [k], m.entries[k := v])
  }

  ghost function KeysOf(xs: seq<Json>): set<Key>
  {
    set i | 0 <= i < |xs| :: IdKey(xs[i])
  }

  /** No two records of `xs` share an id. */
  ghost predicate IdsDistinct(xs: seq<Json>)
  {
    forall i, j :: 0 <= i < j < |xs| ==> IdKey(xs[i]) != IdKey(xs[j])
  }

  /** `new Map(xs.map(t => [t.id, t]))`: the records inserted one after the other. */
  function FromItems(xs: seq<Json>): (m: JsMap)
    ensures forall i :: 0 <= i < |m.order| ==> m.order[i] in m.entries
    ensures forall i, j :: 0 <= i < j < |m.order| ==> m.order[i] != m.order[j]
    ensures forall k :: k in m.entries ==> k in m.order && IdKey(m.entries[k]) == k
    ensures m.entries.Keys == KeysOf(xs)
    ensures |m.order| <= |xs|
    decreases |xs|
  {
    if xs == [] then JsMap([], map[])
    else
      var init := xs[..|xs| - 1];
      assert KeysOf(xs) == KeysOf(init) + {IdKey(xs[|xs| - 1])} by {
        assert forall i :: 0 <= i < |init| ==> xs[i] == init[i];
      }
      Set(FromItems(init), xs[|xs| - 1])
  }

  /** `Array.from(map.values())`: the values in key-insertion order. */
  function Values(m: JsMap): (r: seq<Json>)
    requires forall i :: 0 <= i < |m.order| ==> m.order[i] in m.entries
    ensures |r| == |m.order|
    ensures forall i :: 0 <= i < |r| ==> r[i] == m.entries[m.order[i]]
  {
    seq(|m.order|, i requires 0 <= i < |m.order| => m.entries[m.order[i]])
  }

  /** The deduplicated transactions list the scrubber computes. */
  function Dedup(xs: seq<Json>): seq<Json>
  {
    Values(FromItems(xs))
  }

  /** Where the last record with id `k` sits in `xs`. */
  function LastIndex(xs: seq<Json>, k: Key): (r: nat)
    requires k in KeysOf(xs)
    ensures r < |xs| && IdKey(xs[r]) == k
    ensures forall j :: r < j < |xs| ==> IdKey(xs[j]) != k
    decreases |xs|
  {
    if IdKey(xs[|xs| - 1]) == k then |xs| - 1
    else
      var init := xs[..|xs| - 1];
      assert k in KeysOf(init) by {
        var i :| 0 <= i < |xs| && IdKey(xs[i]) == k;
        assert init[i] == xs[i];
      }
      LastIndex(init, k)
  }

  /** Where the first record with id `k` sits in `xs`. */
  function FirstIndex(xs: seq<Json>, k: Key): (r: nat)
    requires k in KeysOf(xs)
    ensures r < |xs| && IdKey(xs[r]) == k
    ensures forall j :: 0 <= j < r ==> IdKey(xs[j]) != k
    decreases |xs|
  {
    if IdKey(xs[0]) == k then 0
    else
      assert k in KeysOf(xs[1..]) by {
        var i :| 0 <= i < |xs| && IdKey(xs[i]) == k;
        assert xs[1..][i - 1] == xs[i];
      }
      1 + FirstIndex(xs[1..], k)
  }

  /** Dedup keeps exactly one record per id, and every id of the input has one. */
  lemma DedupKeys(xs: seq<Json>)
    ensures IdsDistinct(Dedup(xs))
    ensures KeysOf(Dedup(xs)) == KeysOf(xs)
  {
    var m := FromItems(xs);
    var d := Dedup(xs);
    forall k | k in KeysOf(xs) ensures k in KeysOf(d) {
      var i :| 0 <= i < |m.order| && m.order[i] == k;
      assert IdKey(d[i]) == k;
    }
  }

  /** The record kept for an id is the last occurrence of that id in the input. */
  lemma {:induction false} FromItemsKeepsLast(xs: seq<Json>)
    ensures forall k :: k in FromItems(xs).entries ==> FromItems(xs).entries[k] == xs[LastIndex(xs, k)]
    decreases |xs|
  {
    if xs != [] {
      var init := xs[..|xs| - 1];
      FromItemsKeepsLast(init);
      forall k | k in FromItems(xs).entries ensures FromItems(xs).entries[k] == xs[LastIndex(xs, k)] {
        if k != IdKey(xs[|xs| - 1]) {
          assert LastIndex(xs, k) == LastIndex(init, k);
          assert xs[LastIndex(init, k)] == init[LastIndex(init, k)];
        }
      }
    }
  }

  lemma FirstIndexOfPrefix(xs: seq<Json>, n: nat, k: Key)
    requires n <= |xs| && k in KeysOf(xs[..n])
    ensures k in KeysOf(xs) && FirstIndex(xs, k) == FirstIndex(xs[..n], k)
  {
    var a := FirstIndex(xs[..n], k);
    assert xs[a] == xs[..n][a];
  }

  /** Ids keep the order of their first occurrence in the input. */
  lemma {:induction false} FromItemsFirstOrder(xs: seq<Json>)
    ensures forall i, j :: 0 <= i < j < |FromItems(xs).order| ==>
      FirstIndex(xs, FromItems(xs).order[i]) < FirstIndex(xs, FromItems(xs).order[j])
    decreases |xs|
  {
    if xs != [] {
      var n := |xs| - 1;
      var init := xs[..n];
      assert init == xs[..n];
      FromItemsFirstOrder(init);
      var m0 := FromItems(init);
      var m := FromItems(xs);
      forall i, j | 0 <= i < j < |m.order|
        ensures FirstIndex(xs, m.order[i]) < FirstIndex(xs, m.order[j])
      {
        FirstIndexOfPrefix(xs, n, m.order[i]);
        if j < |m0.order| {
          FirstIndexOfPrefix(xs, n, m.order[j]);
        } else {
          var k := IdKey(xs[n]);
          assert m.order[j] == k && k !in m0.entries;
          assert forall p :: 0 <= p < n ==> IdKey(xs[p]) != k by {
            forall p | 0 <= p < n ensures IdKey(xs[p]) != k {
              assert init[p] == xs[p];
            }
          }
        }
      }
    }
  }

  /** Appending one record: distinct ids stay distinct iff its id is new. */
  lemma DistinctSnoc(xs: seq<Json>)
    requires xs != []
    ensures IdsDistinct(xs) <==>
      IdsDistinct(xs[..|xs| - 1]) && IdKey(xs[|xs| - 1]) !in KeysOf(xs[..|xs| - 1])
  {
    var n := |xs| - 1;
    var init := xs[..n];
    assert forall i :: 0 <= i < n ==> init[i] == xs[i];
  }

  /** The list gets shorter exactly when some id occurs twice. */
  lemma {:induction false} DedupLength(xs: seq<Json>)
    ensures |Dedup(xs)| == |xs| <==> IdsDistinct(xs)
    decreases |xs|
  {
    if xs != [] {
      var n := |xs| - 1;
      var init := xs[..n];
      DedupLength(init);
      DistinctSnoc(xs);
      var m0 := FromItems(init);
      assert |FromItems(xs).order| == |m0.order| + Bit(IdKey(xs[n]) !in m0.entries);
    }
  }

  /** A list without duplicate ids comes out of the Map unchanged. */
  lemma {:induction false} DedupDistinct(xs: seq<Json>)
    requires IdsDistinct(xs)
    ensures Dedup(xs) == xs
    decreases |xs|
  {
    if xs != [] {
      var n := |xs| - 1;
      var init := xs[..n];
      assert IdsDistinct(init) by {
        forall i, j | 0 <= i < j < n ensures IdKey(init[i]) != IdKey(init[j]) {
          assert init[i] == xs[i] && init[j] == xs[j];
        }
      }
      DedupDistinct(init);
      var k := IdKey(xs[n]);
      assert k !in FromItems(init).entries;
      var m0 := FromItems(init);
      var m := FromItems(xs);
      assert m.order == m0.order + [k];
      forall i | 0 <= i < n ensures Dedup(xs)[i] == xs[i] {
        assert Dedup(init)[i] == init[i] == xs[i];
        assert m0.order[i] != k;
      }
    }
  }

  /** Deduplicating twice is the same as deduplicating once. */
  lemma DedupIdempotent(xs: seq<Json>)
    ensures Dedup(Dedup(xs)) == Dedup(xs)
  {
    DedupKeys(xs);
    DedupDistinct(Dedup(xs));
  }

  /**
   * Map semantics in one statement: one record per distinct id, each the
   * last occurrence of its id, placed in the order of first occurrences.
   */
  lemma DedupSemantics(xs: seq<Json>)
    ensures IdsDistinct(Dedup(xs)) && KeysOf(Dedup(xs)) == KeysOf(xs)
    ensures forall i :: 0 <= i < |Dedup(xs)| ==>
      IdKey(Dedup(xs)[i]) in KeysOf(xs) && Dedup(xs)[i] == xs[LastIndex(xs, IdKey(Dedup(xs)[i]))]
    ensures forall i, j :: 0 <= i < j < |Dedup(xs)| ==>
      IdKey(Dedup(xs)[i]) in KeysOf(xs) && IdKey(Dedup(xs)[j]) in KeysOf(xs) &&
      FirstIndex(xs, IdKey(Dedup(xs)[i])) < FirstIndex(xs, IdKey(Dedup(xs)[j]))
  {
    DedupKeys(xs);
    FromItemsKeepsLast(xs);
    FromItemsFirstOrder(xs);
  }

  lemma FromItemsSnoc(xs: seq<Json>, v: Json)
    ensures FromItems(xs + [v]) == Set(FromItems(xs), v)
  {
    assert (xs + [v])[..|xs|] == xs;
  }

  /** The Map built by sequential insertion, then its values read out. */
  method DedupById(txs: seq<Json>) returns (unique: seq<Json>)
    ensures unique == Dedup(txs)
  {
    var m := BuildMap(txs);
    unique := ReadValues(m);
  }

  /** `new Map(txs.map(t => [t.id, t]))`: one `set` per record, in list order. */
  method BuildMap(txs: seq<Json>) returns (m: JsMap)
    ensures m == FromItems(txs)
  {
    var order: seq<Key> := [];
    var entries: map<Key, Json> := map[];
    var i := 0;
    while i < |txs|
      invariant 0 <= i <= |txs|
      invariant JsMap(order, entries) == FromItems(txs[..i])
    {
      assert txs[..i + 1] == txs[..i] + [txs[i]];
      FromItemsSnoc(txs[..i], txs[i]);
      var k := IdKey(txs[i]);
      if k !in entries {
        order := order + [k];
      }
      entries := entries[k := txs[i]];
      i := i + 1;
    }
    assert txs[..i] == txs;
    m := JsMap(order, entries);
  }

  /** `Array.from(map.values())`: the values in insertion order. */
  method ReadValues(m: JsMap) returns (unique: seq<Json>)
    requires forall i :: 0 <= i < |m.order| ==> m.order[i] in m.entries
    ensures unique == Values(m)
  {
    unique := [];
    var j := 0;
    while j < |m.order|
      invariant 0 <= j <= |m.order|
      invariant |unique| == j
      invariant forall p :: 0 <= p < j ==> unique[p] == m.entries[m.order[p]]
    {
      unique := unique + [m.entries[m.order[j]]];
      j := j + 1;
    }
  }

  // ------------------------------------------------------ the scrub itself

  /** A present, non-empty value that `JSON.parse` rejects. */
  predicate IsCorrupt(m: map<string, string>, c: Codec, k: string)
  {
    k in m && m[k] != "" && c.parse(m[k]).None?
  }

  /** What the scrubber assumes of a parseable transactions value: an array with no `null` element. */
  predicate TxShapeOk(m: map<string, string>, c: Codec)
  {
    TransactionsKey in m && m[TransactionsKey] != "" && c.parse(m[TransactionsKey]).Some? ==>
      var v := c.parse(m[TransactionsKey]).value;
      v.JArr? && forall i :: 0 <= i < |v.items| ==> v.items[i] != JNull
  }

  /** The transactions value after the key loop: absent, empty, or an array. */
  predicate TxReadable(m: map<string, string>, c: Codec)
  {
    TransactionsKey in m && m[TransactionsKey] != "" ==>
      c.parse(m[TransactionsKey]).Some? && c.parse(m[TransactionsKey]).value.JArr?
  }

  datatype Outcome = Outcome(store: map<string, string>, fixes: nat)

  /** One turn of the key loop: reset `k` when its value is corrupt. */
  function ResetKey(o: Outcome, c: Codec, k: string): Outcome
  {
    if IsCorrupt(o.store, c, k) then Outcome(o.store[k := EmptyArrayText], o.fixes + 1) else o
  }

  /** The key loop run over the keys `ks`, in order. */
  function ResetPass(m: map<string, string>, c: Codec, ks: seq<string>): Outcome
    decreases |ks|
  {
    if ks == [] then Outcome(m, 0)
    else ResetKey(ResetPass(m, c, ks[..|ks| - 1]), c, ks[|ks| - 1])
  }

  /** The duplicate check on the transactions value. */
  function DedupPass(o: Outcome, c: Codec): Outcome
    requires TxReadable(o.store, c)
  {
    if TransactionsKey in o.store && o.store[TransactionsKey] != "" then
      var txs := c.parse(o.store[TransactionsKey]).value.items;
      var unique := Dedup(txs);
      if |unique| != |txs| then
        Outcome(o.store[TransactionsKey := c.stringify(JArr(unique))], o.fixes + 1)
      else o
    else o
  }

  /** All five keys the application stores under. */
  const StoredKeys: set<string> := {TransactionsKey, ProductsKey, DebtsKey, SuppliersKey, ProfileKey}

  /** The five storage keys are pairwise different (they differ in their fifth letter). */
  lemma KeysDistinct()
    ensures TransactionsKey != ProductsKey && TransactionsKey != ProfileKey && ProductsKey != ProfileKey
    ensures DebtsKey !in CheckedKeys && SuppliersKey !in CheckedKeys && DebtsKey != SuppliersKey
  {
    assert TransactionsKey[4] == 't' && ProductsKey[4] == 'p' && ProfileKey[4] == 'u';
    assert DebtsKey[4] == 'd' && SuppliersKey[4] == 's';
  }

  function Bit(b: bool): nat { if b then 1 else 0 }

  /** The key loop looks at each checked key once and resets exactly the corrupt ones. */
  lemma ResetPassFacts(m: map<string, string>, c: Codec)
    ensures var o := ResetPass(m, c, CheckedKeys);
      && o.fixes == Bit(IsCorrupt(m, c, TransactionsKey)) + Bit(IsCorrupt(m, c, ProductsKey)) + Bit(IsCorrupt(m, c, ProfileKey))
      && o.store.Keys == m.Keys
      && forall k :: k in m ==> o.store[k] == (if k in CheckedKeys && IsCorrupt(m, c, k) then EmptyArrayText else m[k])
  {
    KeysDistinct();
    var o0 := Outcome(m, 0);
    var o1 := ResetKey(o0, c, TransactionsKey);
    var o2 := ResetKey(o1, c, ProductsKey);
    var o3 := ResetKey(o2, c, ProfileKey);
    assert ResetPass(m, c, CheckedKeys) == o3 by {
      var k1 := [TransactionsKey];
      var k2 := [TransactionsKey, ProductsKey];
      assert k1[..0] == [] && ResetPass(m, c, k1) == o1;
      assert k2[..1] == k1 && ResetPass(m, c, k2) == o2;
      assert CheckedKeys[..2] == k2;
    }
    assert IsCorrupt(o1.store, c, ProductsKey) == IsCorrupt(m, c, ProductsKey);
    assert IsCorrupt(o2.store, c, ProfileKey) == IsCorrupt(m, c, ProfileKey);
  }

  lemma ResetPassReadable(m: map<string, string>, c: Codec)
    requires Lawful(c) && TxShapeOk(m, c)
    ensures TxReadable(ResetPass(m, c, CheckedKeys).store, c)
  {
    ResetPassFacts(m, c);
    assert c.parse(c.stringify(JArr([]))) == Some(JArr([]));
  }

  /** The whole of `checkIntegrity`: the new store and the count it returns. */
  function Scrub(m: map<string, string>, c: Codec): Outcome
    requires Lawful(c) && TxShapeOk(m, c)
  {
    ResetPassReadable(m, c);
    DedupPass(ResetPass(m, c, CheckedKeys), c)
  }

  /** The original transactions list when it parses (the one the duplicate check sees). */
  function ParsedTxs(m: map<string, string>, c: Codec): seq<Json>
    requires TxShapeOk(m, c)
  {
    if TransactionsKey in m && m[TransactionsKey] != "" && c.parse(m[TransactionsKey]).Some?
    then c.parse(m[TransactionsKey]).value.items else []
  }

  /** The duplicate check rewrites the transactions value. */
  predicate Deduplicates(m: map<string, string>, c: Codec)
    requires TxShapeOk(m, c)
  {
    && TransactionsKey in m && m[TransactionsKey] != "" && c.parse(m[TransactionsKey]).Some?
    && |Dedup(ParsedTxs(m, c))| != |ParsedTxs(m, c)|
  }

  /**
   * Exactly what the scrub writes: a corrupt checked key becomes `[]`, the
   * transactions value is replaced by its deduplicated list when that is
   * shorter, and every other key keeps its text. No key is added or removed.
   * The count is one per corrupt checked key plus one for a duplicate
   * rewrite, never both for the transactions key.
   */
  lemma ScrubWrites(m: map<string, string>, c: Codec)
    requires Lawful(c) && TxShapeOk(m, c)
    ensures Scrub(m, c).store.Keys == m.Keys
    ensures forall k :: k in m ==>
      (Scrub(m, c).store[k] ==
        if k in CheckedKeys && IsCorrupt(m, c, k) then EmptyArrayText
        else if k == TransactionsKey && Deduplicates(m, c) then c.stringify(JArr(Dedup(ParsedTxs(m, c))))
        else m[k])
    ensures Scrub(m, c).fixes == Bit(IsCorrupt(m, c, TransactionsKey)) + Bit(IsCorrupt(m, c, ProductsKey))
                                 + Bit(IsCorrupt(m, c, ProfileKey)) + Bit(Deduplicates(m, c))
    ensures !(IsCorrupt(m, c, TransactionsKey) && Deduplicates(m, c))
  {
    ResetPassFacts(m, c);
    var o := ResetPass(m, c, CheckedKeys);
    if IsCorrupt(m, c, TransactionsKey) {
      assert o.store[TransactionsKey] == EmptyArrayText;
      assert c.parse(c.stringify(JArr([]))) == Some(JArr([]));
      assert Dedup([]) == [];
    }
  }

  /** Between zero and four repairs. */
  lemma ScrubCountBound(m: map<string, string>, c: Codec)
    requires Lawful(c) && TxShapeOk(m, c)
    ensures Scrub(m, c).fixes <= 4
    ensures Scrub(m, c).fixes == 0 <==> Scrub(m, c).store == m
  {
    ScrubWrites(m, c);
    ScrubCountIsRewrites(m, c);
    var s := Scrub(m, c).store;
    if Scrub(m, c).fixes == 0 {
      assert forall k :: k in m ==> s[k] == m[k];
    }
  }

  /** The number of checked keys whose text the scrub changed. */
  function Rewritten(m: map<string, string>, m': map<string, string>, ks: seq<string>): nat
    decreases |ks|
  {
    if ks == [] then 0
    else Bit(ks[0] in m && ks[0] in m' && m'[ks[0]] != m[ks[0]]) + Rewritten(m, m', ks[1..])
  }

  /** The count returned equals the number of stored values actually rewritten. */
  lemma ScrubCountIsRewrites(m: map<string, string>, c: Codec)
    requires Lawful(c) && TxShapeOk(m, c)
    ensures Scrub(m, c).fixes == Rewritten(m, Scrub(m, c).store, CheckedKeys)
  {
    ScrubWrites(m, c);
    KeysDistinct();
    var s := Scrub(m, c).store;
    assert c.parse(EmptyArrayText) == Some(JArr([])) by {
      assert c.parse(c.stringify(JArr([]))) == Some(JArr([]));
    }
    if Deduplicates(m, c) {
      var u := Dedup(ParsedTxs(m, c));
      assert c.parse(c.stringify(JArr(u))) == Some(JArr(u));
      assert JArr(u) != JArr(ParsedTxs(m, c));
    }
    var m' := s;
    assert CheckedKeys[1..] == [ProductsKey, ProfileKey];
    assert CheckedKeys[1..][1..] == [ProfileKey];
    assert CheckedKeys[1..][1..][1..] == [];
    assert Rewritten(m, m', [ProfileKey]) == Bit(IsCorrupt(m, c, ProfileKey));
    assert Rewritten(m, m', [ProductsKey, ProfileKey]) == Bit(IsCorrupt(m, c, ProductsKey)) + Bit(IsCorrupt(m, c, ProfileKey));
    assert Bit(TransactionsKey in m && TransactionsKey in m' && m'[TransactionsKey] != m[TransactionsKey])
      == Bit(IsCorrupt(m, c, TransactionsKey)) + Bit(Deduplicates(m, c));
  }

  /** Every record the duplicate check keeps comes from its input. */
  lemma DedupFromInput(xs: seq<Json>)
    ensures forall i :: 0 <= i < |Dedup(xs)| ==> Dedup(xs)[i] in xs
  {
    FromItemsKeepsLast(xs);
    var m := FromItems(xs);
    forall i | 0 <= i < |Dedup(xs)| ensures Dedup(xs)[i] in xs {
      assert Dedup(xs)[i] == xs[LastIndex(xs, m.order[i])];
    }
  }

  /** After a scrub, every checked value parses and the transactions list has distinct ids. */
  lemma ScrubLeavesClean(m: map<string, string>, c: Codec)
    requires Lawful(c) && TxShapeOk(m, c)
    ensures forall k :: k in CheckedKeys ==> !IsCorrupt(Scrub(m, c).store, c, k)
    ensures TxShapeOk(Scrub(m, c).store, c)
    ensures IdsDistinct(ParsedTxs(Scrub(m, c).store, c))
  {
    var s := Scrub(m, c).store;
    ScrubWrites(m, c);
    assert c.parse(EmptyArrayText) == Some(JArr([])) by {
      assert c.parse(c.stringify(JArr([]))) == Some(JArr([]));
    }
    if Deduplicates(m, c) {
      var xs := ParsedTxs(m, c);
      var u := Dedup(xs);
      assert c.parse(c.stringify(JArr(u))) == Some(JArr(u));
      DedupKeys(xs);
      DedupFromInput(xs);
      assert ParsedTxs(s, c) == u;
    } else if TransactionsKey in m && !IsCorrupt(m, c, TransactionsKey) && m[TransactionsKey] != "" {
      assert ParsedTxs(s, c) == ParsedTxs(m, c);
      DedupLength(ParsedTxs(m, c));
    }
  }

  /** A store whose checked values all parse and whose transactions have distinct ids is left alone. */
  lemma CleanStoreUntouched(m: map<string, string>, c: Codec)
    requires Lawful(c) && TxShapeOk(m, c)
    requires forall k :: k in CheckedKeys ==> !IsCorrupt(m, c, k)
    requires IdsDistinct(ParsedTxs(m, c))
    ensures Scrub(m, c) == Outcome(m, 0)
  {
    ScrubWrites(m, c);
    DedupLength(ParsedTxs(m, c));
    assert Scrub(m, c).store == m;
  }

  /** Running the scrub on the store it produced changes nothing and reports 0. */
  lemma ScrubIdempotent(m: map<string, string>, c: Codec)
    requires Lawful(c) && TxShapeOk(m, c)
    ensures TxShapeOk(Scrub(m, c).store, c)
    ensures Scrub(Scrub(m, c).store, c) == Outcome(Scrub(m, c).store, 0)
  {
    ScrubLeavesClean(m, c);
    CleanStoreUntouched(Scrub(m, c).store, c);
  }

  /**
   * `checkIntegrity`: the key loop over `localStorage`, then the duplicate
   * check; the store and the count end as `Scrub` says.
   */
  method CheckIntegrity(ls: LocalStorage, c: Codec) returns (fixes: nat)
    requires Lawful(c) && TxShapeOk(ls.items, c)
    modifies ls
    ensures ls.items == Scrub(old(ls.items), c).store
    ensures fixes == Scrub(old(ls.items), c).fixes
  {
    ghost var m := ls.items;
    var keys := CheckedKeys;
    fixes := 0;
    var i := 0;
    while i < |keys|
      invariant 0 <= i <= |keys|
      invariant ls.items == ResetPass(m, c, keys[..i]).store
      invariant fixes == ResetPass(m, c, keys[..i]).fixes
    {
      assert keys[..i + 1][..i] == keys[..i];
      var data := ls.GetItem(keys[i]);
      if data.Some? && data.value != "" {
        var parsed := c.parse(data.value);
        if parsed.None? {
          ls.SetItem(keys[i], EmptyArrayText);
          fixes := fixes + 1;
        }
      }
      i := i + 1;
    }
    assert keys[..i] == CheckedKeys;
    ResetPassReadable(m, c);

    var txData := ls.GetItem(TransactionsKey);
    if txData.Some? && txData.value != "" {
      var txs := c.parse(txData.value).value.items;
      var unique := DedupById(txs);
      if |unique| != |txs| {
        ls.SetItem(TransactionsKey, c.stringify(JArr(unique)));
        fixes := fixes + 1;
      }
    }
  }

  // --------------------------------------------------------------- heal

  /** One call of the audit sink: `addLog(action, details, severity)`. */
  datatype LogCall = LogCall(action: string, details: string, severity: Severity)

  /** The detail text of the healing entry; it carries the count. */
  function HealMessage(fixed: nat): (r: string)
    ensures Strings.Contains(r, Strings.NatToString(fixed))
  {
    var prefix := "SentinelX a réparé ";
    var r := prefix + Strings.NatToString(fixed) + " anomalies structurelles.";
    assert r[|prefix|..|prefix| + |Strings.NatToString(fixed)|] == Strings.NatToString(fixed);
    Strings.ContainsAt(r, Strings.NatToString(fixed), |prefix|);
    r
  }

  /** The sink calls `heal` makes for a count: one "Système"/medium entry iff the count is positive. */
  function HealCalls(fixed: nat): (r: seq<LogCall>)
    ensures |r| == 1 <==> fixed > 0
    ensures |r| <= 1
    ensures forall i :: 0 <= i < |r| ==>
      r[i].action == "Système" && r[i].severity == Medium && Strings.Contains(r[i].details, Strings.NatToString(fixed))
  {
    if fixed > 0 then [LogCall("Système", HealMessage(fixed), Medium)] else []
  }

  /** `heal`: scrub the store, then report to the sink. */
  method Heal(ls: LocalStorage, c: Codec) returns (calls: seq<LogCall>)
    requires Lawful(c) && TxShapeOk(ls.items, c)
    modifies ls
    ensures ls.items == Scrub(old(ls.items), c).store
    ensures calls == HealCalls(Scrub(old(ls.items), c).fixes)
  {
    var fixed := CheckIntegrity(ls, c);
    calls := HealCalls(fixed);
  }

  /** A second `heal` right after the first logs nothing. */
  lemma HealTwiceLogsOnce(m: map<string, string>, c: Codec)
    requires Lawful(c) && TxShapeOk(m, c)
    ensures TxShapeOk(Scrub(m, c).store, c)
    ensures HealCalls(Scrub(Scrub(m, c).store, c).fixes) == []
  {
    ScrubIdempotent(m, c);
  }
}
