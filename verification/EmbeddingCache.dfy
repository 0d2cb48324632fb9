/** The embedding cache of the LLM engine: batch lookup with least-recently-used eviction. */
module EmbeddingCache {
  import opened Wrappers

  type Vector = seq<real>

  datatype Error = MissingKey

  ghost predicate Distinct(s: seq<nat>) {
    forall i, j :: 0 <= i < j < |s| ==> s[i] != s[j]
  }

  function Elements(s: seq<nat>): set<nat> {
    set x | x in s
  }

  /** Every key of `recent` stands behind every other key. */
  ghost predicate AtEnd(s: seq<nat>, recent: set<nat>) {
    forall i, j :: 0 <= i < j < |s| && s[i] in recent ==> s[j] in recent
  }

  lemma {:induction false} DistinctCount(s: seq<nat>)
    requires Distinct(s)
    ensures |Elements(s)| == |s|
  {
    if s != [] {
      var n := |s| - 1;
      DistinctCount(s[..n]);
      assert Elements(s) == Elements(s[..n]) + {s[n]};
      assert s[n] !in Elements(s[..n]);
    }
  }

  lemma SubsetCount(a: set<nat>, b: set<nat>)
    requires a <= b
    ensures |a| <= |b|
  {
    assert b == a + (b - a);
    assert |b| == |a| + |b - a|;
  }

  function Moved(s: seq<nat>, i: nat): seq<nat>
    requires i < |s|
  {
    s[..i] + s[i + 1..] + [s[i]]
  }

  lemma MovedKeeps(s: seq<nat>, i: nat, recent: set<nat>)
    requires i < |s| && Distinct(s) && AtEnd(s, recent)
    ensures Distinct(Moved(s, i)) && Elements(Moved(s, i)) == Elements(s)
    ensures AtEnd(Moved(s, i), recent + {s[i]})
  {
    var t := Moved(s, i);
    assert forall j :: 0 <= j < |s| ==> t[j] == if j < i then s[j] else if j < |s| - 1 then s[j + 1] else s[i];
    forall x ensures x in t <==> x in s {
      if x in s {
        var j :| 0 <= j < |s| && s[j] == x;
        assert t[if j < i then j else if j == i then |s| - 1 else j - 1] == x;
      }
    }
  }

  lemma AppendKeeps(s: seq<nat>, k: nat, recent: set<nat>)
    requires Distinct(s) && k !in s && AtEnd(s, recent)
    ensures Distinct(s + [k]) && Elements(s + [k]) == Elements(s) + {k} && AtEnd(s + [k], recent + {k})
  {
  }

  /** A cache larger than the batch has a key outside it at the front. */
  lemma OldestIsEvictable(s: seq<nat>, recent: set<nat>)
    requires Distinct(s) && AtEnd(s, recent) && |s| > |recent|
    ensures s[0] !in recent && AtEnd(s[1..], recent) && Distinct(s[1..]) && Elements(s[1..]) == Elements(s) - {s[0]}
  {
    DistinctCount(s);
    if s[0] in recent {
      assert Elements(s) <= recent;
      SubsetCount(Elements(s), recent);
    }
    assert s == [s[0]] + s[1..];
  }

  lemma DropFront(s: seq<nat>, recent: set<nat>)
    requires Distinct(s) && AtEnd(s, recent) && s != []
    ensures Distinct(s[1..]) && AtEnd(s[1..], recent) && Elements(s[1..]) == Elements(s) - {s[0]}
  {
    assert s == [s[0]] + s[1..];
  }

  /** The keys at the first `k` of the given positions. */
  function Picked(hashes: seq<nat>, positions: seq<nat>, k: nat): set<nat>
    requires k <= |positions| && forall i :: 0 <= i < |positions| ==> positions[i] < |hashes|
  {
    if k == 0 then {} else Picked(hashes, positions, k - 1) + {hashes[positions[k - 1]]}
  }

  lemma {:induction false} PickedMembers(hashes: seq<nat>, positions: seq<nat>, k: nat)
    requires k <= |positions| && forall i :: 0 <= i < |positions| ==> positions[i] < |hashes|
    ensures forall i :: 0 <= i < k ==> hashes[positions[i]] in Picked(hashes, positions, k)
    ensures Picked(hashes, positions, k) <= Elements(hashes)
  {
    if k > 0 {
      PickedMembers(hashes, positions, k - 1);
    }
  }

  /** The positions the first pass collects: those whose key was not cached. */
  ghost predicate Misses(hashes: seq<nat>, uncached: seq<nat>, before: set<nat>) {
    && (forall k :: 0 <= k < |uncached| ==> uncached[k] < |hashes| && hashes[uncached[k]] !in before)
    && forall j :: 0 <= j < |hashes| && hashes[j] !in before ==> j in uncached
  }

  /** Hits and misses together are the whole batch. */
  lemma PassesCoverBatch(hashes: seq<nat>, uncached: seq<nat>, before: set<nat>, hits: set<nat>)
    requires hits == (set h | h in hashes && h in before) && Misses(hashes, uncached, before)
    ensures hits + Picked(hashes, uncached, |uncached|) == Elements(hashes)
  {
    PickedMembers(hashes, uncached, |uncached|);
    forall h | h in hashes && h !in before ensures h in Picked(hashes, uncached, |uncached|) {
      var j :| 0 <= j < |hashes| && hashes[j] == h;
      assert j in uncached;
    }
  }

  class LLMEngine {
    /** The insertion-ordered dictionary: its keys, oldest first, and their values. */
    var order: seq<nat>
    var vectors: map<nat, Vector>
    const maxSize: nat
    /** One fixed model: the provider's answer per text, and the content hash. */
    const embed: string -> Vector
    const hash: string -> nat

    /** Keys agree with the order, and every stored vector belongs to its key's text. */
    ghost predicate Consistent()
      reads this
    {
      && Distinct(order) && vectors.Keys == Elements(order)
      && forall t: string :: hash(t) in vectors ==> vectors[hash(t)] == embed(t)
    }

    ghost predicate Valid()
      reads this
    {
      Consistent() && |order| <= maxSize
    }

    ghost predicate HashInjective() {
      forall s: string, t: string :: hash(s) == hash(t) ==> s == t
    }

    constructor (max: nat, e: string -> Vector, h: string -> nat)
      ensures maxSize == max && embed == e && hash == h && Valid() && order == []
    {
      maxSize, embed, hash := max, e, h;
      order, vectors := [], map[];
    }

    method MoveToEnd(k: nat, ghost recent: set<nat>)
      requires Distinct(order) && k in order && AtEnd(order, recent)
      modifies this`order
      ensures Distinct(order) && Elements(order) == Elements(old(order)) && |order| == |old(order)|
      ensures AtEnd(order, recent + {k})
    {
      var i :| 0 <= i < |order| && order[i] == k;
      MovedKeeps(order, i, recent);
      order := order[..i] + order[i + 1..] + [k];
    }

    method Insert(k: nat, v: Vector, ghost recent: set<nat>)
      requires Distinct(order) && vectors.Keys == Elements(order) && AtEnd(order, recent)
      requires k in order ==> k in recent
      modifies this
      ensures Distinct(order) && vectors == old(vectors)[k := v] && vectors.Keys == Elements(order)
      ensures AtEnd(order, recent + {k})
    {
      if k !in vectors {
        AppendKeeps(order, k, recent);
        order := order + [k];
      } else {
        assert recent + {k} == recent;
      }
      vectors := vectors[k := v];
    }

    function HashesOf(texts: seq<string>): (r: seq<nat>)
      ensures |r| == |texts|
    {
      seq(|texts|, i requires 0 <= i < |texts| => hash(texts[i]))
    }

    function Texts(texts: seq<string>): set<string> {
      set t | t in texts
    }

    lemma OneMoreText(front: seq<string>, last: string)
      ensures HashesOf(front + [last]) == HashesOf(front) + [hash(last)]
      ensures Elements(HashesOf(front + [last])) == Elements(HashesOf(front)) + {hash(last)}
      ensures Texts(front + [last]) == Texts(front) + {last}
    {
      assert HashesOf(front + [last]) == HashesOf(front) + [hash(last)];
    }

    lemma KeyIsNew(front: seq<string>, last: string)
      requires HashInjective()
      ensures hash(last) in Elements(HashesOf(front)) <==> last in Texts(front)
    {
      if last in front {
        var i :| 0 <= i < |front| && front[i] == last;
        assert HashesOf(front)[i] == hash(last);
      }
      if hash(last) in HashesOf(front) {
        var i :| 0 <= i < |front| && HashesOf(front)[i] == hash(last);
        assert front[i] == last;
      }
    }

    /** With a collision-free hash, distinct texts and distinct keys are equally many. */
    lemma {:induction false} KeysCountTexts(texts: seq<string>)
      requires HashInjective()
      ensures |Elements(HashesOf(texts))| == |Texts(texts)|
    {
      if texts == [] {
        assert Elements(HashesOf(texts)) == {} && Texts(texts) == {};
      } else {
        var front, last := texts[..|texts| - 1], texts[|texts| - 1];
        assert texts == front + [last];
        KeysCountTexts(front);
        OneMoreText(front, last);
        KeyIsNew(front, last);
        AddOne(Elements(HashesOf(front)), hash(last));
        AddOne(Texts(front), last);
      }
    }

    lemma AddOne<T>(s: set<T>, x: T)
      ensures |s + {x}| == |s| + if x in s then 0 else 1
    {
      assert x in s ==> s + {x} == s;
    }

    /** Drop the oldest keys until the size fits; the batch survives when it fits itself. */
    method Evict(ghost recent: set<nat>)
      requires Consistent() && AtEnd(order, recent)
      modifies this
      ensures Valid() && |order| <= |old(order)| && order == old(order)[|old(order)| - |order|..]
      ensures |order| == |old(order)| || |order| == maxSize
      ensures |recent| <= maxSize ==> recent * Elements(old(order)) <= Elements(order)
    {
      ghost var dropped := 0;
      while |order| > maxSize
        invariant dropped <= |old(order)| && order == old(order)[dropped..] && (dropped == 0 || |order| >= maxSize)
        invariant Consistent() && AtEnd(order, recent)
        invariant |recent| <= maxSize ==> recent * Elements(old(order)) <= Elements(order)
      {
        var oldest := order[0];
        DropFront(order, recent);
        if |recent| <= maxSize {
          OldestIsEvictable(order, recent);
        }
        order := order[1..];
        vectors := vectors - {oldest};
        dropped := dropped + 1;
      }
    }

    /** First pass: refresh the hits, collect the positions of the misses. */
    method Touch(hashes: seq<nat>) returns (uncached: seq<nat>, ghost hits: set<nat>)
      requires Valid()
      modifies this`order
      ensures Valid() && Elements(order) == Elements(old(order)) && AtEnd(order, hits)
      ensures hits == set h | h in hashes && h in Elements(old(order))
      ensures Misses(hashes, uncached, Elements(old(order)))
    {
      uncached, hits := [], {};
      for i := 0 to |hashes|
        invariant Valid() && Elements(order) == Elements(old(order)) && AtEnd(order, hits)
        invariant hits == set h | h in hashes[..i] && h in Elements(old(order))
        invariant forall k :: 0 <= k < |uncached| ==> uncached[k] < i && hashes[uncached[k]] !in Elements(old(order))
        invariant forall j :: 0 <= j < i && hashes[j] !in Elements(old(order)) ==> j in uncached
      {
        assert hashes[..i + 1] == hashes[..i] + [hashes[i]];
        if hashes[i] in vectors {
          MoveToEnd(hashes[i], hits);
          hits := hits + {hashes[i]};
        } else {
          uncached := uncached + [i];
        }
      }
      assert hashes[..|hashes|] == hashes;
    }

    /** Store the provider's answer for one text. */
    method StoreOne(text: string, ghost recent: set<nat>)
      requires Consistent() && HashInjective() && AtEnd(order, recent)
      requires hash(text) in Elements(order) ==> hash(text) in recent
      modifies this
      ensures Consistent() && AtEnd(order, recent + {hash(text)})
      ensures Elements(order) == Elements(old(order)) + {hash(text)}
    {
      assert hash(text) in order ==> hash(text) in Elements(order);
      Insert(hash(text), embed(text), recent);
    }

    /** Second pass: store the provider's answers for the misses. */
    method StoreMisses(texts: seq<string>, hashes: seq<nat>, uncached: seq<nat>, ghost hits: set<nat>)
      requires Consistent() && HashInjective() && AtEnd(order, hits) && hits <= Elements(order)
      requires hashes == HashesOf(texts) && Misses(hashes, uncached, Elements(order))
      modifies this
      ensures Consistent()
      ensures AtEnd(order, hits + Picked(hashes, uncached, |uncached|))
      ensures Elements(order) == Elements(old(order)) + Picked(hashes, uncached, |uncached|)
    {
      hide Consistent, HashInjective, AtEnd, Elements;
      assert hits + Picked(hashes, uncached, 0) == hits;
      for k := 0 to |uncached|
        invariant Consistent()
        invariant AtEnd(order, hits + Picked(hashes, uncached, k))
        invariant Elements(order) == Elements(old(order)) + Picked(hashes, uncached, k)
      {
        ghost var recent := hits + Picked(hashes, uncached, k);
        StoreOne(texts[uncached[k]], recent);
        assert recent + {hashes[uncached[k]]} == hits + Picked(hashes, uncached, k + 1);
      }
    }

    /** Last pass: read the batch back; a missing key raises. */
    method Collect(hashes: seq<nat>) returns (result: Result<seq<Vector>, Error>)
      requires Consistent()
      ensures result.Ok? <==> Elements(hashes) <= Elements(order)
      ensures result.Ok? ==> |result.value| == |hashes|
      ensures result.Ok? ==> forall i :: 0 <= i < |hashes| ==> hashes[i] in vectors && result.value[i] == vectors[hashes[i]]
    {
      var found: seq<Vector> := [];
      for i := 0 to |hashes|
        invariant |found| == i
        invariant forall j :: 0 <= j < i ==> hashes[j] in vectors && found[j] == vectors[hashes[j]]
      {
        if hashes[i] !in vectors {
          assert hashes[i] in Elements(hashes);
          return Err(MissingKey);
        }
        found := found + [vectors[hashes[i]]];
      }
      result := Ok(found);
    }

    /**
     * Embedding through the cache is embedding directly. It works out for every batch with at
     * most `maxSize` distinct texts, and for no other: a larger batch evicts its own keys.
     */
    method EmbedTexts(texts: seq<string>) returns (result: Result<seq<Vector>, Error>)
      requires Valid() && HashInjective()
      modifies this
      ensures Valid()
      ensures result.Ok? <==> |Texts(texts)| <= maxSize
      ensures result.Ok? ==> |result.value| == |texts| && forall i :: 0 <= i < |texts| ==> result.value[i] == embed(texts[i])
    {
      KeysCountTexts(texts);
      var hashes := HashesOf(texts);
      var uncached;
      ghost var hits;
      ghost var before := Elements(order);
      uncached, hits := Touch(hashes);
      PassesCoverBatch(hashes, uncached, before, hits);
      if uncached != [] {
        StoreMisses(texts, hashes, uncached, hits);
        Evict(Elements(hashes));
      }
      result := Collect(hashes);
      DistinctCount(order);
      if Elements(hashes) <= Elements(order) {
        SubsetCount(Elements(hashes), Elements(order));
      }
    }
  }
}
