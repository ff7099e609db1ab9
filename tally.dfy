/** An insertion-ordered dictionary of counts, the shape of every
    `counts[k] = counts.get(k, 0) + 1` loop in the system and of pandas'
    `value_counts().to_dict()`. Python dictionaries keep keys in the order they were
    first inserted, so the model is a sequence of (key, count) pairs. */
module Tally {

  type Tally = seq<(string, nat)>

  function Keys(t: Tally): (ks: seq<string>)
    ensures |ks| == |t|
    ensures forall i :: 0 <= i < |t| ==> ks[i] == t[i].0
  {
    if |t| == 0 then [] else [t[0].0] + Keys(t[1..])
  }

  predicate DistinctKeys(t: Tally) {
    forall i, j :: 0 <= i < j < |t| ==> t[i].0 != t[j].0
  }

  /** `counts.get(k, 0)`. */
  function Get(t: Tally, k: string): nat
  {
    if |t| == 0 then 0 else if t[0].0 == k then t[0].1 else Get(t[1..], k)
  }

  /** The sum of all counts. */
  function Total(t: Tally): nat
  {
    if |t| == 0 then 0 else t[0].1 + Total(t[1..])
  }

  /** `counts[k] = counts.get(k, 0) + 1`: bump an existing key in place, or append a new
      key with count 1 at the end. */
  function Bump(t: Tally, k: string): (r: Tally)
  {
    if |t| == 0 then [(k, 1)]
    else if t[0].0 == k then [(k, t[0].1 + 1)] + t[1..]
    else [t[0]] + Bump(t[1..], k)
  }

  /** One bump adds at most one key. */
  lemma {:induction false} BumpLength(t: Tally, k: string)
    ensures |Bump(t, k)| <= |t| + 1
  {
    if |t| > 0 && t[0].0 != k {
      BumpLength(t[1..], k);
    }
  }

  /** How many times `k` occurs in `ks`. */
  function Occurrences(ks: seq<string>, k: string): nat
  {
    if |ks| == 0 then 0 else Occurrences(ks[..|ks| - 1], k) + (if ks[|ks| - 1] == k then 1 else 0)
  }

  /** The distinct items of `ks` in order of first appearance: an item is kept
      exactly when it does not occur earlier. */
  function FirstSeen(ks: seq<string>): seq<string>
  {
    if |ks| == 0 then []
    else if ks[|ks| - 1] in ks[..|ks| - 1] then FirstSeen(ks[..|ks| - 1])
    else FirstSeen(ks[..|ks| - 1]) + [ks[|ks| - 1]]
  }

  /** The dictionary a counting loop over `ks` builds, one key at a time, in order. */
  function TallyOf(ks: seq<string>): Tally
  {
    if |ks| == 0 then [] else Bump(TallyOf(ks[..|ks| - 1]), ks[|ks| - 1])
  }

  /** One bump adds exactly one to the total. */
  lemma {:induction false} BumpTotal(t: Tally, k: string)
    ensures Total(Bump(t, k)) == Total(t) + 1
  {
    if |t| > 0 && t[0].0 != k {
      BumpTotal(t[1..], k);
    }
  }

  /** One bump adds one to the bumped key's count and leaves every other count alone. */
  lemma {:induction false} BumpGet(t: Tally, k: string, j: string)
    requires DistinctKeys(t)
    ensures Get(Bump(t, k), j) == Get(t, j) + (if j == k then 1 else 0)
  {
    if |t| > 0 {
      if t[0].0 != k {
        BumpGet(t[1..], k, j);
      } else if j == k {
      } else {
        assert Get(Bump(t, k), j) == Get(t[1..], j);
      }
    }
  }

  /** One bump keeps keys distinct and keeps their order; a new key goes last. */
  lemma {:induction false} BumpKeys(t: Tally, k: string)
    requires DistinctKeys(t)
    ensures DistinctKeys(Bump(t, k))
    ensures Keys(Bump(t, k)) == if k in Keys(t) then Keys(t) else Keys(t) + [k]
  {
    if |t| > 0 && t[0].0 != k {
      var b := Bump(t[1..], k);
      BumpKeys(t[1..], k);
      assert Keys(t) == [t[0].0] + Keys(t[1..]);
      assert Keys(Bump(t, k)) == [t[0].0] + Keys(b);
      assert t[0].0 !in Keys(t[1..]);
      assert t[0].0 !in Keys(b);
      PrependDistinct(t[0], b);
    } else if |t| > 0 {
      assert Keys(Bump(t, k)) == [k] + Keys(t[1..]);
      assert k !in Keys(t[1..]);
      assert DistinctKeys(t[1..]);
      PrependDistinct((k, t[0].1 + 1), t[1..]);
    }
  }

  /** A key not among a dictionary's distinct keys can go in front of them. */
  lemma PrependDistinct(x: (string, nat), b: Tally)
    requires DistinctKeys(b) && x.0 !in Keys(b)
    ensures DistinctKeys([x] + b)
  {
    var r := [x] + b;
    forall i, j | 0 <= i < j < |r|
      ensures r[i].0 != r[j].0
    {
      assert r[j] == b[j - 1] && Keys(b)[j - 1] == b[j - 1].0;
      if i > 0 {
        assert r[i] == b[i - 1];
      }
    }
  }

  lemma {:induction false} GetMissing(t: Tally, k: string)
    requires forall i :: 0 <= i < |t| ==> t[i].0 != k
    ensures Get(t, k) == 0
  {
    if |t| > 0 {
      GetMissing(t[1..], k);
    }
  }

  /** The items of `ks` are exactly the items kept by `FirstSeen`, each once. */
  lemma {:induction false} FirstSeenMembers(ks: seq<string>)
    ensures forall k :: k in FirstSeen(ks) <==> k in ks
  {
    if |ks| > 0 {
      var init := ks[..|ks| - 1];
      FirstSeenMembers(init);
      assert ks == init + [ks[|ks| - 1]];
    }
  }

  /** The counting loop's keys are distinct and are the items of `ks` in order of
      first appearance. */
  lemma {:induction false} TallyOfKeys(ks: seq<string>)
    ensures DistinctKeys(TallyOf(ks))
    ensures Keys(TallyOf(ks)) == FirstSeen(ks)
  {
    if |ks| > 0 {
      var init := ks[..|ks| - 1];
      TallyOfKeys(init);
      FirstSeenMembers(init);
      BumpKeys(TallyOf(init), ks[|ks| - 1]);
    }
  }

  /** The counting loop's total is the number of items counted, and it has no more
      keys than items. */
  lemma {:induction false} TallyOfTotal(ks: seq<string>)
    ensures Total(TallyOf(ks)) == |ks|
    ensures |TallyOf(ks)| <= |ks|
  {
    if |ks| > 0 {
      var init := ks[..|ks| - 1];
      TallyOfTotal(init);
      BumpTotal(TallyOf(init), ks[|ks| - 1]);
      BumpLength(TallyOf(init), ks[|ks| - 1]);
    }
  }

  /** Each key's count in the counting loop's dictionary is its number of
      occurrences. */
  lemma {:induction false} TallyOfCounts(ks: seq<string>)
    ensures forall k :: Get(TallyOf(ks), k) == Occurrences(ks, k)
  {
    if |ks| > 0 {
      var init := ks[..|ks| - 1];
      TallyOfCounts(init);
      TallyOfKeys(init);
      forall k ensures Get(TallyOf(ks), k) == Occurrences(ks, k) {
        BumpGet(TallyOf(init), ks[|ks| - 1], k);
      }
    }
  }

  /** The counting loop's dictionary: its counts sum to the number of keys counted,
      each key's count is its number of occurrences, keys are distinct and come in
      order of first appearance, and every key counted is a key of the dictionary. */
  lemma TallyOfProperties(ks: seq<string>)
    ensures DistinctKeys(TallyOf(ks))
    ensures Total(TallyOf(ks)) == |ks|
    ensures forall k :: Get(TallyOf(ks), k) == Occurrences(ks, k)
    ensures forall k :: k in ks <==> k in Keys(TallyOf(ks))
    ensures |TallyOf(ks)| <= |ks|
    ensures Keys(TallyOf(ks)) == FirstSeen(ks)
  {
    TallyOfKeys(ks);
    TallyOfTotal(ks);
    TallyOfCounts(ks);
    FirstSeenMembers(ks);
  }
}
