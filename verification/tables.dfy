/** A JavaScript plain object used as a dictionary keyed by pool id: `pools[id] = …`
    appends a new key at the end, and assigning an existing key replaces its value
    where it stands. The entries are kept in insertion order, so `Object.values`
    is simply the sequence of values. */
module Tables {
  import opened Outcomes

  /** Entries in insertion order; `DistinctKeys` is the invariant every table keeps. */
  type Table<V> = seq<(string, V)>

  predicate DistinctKeys<V>(t: Table<V>) {
    forall i, j :: 0 <= i < j < |t| ==> t[i].0 != t[j].0
  }

  function Keys<V>(t: Table<V>): set<string> {
    set i | 0 <= i < |t| :: t[i].0
  }

  /** The keys of a list of assignments. */
  function KeysOf<V>(ps: seq<(string, V)>): set<string> {
    set i | 0 <= i < |ps| :: ps[i].0
  }

  /** `Object.values`: the values in insertion order. */
  function Values<V>(t: Table<V>): (r: seq<V>)
    ensures |r| == |t|
    ensures forall i :: 0 <= i < |t| ==> r[i] == t[i].1
  {
    seq(|t|, i requires 0 <= i < |t| => t[i].1)
  }

  /** Property lookup `t[k]`. */
  function Get<V>(t: Table<V>, k: string): (r: Option<V>)
    ensures r.Some? <==> k in Keys(t)
    ensures r.Some? ==> (k, r.value) in t
  {
    if |t| == 0 then None
    else if t[0].0 == k then Some(t[0].1)
    else
      assert Keys(t) == {t[0].0} + Keys(t[1..]) by {
        forall x | x in Keys(t) ensures x in {t[0].0} + Keys(t[1..]) {
          var i :| 0 <= i < |t| && t[i].0 == x;
          if i > 0 { assert t[1..][i - 1].0 == x; }
        }
      }
      Get(t[1..], k)
  }

  /** Property assignment `t[k] = v`: an existing key keeps its position and
      takes the new value; a new key goes at the end. */
  function Put<V>(t: Table<V>, k: string, v: V): (r: Table<V>)
    requires DistinctKeys(t)
    ensures |r| == if k in Keys(t) then |t| else |t| + 1
    ensures forall i :: 0 <= i < |t| ==> r[i] == if t[i].0 == k then (k, v) else t[i]
    ensures k !in Keys(t) ==> r[|t|] == (k, v)
  {
    if |t| == 0 then [(k, v)]
    else if t[0].0 == k then [(k, v)] + t[1..]
    else
      assert k in Keys(t) <==> k in Keys(t[1..]) by {
        if k in Keys(t) {
          var i :| 0 <= i < |t| && t[i].0 == k;
          assert t[1..][i - 1].0 == k;
        }
        if k in Keys(t[1..]) {
          var i :| 0 <= i < |t| - 1 && t[1..][i].0 == k;
          assert t[i + 1].0 == k;
        }
      }
      [t[0]] + Put(t[1..], k, v)
  }

  /** In a table with distinct keys, the lookup of a stored key finds its entry. */
  lemma GetAt<V>(t: Table<V>, i: nat)
    requires DistinctKeys(t) && i < |t|
    ensures Get(t, t[i].0) == Some(t[i].1)
  {
    var g := Get(t, t[i].0);
    var j :| 0 <= j < |t| && t[j] == (t[i].0, g.value);
  }

  /** An assignment keeps every key where it was. */
  lemma PutKeepsKeys<V>(t: Table<V>, k: string, v: V)
    requires DistinctKeys(t)
    ensures forall i :: 0 <= i < |t| ==> Put(t, k, v)[i].0 == t[i].0
  {
  }

  /** An assignment keeps the keys distinct and adds `k` to the key set. */
  lemma PutKeys<V>(t: Table<V>, k: string, v: V)
    requires DistinctKeys(t)
    ensures DistinctKeys(Put(t, k, v))
    ensures Keys(Put(t, k, v)) == Keys(t) + {k}
  {
    var r := Put(t, k, v);
    PutKeepsKeys(t, k, v);
    forall i, j | 0 <= i < j < |r| ensures r[i].0 != r[j].0 {
      if j == |t| {
        assert k !in Keys(t);
        assert t[i].0 in Keys(t);
      }
    }
    forall x | x in Keys(r) ensures x in Keys(t) + {k} {
      var i :| 0 <= i < |r| && r[i].0 == x;
      if i < |t| {
        assert t[i].0 in Keys(t);
      }
    }
    forall x | x in Keys(t) + {k} ensures x in Keys(r) {
      if x in Keys(t) {
        var i :| 0 <= i < |t| && t[i].0 == x;
        assert r[i].0 == x;
      } else {
        assert r[|t|].0 == k;
      }
    }
  }

  /** After `t[k] = v`, looking up `k` gives `v` and every other lookup is unchanged. */
  lemma PutGet<V>(t: Table<V>, k: string, v: V, k': string)
    requires DistinctKeys(t)
    ensures Get(Put(t, k, v), k') == if k' == k then Some(v) else Get(t, k')
  {
    var r := Put(t, k, v);
    PutKeys(t, k, v);
    if k' == k {
      if k in Keys(t) {
        var i :| 0 <= i < |t| && t[i].0 == k;
        GetAt(r, i);
      } else {
        GetAt(r, |t|);
      }
    } else if k' in Keys(t) {
      var i :| 0 <= i < |t| && t[i].0 == k';
      GetAt(r, i);
      GetAt(t, i);
    }
  }

  /** Every entry after an assignment was already there or is the assigned one. */
  lemma PutProvenance<V>(t: Table<V>, k: string, v: V)
    requires DistinctKeys(t)
    ensures forall e :: e in Put(t, k, v) ==> e in t || e == (k, v)
  {
    var r := Put(t, k, v);
    forall e | e in r ensures e in t || e == (k, v) {
      var i :| 0 <= i < |r| && r[i] == e;
    }
  }

  /** A sequence of assignments `t[ps[0].0] = ps[0].1; …` into an empty object. */
  function Build<V>(ps: seq<(string, V)>): (r: Table<V>)
    ensures DistinctKeys(r)
    ensures Keys(r) == KeysOf(ps)
    ensures forall e :: e in r ==> e in ps
  {
    if |ps| == 0 then []
    else
      var init := ps[..|ps| - 1];
      var last := ps[|ps| - 1];
      var t := Build(init);
      PutKeys(t, last.0, last.1);
      PutProvenance(t, last.0, last.1);
      assert KeysOf(ps) == KeysOf(init) + {last.0} by {
        forall x | x in KeysOf(ps) ensures x in KeysOf(init) + {last.0} {
          var i :| 0 <= i < |ps| && ps[i].0 == x;
          if i < |ps| - 1 { assert init[i].0 == x; }
        }
      }
      Put(t, last.0, last.1)
  }

  /** Later assignments win: the entry stored under a key is the value of the
      last assignment to that key. */
  lemma {:induction false} LastWins<V>(ps: seq<(string, V)>, i: nat)
    requires i < |ps|
    requires forall j :: i < j < |ps| ==> ps[j].0 != ps[i].0
    ensures Get(Build(ps), ps[i].0) == Some(ps[i].1)
  {
    var init := ps[..|ps| - 1];
    var last := ps[|ps| - 1];
    PutGet(Build(init), last.0, last.1, ps[i].0);
    if i < |ps| - 1 {
      LastWins(init, i);
    }
  }
}
