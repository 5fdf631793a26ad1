/**
 * Plain JavaScript objects as ordered records: a sequence of (key, value)
 * entries in enumeration order, with no key twice.  Used for request bodies,
 * query parameters and header objects.
 */
module Records {
  import opened Wrappers

  /** No key occurs twice: the first key is not among the others, and so on down the record. */
  predicate UniqueKeys<V>(r: seq<(string, V)>)
    decreases |r|
  {
    r == [] || (r[0].0 !in Keys(r[1..]) && UniqueKeys(r[1..]))
  }

  type Record<V> = r: seq<(string, V)> | UniqueKeys(r) witness []

  /** The keys of `r` in enumeration order (`Object.keys`). */
  function Keys<V>(r: seq<(string, V)>): (ks: seq<string>)
    ensures |ks| == |r|
    ensures forall i :: 0 <= i < |r| ==> ks[i] == r[i].0
  {
    if r == [] then [] else [r[0].0] + Keys(r[1..])
  }

  /** Property read `r[k]`; `None` is `undefined`. */
  function Get<V>(r: seq<(string, V)>, k: string): (o: Option<V>)
    ensures o.Some? <==> k in Keys(r)
  {
    if r == [] then None
    else if r[0].0 == k then Some(r[0].1)
    else Get(r[1..], k)
  }

  /** In a record every entry is what a read of its key returns. */
  lemma {:induction false} GetEntry<V>(r: Record<V>, i: nat)
    requires i < |r|
    ensures Get(r, r[i].0) == Some(r[i].1)
  {
    if i > 0 {
      GetEntry(r[1..], i - 1);
    }
  }

  /** Prepending an entry whose key is new keeps the keys unique. */
  lemma Cons<V>(e: (string, V), t: Record<V>)
    requires e.0 !in Keys(t)
    ensures UniqueKeys([e] + t)
    ensures Keys([e] + t) == [e.0] + Keys(t)
  {
    assert ([e] + t)[1..] == t;
  }

  /** Reading a key of a record with one more entry in front. */
  lemma GetCons<V>(e: (string, V), t: seq<(string, V)>, k: string)
    ensures Get([e] + t, k) == if k == e.0 then Some(e.1) else Get(t, k)
  {
    assert ([e] + t)[1..] == t;
  }

  /** A record literal of two entries with different keys. */
  lemma Literal2<V>(a: (string, V), b: (string, V))
    requires a.0 != b.0
    ensures UniqueKeys([a, b])
    ensures Get([a, b], a.0) == Some(a.1) && Get([a, b], b.0) == Some(b.1)
  {
    Cons(b, []);
    assert [a] + [b] == [a, b];
    Cons(a, [b]);
    GetCons(a, [b], a.0);
    GetCons(a, [b], b.0);
    GetCons(b, [], b.0);
  }

  /** A record literal of three entries with different keys. */
  lemma Literal3<V>(a: (string, V), b: (string, V), c: (string, V))
    requires a.0 != b.0 && a.0 != c.0 && b.0 != c.0
    ensures UniqueKeys([a, b, c])
    ensures Get([a, b, c], a.0) == Some(a.1) && Get([a, b, c], b.0) == Some(b.1) && Get([a, b, c], c.0) == Some(c.1)
  {
    Literal2(b, c);
    assert [a] + [b, c] == [a, b, c];
    Cons(a, [b, c]);
    GetCons(a, [b, c], a.0);
    GetCons(a, [b, c], b.0);
    GetCons(a, [b, c], c.0);
  }

  /** The first key of a record does not occur again. */
  lemma KeyOfHead<V>(r: Record<V>)
    requires |r| > 0
    ensures r[0].0 !in Keys(r[1..])
  {
  }

  /** What `Put` promises, for a record and the result of assigning `k := v` in it. */
  ghost predicate Assigned<V>(r: Record<V>, k: string, v: V, r': Record<V>) {
    && Get(r', k) == Some(v)
    && (forall k' :: k' != k ==> Get(r', k') == Get(r, k'))
    && Keys(r') == (if k in Keys(r) then Keys(r) else Keys(r) + [k])
    && |r| <= |r'|
    && (forall i :: 0 <= i < |r| && r[i].0 != k ==> r'[i] == r[i])
  }

  /** Assigning in the tail of a record whose head has another key. */
  lemma AssignedCons<V>(r: Record<V>, k: string, v: V, t: Record<V>)
    requires |r| > 0 && r[0].0 != k
    requires Assigned(r[1..], k, v, t)
    ensures r[0].0 !in Keys(t)
    ensures UniqueKeys([r[0]] + t)
    ensures Assigned(r, k, v, [r[0]] + t)
  {
    KeyOfHead(r);
    Cons(r[0], t);
    ConsReads(r, k, v, t);
    ConsPositions(r, k, t);
  }

  /** Reads after assigning in the tail. */
  lemma ConsReads<V>(r: Record<V>, k: string, v: V, t: seq<(string, V)>)
    requires |r| > 0 && r[0].0 != k
    requires Get(t, k) == Some(v)
    requires forall k' :: k' != k ==> Get(t, k') == Get(r[1..], k')
    ensures Get([r[0]] + t, k) == Some(v)
    ensures forall k' :: k' != k ==> Get([r[0]] + t, k') == Get(r, k')
  {
    var tail := r[1..];
    assert r == [r[0]] + tail;
    GetCons(r[0], t, k);
    forall k' | k' != k
      ensures Get([r[0]] + t, k') == Get(r, k')
    {
      GetCons(r[0], t, k');
      GetCons(r[0], tail, k');
    }
  }

  /** Entries kept in place in the tail stay in place behind the head. */
  lemma ConsPositions<V>(r: seq<(string, V)>, k: string, t: seq<(string, V)>)
    requires |r| > 0 && |r| - 1 <= |t|
    requires forall i :: 0 <= i < |r| - 1 && r[1..][i].0 != k ==> t[i] == r[1..][i]
    ensures forall i :: 0 <= i < |r| && r[i].0 != k ==> ([r[0]] + t)[i] == r[i]
  {
    forall i | 0 <= i < |r| && r[i].0 != k
      ensures ([r[0]] + t)[i] == r[i]
    {
      if i > 0 {
        assert r[1..][i - 1] == r[i];
      }
    }
  }

  /** Assigning to the key at the head replaces the head and keeps the tail. */
  lemma AssignedHead<V>(r: Record<V>, k: string, v: V)
    requires |r| > 0 && r[0].0 == k
    ensures UniqueKeys([(k, v)] + r[1..])
    ensures Assigned(r, k, v, [(k, v)] + r[1..])
  {
    var tail: Record<V> := r[1..];
    var r' := [(k, v)] + tail;
    assert r == [r[0]] + tail;
    KeyOfHead(r);
    Cons((k, v), tail);
    Cons(r[0], tail);
    GetCons((k, v), tail, k);
    forall k' | k' != k
      ensures Get(r', k') == Get(r, k')
    {
      GetCons((k, v), tail, k');
      GetCons(r[0], tail, k');
    }
  }

  /** Assigning in the empty record adds the one entry. */
  lemma AssignedEmpty<V>(k: string, v: V)
    ensures UniqueKeys([(k, v)])
    ensures Assigned([], k, v, [(k, v)])
  {
    Cons((k, v), []);
    GetCons((k, v), [], k);
    forall k' | k' != k
      ensures Get([(k, v)], k') == Get([], k')
    {
      GetCons((k, v), [], k');
    }
  }

  /**
   * Property assignment `r[k] = v` on a copy: an existing key keeps its
   * place and takes the new value, a new key is added last.
   */
  function Put<V>(r: Record<V>, k: string, v: V): (r': Record<V>)
    ensures Assigned(r, k, v, r')
  {
    if r == [] then
      AssignedEmpty(k, v);
      [(k, v)]
    else if r[0].0 == k then
      AssignedHead(r, k, v);
      [(k, v)] + r[1..]
    else
      var t := Put(r[1..], k, v);
      AssignedCons(r, k, v, t);
      [r[0]] + t
  }

  /**
   * Object spread `{...r, ...s}`: every key of `s` takes its value from
   * `s`, every other key keeps its value from `r`, and nothing else appears.
   */
  function Spread<V>(r: Record<V>, s: Record<V>): (t: Record<V>)
    ensures forall k :: Get(t, k) == if Get(s, k).Some? then Get(s, k) else Get(r, k)
    decreases |s|
  {
    if s == [] then r
    else
      var rest: Record<V> := s[1..];
      Spread(Put(r, s[0].0, s[0].1), rest)
  }
}
