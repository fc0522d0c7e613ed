/** Scalar values the query layer serializes, and ordered key/value lists. */
module Values {

  /** Rust's `i64`. */
  newtype i64 = x: int | -0x8000_0000_0000_0000 <= x < 0x8000_0000_0000_0000

  datatype Option<+T> = None | Some(value: T)

  /** One serialized scalar: a 64-bit integer, a string slice or a boolean. */
  datatype Elem = I(n: i64) | S(s: string) | B(b: bool)

  /** One query parameter, `key=value`. */
  type Pair = (string, Elem)

  /** The keys of a parameter list, in order. */
  function Keys(ps: seq<Pair>): (ks: seq<string>)
    ensures |ks| == |ps|
    ensures forall i :: 0 <= i < |ps| ==> ks[i] == ps[i].0
  {
    seq(|ps|, i requires 0 <= i < |ps| => ps[i].0)
  }

  /** Pairs up field names with field values, position by position. */
  function Zip(keys: seq<string>, vals: seq<Elem>): (ps: seq<Pair>)
    requires |keys| == |vals|
    ensures |ps| == |keys|
    ensures forall i :: 0 <= i < |ps| ==> ps[i] == (keys[i], vals[i])
  {
    if keys == [] then [] else [(keys[0], vals[0])] + Zip(keys[1..], vals[1..])
  }

  /** No key occurs twice. */
  predicate Distinct(ks: seq<string>)
  {
    forall i, j :: 0 <= i < j < |ks| ==> ks[i] != ks[j]
  }

  /**
   * The value of the first pair carrying `key`. Every request query has
   * distinct keys (`Client.QueryKeys`), so which match is taken never matters.
   */
  function Lookup(ps: seq<Pair>, key: string): Option<Elem>
  {
    if ps == [] then None
    else if ps[0].0 == key then Some(ps[0].1)
    else Lookup(ps[1..], key)
  }

  /** With distinct keys, the i-th key finds exactly the i-th value. */
  lemma {:induction false} LookupDistinct(ps: seq<Pair>, i: nat)
    requires i < |ps|
    requires Distinct(Keys(ps))
    ensures Lookup(ps, ps[i].0) == Some(ps[i].1)
  {
    if i > 0 {
      assert Keys(ps)[0] != Keys(ps)[i];
      assert Keys(ps[1..]) == Keys(ps)[1..];
      LookupDistinct(ps[1..], i - 1);
    }
  }

  /** With distinct keys, every key finds its own value. */
  lemma {:induction false} LookupEveryKey(ps: seq<Pair>)
    requires Distinct(Keys(ps))
    ensures forall i :: 0 <= i < |ps| ==> Lookup(ps, ps[i].0) == Some(ps[i].1)
  {
    forall i | 0 <= i < |ps| ensures Lookup(ps, ps[i].0) == Some(ps[i].1) {
      LookupDistinct(ps, i);
    }
  }

  lemma KeysAppend(ps: seq<Pair>, qs: seq<Pair>)
    ensures Keys(ps + qs) == Keys(ps) + Keys(qs)
  {
  }

  /** Two distinct key lists with no key in common concatenate to a distinct list. */
  lemma DistinctAppend(a: seq<string>, b: seq<string>)
    requires Distinct(a) && Distinct(b)
    requires forall k :: k in a ==> k !in b
    ensures Distinct(a + b)
  {
    forall i, j | 0 <= i < j < |a + b| ensures (a + b)[i] != (a + b)[j] {
      if i < |a| && j >= |a| {
        assert (a + b)[i] in a;
        assert (a + b)[j] == b[j - |a|];
      }
    }
  }
}
