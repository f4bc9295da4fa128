/** Values shared by every part of the YieldForge bookkeeping model:
    optional values, JavaScript numbers that may be NaN, insertion-ordered
    records (plain JavaScript objects used as dictionaries), error kinds,
    and the environment readings (clock, random draws, identifiers) that the
    source takes from Date.now() and Math.random(). */
module Common {

  datatype Option<T> = None | Some(value: T)

  /** A JavaScript number as far as the model needs it: a real value, or NaN
      (the result of 0/0, which the rebalance can produce). */
  datatype Number = Finite(value: real) | NaN

  /** JavaScript's `n || d` on a number: NaN and 0 are falsy, so both fall
      back to `d`. */
  function OrElse(n: Number, d: real): (r: real)
    ensures n.NaN? ==> r == d
    ensures n.Finite? && n.value != 0.0 ==> r == n.value
    ensures n.Finite? && n.value == 0.0 ==> r == d
  {
    if n.NaN? || n.value == 0.0 then d else n.value
  }

  /** The error kinds the services throw. */
  datatype Error = InvalidAmount | InsufficientShares | WalletNotConnected | IntervalNotElapsed

  datatype Result<T> = Success(value: T) | Failure(error: Error)

  /** The readings one atomic action takes from its environment: the clock
      (milliseconds), the identifiers the source builds from the clock and
      Math.random(), and the raw Math.random() draws it consumes. */
  datatype Env = Env(
    now: int,
    eventId: string,
    txId: string,
    gasDraw: real,
    blockDraw: real,
    draws: seq<real>,
    usersDraw: real,
    volumeDraw: real)

  /** Math.random() promises values in [0, 1). */
  predicate IsDraw(d: real) { 0.0 <= d < 1.0 }

  predicate AllDraws(ds: seq<real>) { forall i :: 0 <= i < |ds| ==> IsDraw(ds[i]) }

  // ---------------------------------------------------------------------
  // Insertion-ordered records (JavaScript objects used as dictionaries)
  // ---------------------------------------------------------------------

  datatype Entry<V> = Entry(key: string, value: V)

  type Record<V> = seq<Entry<V>>

  function Keys<V>(r: Record<V>): (ks: seq<string>)
    ensures |ks| == |r|
    ensures forall i :: 0 <= i < |r| ==> ks[i] == r[i].key
  {
    seq(|r|, i requires 0 <= i < |r| => r[i].key)
  }

  /** A JavaScript object never holds a key twice. */
  predicate DistinctKeys<V>(r: Record<V>) {
    forall i, j :: 0 <= i < j < |r| ==> r[i].key != r[j].key
  }

  /** `r[k]`: the value stored under `k`, or None for `undefined`. */
  function Lookup<V>(r: Record<V>, k: string): (o: Option<V>)
    ensures o.Some? <==> exists i :: 0 <= i < |r| && r[i].key == k
    ensures o.Some? ==> exists i :: 0 <= i < |r| && r[i].key == k && r[i].value == o.value
  {
    if r == [] then None
    else if r[0].key == k then Some(r[0].value)
    else
      var o := Lookup(r[1..], k);
      assert forall i :: 1 <= i < |r| ==> r[i] == r[1..][i - 1];
      o
  }

  /** On a record with distinct keys, the lookup of the key at position `i`
      finds the value at position `i`. */
  lemma {:induction false} LookupAt<V>(r: Record<V>, i: nat)
    requires DistinctKeys(r) && i < |r|
    ensures Lookup(r, r[i].key) == Some(r[i].value)
  {
    if i > 0 {
      LookupAt(r[1..], i - 1);
    }
  }

  /** `r[k] = v`: overwrite in place when `k` is present, append otherwise. */
  function Put<V>(r: Record<V>, k: string, v: V): Record<V> {
    if r == [] then [Entry(k, v)]
    else if r[0].key == k then [Entry(k, v)] + r[1..]
    else [r[0]] + Put(r[1..], k, v)
  }

  /** After `r[k] = v`, `r[k]` is `v`, every other key reads as before, keys
      stay distinct, and the record grows by one entry exactly when `k` is
      new. */
  lemma PutSpec<V>(r: Record<V>, k: string, v: V)
    ensures Lookup(Put(r, k, v), k) == Some(v)
    ensures forall k' :: k' != k ==> Lookup(Put(r, k, v), k') == Lookup(r, k')
    ensures DistinctKeys(r) ==> DistinctKeys(Put(r, k, v))
    ensures |Put(r, k, v)| == if Lookup(r, k).Some? then |r| else |r| + 1
  {
    PutFound(r, k, v);
    forall k' | k' != k
      ensures Lookup(Put(r, k, v), k') == Lookup(r, k')
    {
      PutOther(r, k, v, k');
    }
    PutLength(r, k, v);
    if DistinctKeys(r) {
      PutDistinct(r, k, v);
    }
  }

  lemma {:induction false} PutFound<V>(r: Record<V>, k: string, v: V)
    ensures Lookup(Put(r, k, v), k) == Some(v)
  {
    if r != [] && r[0].key != k {
      PutFound(r[1..], k, v);
      assert Put(r, k, v)[1..] == Put(r[1..], k, v);
    }
  }

  lemma {:induction false} PutOther<V>(r: Record<V>, k: string, v: V, k': string)
    requires k' != k
    ensures Lookup(Put(r, k, v), k') == Lookup(r, k')
  {
    if r != [] && r[0].key != k {
      PutOther(r[1..], k, v, k');
      assert Put(r, k, v)[1..] == Put(r[1..], k, v);
    } else if r != [] {
      assert Put(r, k, v)[1..] == r[1..];
    }
  }

  lemma {:induction false} PutLength<V>(r: Record<V>, k: string, v: V)
    ensures |Put(r, k, v)| == if Lookup(r, k).Some? then |r| else |r| + 1
  {
    if r != [] && r[0].key != k {
      PutLength(r[1..], k, v);
    }
  }

  lemma {:induction false} PutDistinct<V>(r: Record<V>, k: string, v: V)
    requires DistinctKeys(r)
    ensures DistinctKeys(Put(r, k, v))
  {
    if r != [] {
      var tail := r[1..];
      assert DistinctKeys(tail);
      if r[0].key != k {
        PutDistinct(tail, k, v);
        var rest := Put(tail, k, v);
        assert Lookup(tail, r[0].key).None?;
        PutOther(tail, k, v, r[0].key);
        assert forall j :: 0 <= j < |rest| ==> rest[j].key != r[0].key;
        assert Put(r, k, v) == [r[0]] + rest;
      } else {
        assert Put(r, k, v) == [Entry(k, v)] + tail;
      }
    }
  }

  /** `Object.values(r).reduce((sum, a) => sum + a, 0)`, accumulating from
      the first entry. */
  function SumValues(r: Record<real>): real {
    if r == [] then 0.0 else SumValues(r[..|r| - 1]) + r[|r| - 1].value
  }

  lemma {:induction false} SumValuesNonNegative(r: Record<real>)
    requires forall i :: 0 <= i < |r| ==> r[i].value >= 0.0
    ensures SumValues(r) >= 0.0
    ensures SumValues(r) == 0.0 ==> forall i :: 0 <= i < |r| ==> r[i].value == 0.0
    ensures forall i :: 0 <= i < |r| ==> r[i].value <= SumValues(r)
  {
    if r != [] {
      SumValuesNonNegative(r[..|r| - 1]);
    }
  }

  // ---------------------------------------------------------------------
  // Arithmetic helpers with JavaScript's meaning
  // ---------------------------------------------------------------------

  function Abs(x: real): real { if x < 0.0 then -x else x }

  function Max(a: real, b: real): real { if a >= b then a else b }

  function Min(a: real, b: real): real { if a <= b then a else b }

  /** `Math.round(x * 100) / 100`; Math.round rounds halves up, that is
      `Math.round(y) == floor(y + 0.5)`. */
  function Round2(x: real): (r: real)
    ensures x - 0.005 < r <= x + 0.005
  {
    ((x * 100.0 + 0.5).Floor as real) / 100.0
  }

  /** The decimal digits of a non-negative integer, as `String(n)` writes them. */
  function DecimalString(n: nat): (s: string)
    ensures |s| >= 1
    ensures forall i :: 0 <= i < |s| ==> '0' <= s[i] <= '9'
  {
    var d := ['0' + (n % 10) as char];
    if n < 10 then d else DecimalString(n / 10) + d
  }
}
