/**
  The parts of PHP's value semantics that the gateway's decisions depend on:
  truthiness of strings (the `?:` operator and `empty()`), the `(int)` cast of a
  checkbox value, `intval` of a decimal quantity, and ordered arrays with string
  keys (PHP's associative arrays), whose assignment to an existing key keeps
  the key's position.
*/
module Php {

  datatype Option<+T> = None | Some(value: T)

  datatype Result<+T, +E> = Ok(value: T) | Err(error: E)

  /** A scalar as PHP form APIs hand it over: an int or a string. */
  datatype Scalar = Int(i: int) | Str(s: string)

  /** PHP truthiness of a string: only "" and "0" are falsy. */
  predicate Truthy(s: string) {
    s != "" && s != "0"
  }

  /** `$a ?: $b` on strings. */
  function Elvis(a: string, b: string): (r: string)
    ensures Truthy(a) ==> r == a
    ensures !Truthy(a) ==> r == b
  {
    if Truthy(a) then a else b
  }

  /** `(int) $v` for a value that is an int or absent (NULL casts to 0). */
  function IntCast(v: Option<int>): int {
    match v
    case None => 0
    case Some(i) => i
  }

  /** True when `sub` occurs in `s` (`strpos($s, $sub) !== FALSE`). */
  predicate Contains(s: string, sub: string)
    decreases |s|
  {
    sub <= s || (s != [] && Contains(s[1..], sub))
  }

  // ---------------------------------------------------------------------------
  // Decimal numeric strings and intval

  /** A decimal numeric string such as "2.50": its value is units / 10^scale. */
  datatype Decimal = Decimal(units: int, scale: nat)

  function Pow10(n: nat): (p: int)
    ensures p >= 1
  {
    if n == 0 then 1 else 10 * Pow10(n - 1)
  }

  /** `intval` of a decimal numeric string: its integer part, truncated toward zero. */
  function IntVal(d: Decimal): int {
    var p := Pow10(d.scale);
    if d.units >= 0 then d.units / p else -((-d.units) / p)
  }

  /** intval keeps the integer part: it never moves away from zero and drops less than one unit. */
  lemma IntValIsIntegerPart(d: Decimal)
    ensures var r, p := IntVal(d), Pow10(d.scale);
      && (d.units >= 0 ==> 0 <= r && r * p <= d.units < (r + 1) * p)
      && (d.units < 0 ==> r <= 0 && (r - 1) * p < d.units <= r * p)
  {
    var p := Pow10(d.scale);
    if d.units >= 0 {
      DivBounds(d.units, p);
    } else {
      DivBounds(-d.units, p);
      var q := (-d.units) / p;
      assert (-q - 1) * p == -((q + 1) * p);
      assert -q * p == -(q * p);
    }
  }

  lemma DivBounds(n: int, p: int)
    requires n >= 0 && p >= 1
    ensures 0 <= n / p
    ensures (n / p) * p <= n < (n / p + 1) * p
  {
    var q := n / p;
    assert n == q * p + n % p;
    assert (q + 1) * p == q * p + p;
  }

  /** A whole number written with any number of decimals ("2.00") keeps its value under intval. */
  lemma IntValOfWholeNumber(n: int, scale: nat)
    ensures IntVal(Decimal(n * Pow10(scale), scale)) == n
  {
    var p := Pow10(scale);
    IntValIsIntegerPart(Decimal(n * p, scale));
    var r := IntVal(Decimal(n * p, scale));
    if n * p >= 0 {
      assert n >= 0;
      assert r * p <= n * p < (r + 1) * p;
      MulMonotone(r, n, p);
      MulMonotone(n, r + 1, p);
    } else {
      assert n < 0;
      assert (r - 1) * p < n * p <= r * p;
      MulMonotone(r - 1, n, p);
      MulMonotone(n, r, p);
    }
  }

  lemma MulMonotone(a: int, b: int, p: int)
    requires p >= 1
    ensures a * p < b * p ==> a < b
    ensures a * p <= b * p ==> a <= b
  {
    if a > b {
      assert a * p - b * p == (a - b) * p;
    }
  }

  // ---------------------------------------------------------------------------
  // Ordered arrays with string keys

  /** A PHP array from string keys to string values, in insertion order. */
  type Assoc = seq<(string, string)>

  /** The keys of an ordered array, in order. */
  function Keys(a: Assoc): (ks: seq<string>)
    ensures |ks| == |a|
    ensures forall i :: 0 <= i < |a| ==> ks[i] == a[i].0
  {
    if a == [] then [] else [a[0].0] + Keys(a[1..])
  }

  /** A PHP array never holds the same key twice. */
  predicate DistinctKeys(a: Assoc) {
    forall i, j :: 0 <= i < j < |a| ==> a[i].0 != a[j].0
  }

  /** `$a[$k] ?? NULL`. */
  function Get(a: Assoc, k: string): (r: Option<string>)
    ensures r.None? <==> k !in Keys(a)
  {
    if a == [] then None
    else if a[0].0 == k then Some(a[0].1)
    else Get(a[1..], k)
  }

  /** `$a[$k] = $v`: overwrite in place when the key exists, append otherwise. */
  function Put(a: Assoc, k: string, v: string): (r: Assoc)
    ensures |a| <= |r| <= |a| + 1
  {
    if a == [] then [(k, v)]
    else if a[0].0 == k then [(k, v)] + a[1..]
    else [a[0]] + Put(a[1..], k, v)
  }

  /** Assignment keeps the key order: an existing key stays where it was, a new key goes last. */
  lemma {:induction false} PutKeys(a: Assoc, k: string, v: string)
    requires DistinctKeys(a)
    ensures k in Keys(a) ==> Keys(Put(a, k, v)) == Keys(a)
    ensures k !in Keys(a) ==> Keys(Put(a, k, v)) == Keys(a) + [k]
    ensures DistinctKeys(Put(a, k, v))
  {
    if a == [] {
    } else if a[0].0 == k {
      assert Keys(Put(a, k, v)) == [k] + Keys(a[1..]);
      assert k !in Keys(a[1..]);
    } else {
      assert Keys(a) == [a[0].0] + Keys(a[1..]);
      PutKeys(a[1..], k, v);
      assert Keys(Put(a, k, v)) == [a[0].0] + Keys(Put(a[1..], k, v));
      assert a[0].0 !in Keys(a[1..]);
      assert a[0].0 !in Keys(Put(a[1..], k, v));
    }
  }

  /** After `$a[$k] = $v`, `$a[$k]` is `$v` and every other key reads as before. */
  lemma {:induction false} PutGet(a: Assoc, k: string, v: string, k': string)
    ensures Get(Put(a, k, v), k) == Some(v)
    ensures k' != k ==> Get(Put(a, k, v), k') == Get(a, k')
  {
    if a != [] && a[0].0 != k {
      PutGet(a[1..], k, v, k');
    }
  }

  /** Assigning a key not yet present appends it. */
  lemma {:induction false} PutNewKey(a: Assoc, k: string, v: string)
    requires k !in Keys(a)
    ensures Put(a, k, v) == a + [(k, v)]
  {
    if a != [] {
      assert Keys(a) == [a[0].0] + Keys(a[1..]);
      PutNewKey(a[1..], k, v);
    }
  }

  /** In an array with distinct names, no entry's name occurs before it. */
  lemma DistinctKeysFresh(a: Assoc, j: nat)
    requires DistinctKeys(a) && j < |a|
    ensures a[j].0 !in Keys(a[..j])
  {
    forall i | 0 <= i < j ensures Keys(a[..j])[i] != a[j].0 {
      assert a[..j][i] == a[i];
    }
  }
}
