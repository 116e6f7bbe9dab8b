/**
 * A PHP array with string keys, as used for a request's query parameters
 * (Symfony's ParameterBag) and for the query of a generated URL: an ordered
 * sequence of key/value pairs. Assigning an existing key overwrites it in place,
 * assigning a new key appends it, and `unset` removes it keeping the order of
 * the rest. `http_build_query` turns one into a query string.
 */
module Query {
  import opened Php

  type Query = seq<(string, Value)>

  function Keys(q: Query): (ks: seq<string>)
    ensures |ks| == |q|
    ensures forall i :: 0 <= i < |q| ==> ks[i] == q[i].0
  {
    if q == [] then [] else [q[0].0] + Keys(q[1..])
  }

  /** `$bag->has($k)` / `isset` on the key. */
  predicate Has(q: Query, k: string) {
    k in Keys(q)
  }

  /** A PHP array never holds a key twice. */
  predicate DistinctKeys(q: Query) {
    q == [] || (!Has(q[1..], q[0].0) && DistinctKeys(q[1..]))
  }

  /** `$bag->get($k)`: the stored value, null when the key is absent. */
  function Get(q: Query, k: string): (v: Value)
    ensures !Has(q, k) ==> v == Null
  {
    if q == [] then Null else if q[0].0 == k then q[0].1 else Get(q[1..], k)
  }

  /** `unset($q[$k])` / `$bag->remove($k)`. */
  function Remove(q: Query, k: string): Query {
    if q == [] then []
    else if q[0].0 == k then Remove(q[1..], k)
    else [q[0]] + Remove(q[1..], k)
  }

  /** `$q[$k] = $v`. */
  function Set(q: Query, k: string, v: Value): Query {
    if q == [] then [(k, v)]
    else if q[0].0 == k then [(k, v)] + q[1..]
    else [q[0]] + Set(q[1..], k, v)
  }

  lemma {:induction false} KeysCons(q: Query)
    requires q != []
    ensures Keys(q) == [q[0].0] + Keys(q[1..])
  {
  }

  lemma {:induction false} HasCons(q: Query, k: string)
    requires q != []
    ensures Has(q, k) <==> q[0].0 == k || Has(q[1..], k)
  {
    KeysCons(q);
  }

  /** Removing a key drops exactly that key and keeps every other key. */
  lemma {:induction false} RemoveHas(q: Query, k: string, k': string)
    ensures Has(Remove(q, k), k') <==> k' != k && Has(q, k')
  {
    if q != [] {
      RemoveHas(q[1..], k, k');
      HasCons(q, k');
      if q[0].0 != k {
        HasCons([q[0]] + Remove(q[1..], k), k');
        assert ([q[0]] + Remove(q[1..], k))[1..] == Remove(q[1..], k);
      }
    }
  }

  /** Removing a key leaves every other key's value as it was. */
  lemma {:induction false} RemoveGet(q: Query, k: string, k': string)
    requires k' != k
    ensures Get(Remove(q, k), k') == Get(q, k')
  {
    if q != [] {
      RemoveGet(q[1..], k, k');
      if q[0].0 != k {
        assert ([q[0]] + Remove(q[1..], k))[1..] == Remove(q[1..], k);
      }
    }
  }

  lemma {:induction false} RemoveDistinct(q: Query, k: string)
    requires DistinctKeys(q)
    ensures DistinctKeys(Remove(q, k))
  {
    if q != [] {
      RemoveDistinct(q[1..], k);
      if q[0].0 != k {
        RemoveHas(q[1..], k, q[0].0);
        assert ([q[0]] + Remove(q[1..], k))[1..] == Remove(q[1..], k);
      }
    }
  }

  /** `unset` keeps the order of what remains: it distributes over concatenation. */
  lemma {:induction false} RemoveAppend(a: Query, b: Query, k: string)
    ensures Remove(a + b, k) == Remove(a, k) + Remove(b, k)
  {
    if a != [] {
      assert (a + b)[1..] == a[1..] + b;
      RemoveAppend(a[1..], b, k);
    } else {
      assert a + b == b;
    }
  }

  /** After assigning a key it maps to the new value; other keys keep theirs. */
  lemma {:induction false} SetGet(q: Query, k: string, v: Value, k': string)
    ensures Get(Set(q, k, v), k) == v
    ensures k' != k ==> Get(Set(q, k, v), k') == Get(q, k')
  {
    if q != [] && q[0].0 != k {
      SetGet(q[1..], k, v, k');
      assert ([q[0]] + Set(q[1..], k, v))[1..] == Set(q[1..], k, v);
    }
  }

  /** Assigning adds the key if needed: the keys are the old ones, in order, plus possibly k last. */
  lemma {:induction false} SetKeys(q: Query, k: string, v: Value)
    ensures Keys(Set(q, k, v)) == if Has(q, k) then Keys(q) else Keys(q) + [k]
  {
    if q != [] {
      SetKeys(q[1..], k, v);
      KeysCons(q);
      HasCons(q, k);
      if q[0].0 == k {
        KeysCons([(k, v)] + q[1..]);
        assert ([(k, v)] + q[1..])[1..] == q[1..];
      } else {
        KeysCons([q[0]] + Set(q[1..], k, v));
        assert ([q[0]] + Set(q[1..], k, v))[1..] == Set(q[1..], k, v);
      }
    }
  }

  lemma SetHas(q: Query, k: string, v: Value, k': string)
    ensures Has(Set(q, k, v), k') <==> k' == k || Has(q, k')
  {
    SetKeys(q, k, v);
  }

  /**
   * An existing key is overwritten in place: every entry keeps its position,
   * and entries under other keys keep their values. A new key goes last.
   */
  lemma {:induction false} SetInPlace(q: Query, k: string, v: Value)
    ensures |Set(q, k, v)| == if Has(q, k) then |q| else |q| + 1
    ensures forall i :: 0 <= i < |q| && q[i].0 != k ==> Set(q, k, v)[i] == q[i]
    ensures !Has(q, k) ==> Set(q, k, v) == q + [(k, v)]
  {
    SetKeys(q, k, v);
    if q != [] {
      HasCons(q, k);
      SetInPlace(q[1..], k, v);
    }
  }

  lemma {:induction false} SetDistinct(q: Query, k: string, v: Value)
    requires DistinctKeys(q)
    ensures DistinctKeys(Set(q, k, v))
  {
    if q != [] {
      if q[0].0 == k {
        assert ([(k, v)] + q[1..])[1..] == q[1..];
      } else {
        SetDistinct(q[1..], k, v);
        SetHas(q[1..], k, v, q[0].0);
        assert ([q[0]] + Set(q[1..], k, v))[1..] == Set(q[1..], k, v);
      }
    }
  }

  // ---------------------------------------------------------------------------
  // http_build_query with PHP's default urlencode (PHP_QUERY_RFC1738)

  /** Characters urlencode leaves as they are. */
  predicate IsUnreserved(c: char) {
    ('a' <= c <= 'z') || ('A' <= c <= 'Z') || ('0' <= c <= '9') || c == '-' || c == '_' || c == '.'
  }

  /** The UTF-8 bytes of a character. */
  function Utf8(c: char): (bs: seq<int>)
    ensures 1 <= |bs| <= 4
    ensures forall k :: 0 <= k < |bs| ==> 0 <= bs[k] < 256
  {
    var n := c as int;
    if n < 0x80 then [n]
    else if n < 0x800 then [0xC0 + n / 0x40, 0x80 + n % 0x40]
    else if n < 0x10000 then [0xE0 + n / 0x1000, 0x80 + (n / 0x40) % 0x40, 0x80 + n % 0x40]
    else [0xF0 + n / 0x40000, 0x80 + (n / 0x1000) % 0x40, 0x80 + (n / 0x40) % 0x40, 0x80 + n % 0x40]
  }

  function HexDigit(d: int): char
    requires 0 <= d < 16
  {
    "0123456789ABCDEF"[d]
  }

  function PercentBytes(bs: seq<int>): string
    requires forall k :: 0 <= k < |bs| ==> 0 <= bs[k] < 256
  {
    if bs == [] then "" else ['%', HexDigit(bs[0] / 16), HexDigit(bs[0] % 16)] + PercentBytes(bs[1..])
  }

  function EncodeChar(c: char): string {
    if IsUnreserved(c) then [c] else if c == ' ' then "+" else PercentBytes(Utf8(c))
  }

  /** PHP's `urlencode`. */
  function UrlEncode(s: string): string {
    if s == [] then "" else EncodeChar(s[0]) + UrlEncode(s[1..])
  }

  /** urlencode leaves a string of unreserved characters as it is. */
  lemma {:induction false} UrlEncodeUnreserved(s: string)
    requires forall k :: 0 <= k < |s| ==> IsUnreserved(s[k])
    ensures UrlEncode(s) == s
  {
    if s != [] {
      UrlEncodeUnreserved(s[1..]);
    }
  }

  /** How http_build_query writes a scalar: booleans as 1 and 0. */
  function QueryScalar(v: Value): string {
    match v
    case Null => ""
    case Bool(b) => if b then "1" else "0"
    case Int(i) => IntToString(i)
    case Str(s) => s
  }

  /** The `key=value` pieces, in order; null values are skipped. */
  function QueryPieces(q: Query): seq<string> {
    if q == [] then []
    else (if q[0].1.Null? then [] else [UrlEncode(q[0].0) + "=" + UrlEncode(QueryScalar(q[0].1))])
         + QueryPieces(q[1..])
  }

  function JoinAmp(parts: seq<string>): string {
    if parts == [] then "" else if |parts| == 1 then parts[0] else parts[0] + "&" + JoinAmp(parts[1..])
  }

  /** `http_build_query($q)` for flat arrays. */
  function BuildQuery(q: Query): string {
    JoinAmp(QueryPieces(q))
  }
}
