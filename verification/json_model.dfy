/** The JSON values that cross the analyze endpoint: the request body,
    the providers' parsed replies and the response object. Numbers are
    exact rationals rather than IEEE doubles; object key order is not kept. */
module JsonModel {

  datatype Option<+T> = None | Some(value: T)

  datatype Json =
    | JNull
    | JBool(b: bool)
    | JNum(n: real)
    | JStr(s: string)
    | JArr(items: seq<Json>)
    | JObj(fields: map<string, Json>)

  /** A decimal array index as a property key: one or more ASCII digits. */
  predicate IsIndexKey(k: string) {
    |k| > 0 && forall i :: 0 <= i < |k| ==> '0' <= k[i] <= '9'
  }

  /** The character of the decimal digit `d`. */
  function DigitChar(d: nat): (c: char)
    requires d < 10
    ensures '0' <= c <= '9'
    ensures c as int - '0' as int == d
  {
    (48 + d) as char
  }

  /** The decimal spelling of `n`, as JavaScript writes an array index key. */
  function NatToString(n: nat): (s: string)
    ensures IsIndexKey(s)
    ensures |s| == 1 <==> n < 10
  {
    if n < 10 then [DigitChar(n)]
    else NatToString(n / 10) + [DigitChar(n % 10)]
  }

  /** Distinct indices have distinct keys: a decimal spelling determines
      its number. */
  lemma {:induction false} NatToStringInjective(a: nat, b: nat)
    ensures NatToString(a) == NatToString(b) ==> a == b
    decreases a
  {
    if NatToString(a) == NatToString(b) && a >= 10 && b >= 10 {
      var s := NatToString(a);
      assert s[..|s| - 1] == NatToString(a / 10);
      assert NatToString(b)[..|s| - 1] == NatToString(b / 10);
      assert DigitChar(a % 10) == s[|s| - 1] == DigitChar(b % 10);
      NatToStringInjective(a / 10, b / 10);
    }
  }

  /** The key of index `n` differs from the keys of all earlier indices. */
  lemma EarlierKeysDiffer(n: nat)
    ensures forall i :: 0 <= i < n ==> NatToString(i) != NatToString(n)
  {
    forall i | 0 <= i < n
      ensures NatToString(i) != NatToString(n)
    {
      NatToStringInjective(i, n);
    }
  }

  /** The index-keyed own properties `"0"`, `"1"`, … of an array-like
      value: one key per index, holding the item at that index. */
  function IndexFields(items: seq<Json>): (m: map<string, Json>)
    ensures forall i :: 0 <= i < |items| ==> NatToString(i) in m && m[NatToString(i)] == items[i]
    ensures forall k :: k in m ==> exists i :: 0 <= i < |items| && NatToString(i) == k
  {
    if |items| == 0 then map[]
    else
      var n := |items| - 1;
      var prev := IndexFields(items[..n]);
      EarlierKeysDiffer(n);
      var m := prev[NatToString(n) := items[n]];
      forall i | 0 <= i < |items|
        ensures NatToString(i) in m && m[NatToString(i)] == items[i]
      {
        if i < n {
          assert items[..n][i] == items[i];
        }
      }
      forall k | k in m
        ensures exists i :: 0 <= i < |items| && NatToString(i) == k
      {
        if k != NatToString(n) {
          var i :| 0 <= i < n && NatToString(i) == k;
        }
      }
      m
  }

  /** The own enumerable properties that object spread `{...j}` copies:
      an object's fields, the indices of an array or of a string's
      characters, and nothing for `null`, booleans and numbers. */
  function Spread(j: Json): (m: map<string, Json>)
    ensures j.JObj? ==> m == j.fields
    ensures j.JArr? ==> forall i :: 0 <= i < |j.items| ==> NatToString(i) in m && m[NatToString(i)] == j.items[i]
    ensures j.JStr? ==> forall i :: 0 <= i < |j.s| ==> NatToString(i) in m && m[NatToString(i)] == JStr([j.s[i]])
    ensures j.JArr? ==> forall k :: k in m ==> exists i :: 0 <= i < |j.items| && NatToString(i) == k
    ensures j.JStr? ==> forall k :: k in m ==> exists i :: 0 <= i < |j.s| && NatToString(i) == k
    ensures !j.JObj? ==> forall k :: k in m ==> IsIndexKey(k)
    ensures j.JNull? || j.JBool? || j.JNum? ==> m == map[]
  {
    match j
    case JObj(fields) => fields
    case JArr(items) => IndexFields(items)
    case JStr(s) => IndexFields(seq(|s|, i requires 0 <= i < |s| => JStr([s[i]])))
    case _ => map[]
  }
}
