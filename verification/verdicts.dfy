/** The result record both scorers build (`FactCheckResult`) and its JSON
    form in a response body. */
module Verdicts {
  import opened JsonModel

  datatype Verdict = Verdict(
    credibilityScore: int,
    analysis: string,
    sources: seq<string>,
    correction: string,
    isTrue: bool)

  /** The five keys of a result record. */
  const VerdictKeys: set<string> :=
    {"credibilityScore", "analysis", "sources", "correction", "isTrue"}

  /** A list of strings as a JSON array of strings. */
  function JStrs(xs: seq<string>): (js: seq<Json>)
    ensures |js| == |xs|
  {
    if |xs| == 0 then [] else [JStr(xs[0])] + JStrs(xs[1..])
  }

  /** The strings of a JSON array whose items are all strings. */
  function StringsOf(js: seq<Json>): Option<seq<string>> {
    if |js| == 0 then Some([])
    else
      match (js[0], StringsOf(js[1..]))
      case (JStr(x), Some(rest)) => Some([x] + rest)
      case _ => None
  }

  /** The record as a JSON object; it never carries a `model` key. */
  function ToJson(v: Verdict): (m: map<string, Json>)
    ensures m.Keys == VerdictKeys
    ensures "model" !in m
  {
    map[
      "credibilityScore" := JNum(v.credibilityScore as real),
      "analysis" := JStr(v.analysis),
      "sources" := JArr(JStrs(v.sources)),
      "correction" := JStr(v.correction),
      "isTrue" := JBool(v.isTrue)]
  }

  /** Reads a record back from a JSON object: every key must be present
      with a value of its type, the score a whole number. */
  function FromJson(m: map<string, Json>): Option<Verdict> {
    if && VerdictKeys <= m.Keys
       && m["credibilityScore"].JNum? && m["credibilityScore"].n == m["credibilityScore"].n.Floor as real
       && m["analysis"].JStr?
       && m["sources"].JArr? && StringsOf(m["sources"].items).Some?
       && m["correction"].JStr?
       && m["isTrue"].JBool?
    then
      Some(Verdict(
        m["credibilityScore"].n.Floor,
        m["analysis"].s,
        StringsOf(m["sources"].items).value,
        m["correction"].s,
        m["isTrue"].b))
    else None
  }

  lemma {:induction false} StringsRoundTrip(xs: seq<string>)
    ensures StringsOf(JStrs(xs)) == Some(xs)
  {
    if |xs| > 0 {
      StringsRoundTrip(xs[1..]);
      assert xs == [xs[0]] + xs[1..];
    }
  }

  lemma {:induction false} StringsOfInverse(js: seq<Json>)
    requires StringsOf(js).Some?
    ensures JStrs(StringsOf(js).value) == js
  {
    if |js| > 0 {
      StringsOfInverse(js[1..]);
      var xs := StringsOf(js).value;
      assert xs[1..] == StringsOf(js[1..]).value;
      assert js == [js[0]] + js[1..];
    }
  }

  /** Round trip: the JSON form of a record reads back as that record, so
      it carries every field's value. */
  lemma JsonRoundTrip(v: Verdict)
    ensures FromJson(ToJson(v)) == Some(v)
  {
    StringsRoundTrip(v.sources);
  }

  /** Conversely, an object that reads as a record agrees with that
      record's JSON form on every record key. */
  lemma JsonReadsBack(m: map<string, Json>)
    requires FromJson(m).Some?
    ensures forall k :: k in VerdictKeys ==> ToJson(FromJson(m).value)[k] == m[k]
  {
    StringsOfInverse(m["sources"].items);
  }
}
