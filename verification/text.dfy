/** The string operations the scorers apply to the submitted text, with
    JavaScript's meaning: `includes`, `split` on a one-character
    separator, `join`, and the URL pattern `/https?:\/\//`. Text is a
    sequence of characters; JavaScript's UTF-16 code units are not
    distinguished from characters. */
module Text {

  /** Number of occurrences of the character `c` in `s`. */
  function Count(s: string, c: char): (n: nat)
    ensures n <= |s|
    ensures n == 0 <==> c !in s
  {
    if |s| == 0 then 0
    else
      assert s == [s[0]] + s[1..];
      (if s[0] == c then 1 else 0) + Count(s[1..], c)
  }

  /** `Count` is exactly the multiplicity of `c` in `s`: every occurrence
      is counted once. */
  lemma {:induction false} CountIsMultiplicity(s: string, c: char)
    ensures Count(s, c) == multiset(s)[c]
  {
    if |s| > 0 {
      CountIsMultiplicity(s[1..], c);
      assert s == [s[0]] + s[1..];
      assert multiset(s) == multiset([s[0]]) + multiset(s[1..]);
    }
  }

  /** `pat` occurs in `s` starting at index `i`. */
  predicate OccursAt(s: string, pat: string, i: nat) {
    i + |pat| <= |s| && s[i..i + |pat|] == pat
  }

  lemma OccursShift(s: string, pat: string, i: nat)
    requires |s| > 0
    ensures OccursAt(s[1..], pat, i) <==> OccursAt(s, pat, i + 1)
  {
  }

  /** `s.includes(pat)`: whether `pat` occurs anywhere in `s`. The empty
      pattern occurs in every string. */
  function Includes(s: string, pat: string): (b: bool)
    ensures b <==> exists i: nat :: OccursAt(s, pat, i)
    decreases |s|
  {
    if |pat| <= |s| && s[..|pat|] == pat then
      assert OccursAt(s, pat, 0);
      true
    else if |s| == 0 then
      false
    else
      var rest := Includes(s[1..], pat);
      if rest then
        var i: nat :| OccursAt(s[1..], pat, i);
        OccursShift(s, pat, i);
        true
      else
        assert forall i: nat :: !OccursAt(s, pat, i) by {
          forall i: nat
            ensures !OccursAt(s, pat, i)
          {
            if i > 0 {
              OccursShift(s, pat, i - 1);
            }
          }
        }
        false
  }

  /** `a.join(sep)`: the parts with `sep` between neighbours; the empty
      array joins to the empty string. */
  function Join(parts: seq<string>, sep: string): string
  {
    if |parts| == 0 then ""
    else if |parts| == 1 then parts[0]
    else parts[0] + sep + Join(parts[1..], sep)
  }

  /** A pattern found in `mid` is found in any text built around `mid`. */
  lemma IncludesInContext(pre: string, mid: string, post: string, pat: string)
    requires Includes(mid, pat)
    ensures Includes(pre + mid + post, pat)
  {
    var i: nat :| OccursAt(mid, pat, i);
    var s := pre + mid + post;
    assert s[|pre| + i..|pre| + i + |pat|] == mid[i..i + |pat|];
    assert OccursAt(s, pat, |pre| + i);
  }

  /** Every part of a join occurs in the joined text. */
  lemma {:induction false} JoinMentionsEach(parts: seq<string>, sep: string)
    ensures forall i :: 0 <= i < |parts| ==> Includes(Join(parts, sep), parts[i])
    decreases |parts|
  {
    if |parts| == 1 {
      assert OccursAt(parts[0], parts[0], 0);
    } else if |parts| > 1 {
      var j := Join(parts, sep);
      JoinMentionsEach(parts[1..], sep);
      forall i | 0 <= i < |parts|
        ensures Includes(j, parts[i])
      {
        if i == 0 {
          assert j[..|parts[0]|] == parts[0];
          assert OccursAt(j, parts[0], 0);
        } else {
          assert parts[1..][i - 1] == parts[i];
          IncludesInContext(parts[0] + sep, Join(parts[1..], sep), "", parts[i]);
          assert parts[0] + sep + Join(parts[1..], sep) + "" == j;
        }
      }
    }
  }

  /** Every part of a join occurs in any text built around that join. */
  lemma MentionsAll(pre: string, parts: seq<string>, sep: string, post: string)
    ensures forall m :: m in parts ==> Includes(pre + Join(parts, sep) + post, m)
  {
    JoinMentionsEach(parts, sep);
    forall m | m in parts
      ensures Includes(pre + Join(parts, sep) + post, m)
    {
      IncludesInContext(pre, Join(parts, sep), post, m);
    }
  }

  /** A clause listing `parts`: `lead`, the parts joined by `sep`, and
      `close`; nothing at all when there are no parts. Every part occurs
      in it. */
  function Clause(lead: string, parts: seq<string>, sep: string, close: string): (c: string)
    ensures |parts| == 0 ==> c == ""
    ensures |lead| > 0 ==> (c == "" <==> |parts| == 0)
    ensures |parts| > 0 ==> |c| >= |lead| && c[..|lead|] == lead
    ensures forall m :: m in parts ==> Includes(c, m)
  {
    if |parts| == 0 then ""
    else
      MentionsAll(lead, parts, sep, close);
      assert (lead + Join(parts, sep) + close)[..|lead|] == lead;
      lead + Join(parts, sep) + close
  }

  /** A text assembled from a head, two middle pieces and a tail: it
      starts with the head, ends with the tail, and contains whatever
      either middle piece contains. */
  function Assemble(head: string, first: string, second: string, tail: string): (r: string)
    ensures |r| == |head| + |first| + |second| + |tail|
    ensures r[..|head|] == head
    ensures r[|r| - |tail|..] == tail
    ensures forall m :: Includes(first, m) ==> Includes(r, m)
    ensures forall m :: Includes(second, m) ==> Includes(r, m)
  {
    var r := head + first + second + tail;
    forall m | Includes(first, m)
      ensures Includes(r, m)
    {
      IncludesInContext(head, first, second + tail, m);
      assert head + first + (second + tail) == r;
    }
    forall m | Includes(second, m)
      ensures Includes(r, m)
    {
      IncludesInContext(head + first, second, tail, m);
    }
    r
  }

  /** `s.split(c)` for a one-character separator `c`: the maximal runs
      between separators, empty runs included, so `"".split(c)` is `[""]`. */
  function Split(s: string, c: char): (parts: seq<string>)
    ensures |parts| == Count(s, c) + 1
    ensures forall i :: 0 <= i < |parts| ==> c !in parts[i]
    ensures Join(parts, [c]) == s
  {
    if |s| == 0 then [""]
    else
      var rest := Split(s[1..], c);
      assert s == [s[0]] + s[1..];
      if s[0] == c then
        var parts := [""] + rest;
        assert parts[1..] == rest;
        assert forall i :: 1 <= i < |parts| ==> parts[i] == rest[i - 1];
        parts
      else
        var parts := [[s[0]] + rest[0]] + rest[1..];
        JoinExtendFirst(s[0], rest, [c]);
        assert c !in parts[0];
        assert forall i :: 1 <= i < |parts| ==> parts[i] == rest[i];
        parts
  }

  /** Extending the first part of a join extends the joined text. */
  lemma JoinExtendFirst(x: char, parts: seq<string>, sep: string)
    requires |parts| > 0
    ensures Join([[x] + parts[0]] + parts[1..], sep) == [x] + Join(parts, sep)
  {
    var longer := [[x] + parts[0]] + parts[1..];
    if |parts| > 1 {
      assert longer[1..] == parts[1..];
    }
  }

  /** Splitting a string that consists of `p`, `c` and `t`, where `p` has
      no `c`, yields `p` followed by the pieces of `t`. */
  lemma {:induction false} SplitAfterPiece(p: string, c: char, t: string)
    requires c !in p
    ensures Split(p + [c] + t, c) == [p] + Split(t, c)
    decreases |p|
  {
    var s := p + [c] + t;
    if |p| == 0 {
      assert s == [c] + t;
      assert s[1..] == t;
    } else {
      assert s[1..] == p[1..] + [c] + t;
      assert c !in p[1..] by {
        assert forall k :: 0 <= k < |p[1..]| ==> p[1..][k] == p[k + 1];
      }
      SplitAfterPiece(p[1..], c, t);
      assert [p[0]] + p[1..] == p;
    }
  }

  /** A string with no `c` splits into itself. */
  lemma {:induction false} SplitWithoutSeparator(p: string, c: char)
    requires c !in p
    ensures Split(p, c) == [p]
  {
  }

  /** Round trip: splitting the join of separator-free parts on the
      separator gives the parts back. */
  lemma {:induction false} SplitJoin(parts: seq<string>, c: char)
    requires |parts| > 0
    requires forall i :: 0 <= i < |parts| ==> c !in parts[i]
    ensures Split(Join(parts, [c]), c) == parts
    decreases |parts|
  {
    if |parts| == 1 {
      SplitWithoutSeparator(parts[0], c);
    } else {
      assert forall i :: 0 <= i < |parts[1..]| ==> parts[1..][i] == parts[i + 1];
      SplitJoin(parts[1..], c);
      SplitAfterPiece(parts[0], c, Join(parts[1..], [c]));
      assert parts == [parts[0]] + parts[1..];
    }
  }

  /** `s.split(' ').length`: the number of space-separated pieces. It is
      never zero, even for the empty string. */
  function WordCount(s: string): (n: nat)
    ensures n == Count(s, ' ') + 1
    ensures n >= 1
  {
    |Split(s, ' ')|
  }

  /** The pattern `/https?:\/\//`: the text contains `http://` or `https://`. */
  predicate HasUrl(s: string) {
    Includes(s, "http://") || Includes(s, "https://")
  }

  /** The pattern `/https?:\/\//` read off its parts at index `i`: `http`,
      an optional `s`, then `://`. */
  predicate UrlAt(s: string, i: nat) {
    OccursAt(s, "http", i) && (OccursAt(s, "://", i + 4) || OccursAt(s, "s://", i + 4))
  }

  /** An occurrence of `a + b` is an occurrence of `a` followed directly by
      one of `b`. */
  lemma OccursConcat(s: string, a: string, b: string, i: nat)
    ensures OccursAt(s, a + b, i) <==> OccursAt(s, a, i) && OccursAt(s, b, i + |a|)
  {
    if OccursAt(s, a, i) && OccursAt(s, b, i + |a|) {
      assert s[i..i + |a| + |b|] == s[i..i + |a|] + s[i + |a|..i + |a| + |b|];
    }
    if OccursAt(s, a + b, i) {
      assert s[i..i + |a|] == (a + b)[..|a|];
      assert s[i + |a|..i + |a| + |b|] == (a + b)[|a|..];
    }
  }

  /** `HasUrl` is the pattern `/https?:\/\//`: it holds exactly when `http`,
      an optional `s` and `://` occur in a row somewhere in the text. */
  lemma HasUrlMatchesPattern(s: string)
    ensures HasUrl(s) <==> exists i: nat :: UrlAt(s, i)
  {
    assert "http" + "://" == "http://";
    assert "http" + "s://" == "https://";
    if HasUrl(s) {
      var i: nat :| OccursAt(s, "http://", i) || OccursAt(s, "https://", i);
      OccursConcat(s, "http", "://", i);
      OccursConcat(s, "http", "s://", i);
      assert UrlAt(s, i);
    }
    if i: nat :| UrlAt(s, i) {
      OccursConcat(s, "http", "://", i);
      OccursConcat(s, "http", "s://", i);
    }
  }

  /** An ASCII decimal digit, the class `\d`. */
  predicate IsDigit(c: char) {
    '0' <= c <= '9'
  }

  /** The pattern `/\d/`, as a left-to-right scan: some character is a digit. */
  function HasDigit(s: string): (b: bool)
    ensures b <==> exists i :: 0 <= i < |s| && IsDigit(s[i])
  {
    if |s| == 0 then false
    else if IsDigit(s[0]) then true
    else
      var rest := HasDigit(s[1..]);
      assert forall i :: 1 <= i < |s| ==> s[i] == s[1..][i - 1];
      rest
  }

  /** The pattern `/"[^"]*"/` matches from index `i` to index `j`: a quote
      at each end and none in between. */
  predicate QuotedSpanAt(s: string, i: int, j: int) {
    0 <= i < j < |s| && s[i] == '"' && s[j] == '"' && forall k :: i < k < j ==> s[k] != '"'
  }

  /** The first index at which `c` occurs. */
  function FirstIndex(s: string, c: char): (k: nat)
    requires c in s
    ensures k < |s| && s[k] == c
    ensures forall m :: 0 <= m < k ==> s[m] != c
  {
    if s[0] == c then 0
    else
      assert c in s[1..];
      var k := FirstIndex(s[1..], c);
      assert forall m :: 1 <= m < k + 1 ==> s[m] == s[1..][m - 1];
      k + 1
  }

  /** The pattern `/"[^"]*"/`, as a left-to-right scan: a quote with
      another quote somewhere after it. */
  function HasQuotedSpan(s: string): (b: bool)
    ensures b <==> exists i, j :: QuotedSpanAt(s, i, j)
  {
    if |s| == 0 then false
    else if s[0] == '"' then
      if '"' in s[1..] then
        var k := FirstIndex(s[1..], '"');
        assert forall m :: 0 < m < k + 1 ==> s[m] == s[1..][m - 1];
        assert QuotedSpanAt(s, 0, k + 1);
        true
      else
        assert forall i, j :: !QuotedSpanAt(s, i, j) by {
          forall i, j
            ensures !QuotedSpanAt(s, i, j)
          {
            if 1 <= j < |s| {
              assert s[1..][j - 1] == s[j];
            }
          }
        }
        false
    else
      var rest := HasQuotedSpan(s[1..]);
      assert forall k :: 1 <= k < |s| ==> s[k] == s[1..][k - 1];
      if rest then
        var i, j :| QuotedSpanAt(s[1..], i, j);
        assert QuotedSpanAt(s, i + 1, j + 1);
        true
      else
        assert forall i, j :: !QuotedSpanAt(s, i, j) by {
          forall i, j | QuotedSpanAt(s, i, j)
            ensures false
          {
            assert QuotedSpanAt(s[1..], i - 1, j - 1);
          }
        }
        false
  }
}
