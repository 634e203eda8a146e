/** Small sequence utilities shared by both scorers: counting the true
    entries of a boolean list (`filter(Boolean).length`) and keeping the
    items a boolean mask selects, in order (a chain of guarded `push`es). */
module Lists {

  /** Number of `true` entries in `bs`. */
  function CountTrue(bs: seq<bool>): (n: nat)
    ensures n <= |bs|
    ensures n == 0 <==> forall i :: 0 <= i < |bs| ==> !bs[i]
    ensures n == |bs| <==> forall i :: 0 <= i < |bs| ==> bs[i]
  {
    if |bs| == 0 then 0
    else (if bs[0] then 1 else 0) + CountTrue(bs[1..])
  }

  /** `CountTrue` is exactly the multiplicity of `true` in `bs`. */
  lemma {:induction false} CountTrueIsMultiplicity(bs: seq<bool>)
    ensures CountTrue(bs) == multiset(bs)[true]
  {
    if |bs| > 0 {
      CountTrueIsMultiplicity(bs[1..]);
      assert bs == [bs[0]] + bs[1..];
      assert multiset(bs) == multiset([bs[0]]) + multiset(bs[1..]);
    }
  }

  /** The items whose mask entry is `true`, in their original order. */
  function Select<T>(items: seq<T>, keep: seq<bool>): (r: seq<T>)
    requires |items| == |keep|
    ensures |r| == CountTrue(keep)
    ensures forall x :: x in r ==> exists i :: 0 <= i < |items| && keep[i] && items[i] == x
    ensures forall i :: 0 <= i < |items| && keep[i] ==> items[i] in r
  {
    if |items| == 0 then []
    else
      var rest := Select(items[1..], keep[1..]);
      assert forall i :: 1 <= i < |items| ==> items[i] == items[1..][i - 1] && keep[i] == keep[1..][i - 1];
      if keep[0] then [items[0]] + rest else rest
  }

  /** Selection keeps exactly the items whose mask entry is set, when the
      items are pairwise distinct. */
  lemma SelectMembership<T>(items: seq<T>, keep: seq<bool>, i: int)
    requires |items| == |keep|
    requires forall a, b :: 0 <= a < b < |items| ==> items[a] != items[b]
    requires 0 <= i < |items|
    ensures items[i] in Select(items, keep) <==> keep[i]
  {
  }

  /** Selection from four items, spelled out as four guarded appends. */
  lemma SelectFour<T>(items: seq<T>, keep: seq<bool>)
    requires |items| == |keep| == 4
    ensures Select(items, keep)
         == (if keep[0] then [items[0]] else [])
          + (if keep[1] then [items[1]] else [])
          + (if keep[2] then [items[2]] else [])
          + (if keep[3] then [items[3]] else [])
  {
    var c0 := if keep[0] then [items[0]] else [];
    var c1 := if keep[1] then [items[1]] else [];
    var c2 := if keep[2] then [items[2]] else [];
    var c3 := if keep[3] then [items[3]] else [];
    assert Select(items[3..], keep[3..]) == c3 by {
      SelectCons(items[3..], keep[3..]);
      assert |items[3..][1..]| == 0;
    }
    assert Select(items[2..], keep[2..]) == c2 + c3 by {
      SelectCons(items[2..], keep[2..]);
      assert items[2..][1..] == items[3..] && keep[2..][1..] == keep[3..];
    }
    assert Select(items[1..], keep[1..]) == c1 + (c2 + c3) by {
      SelectCons(items[1..], keep[1..]);
      assert items[1..][1..] == items[2..] && keep[1..][1..] == keep[2..];
    }
    SelectCons(items, keep);
    AppendAssociates(c0, c1, c2, c3);
  }

  lemma AppendAssociates<T>(a: seq<T>, b: seq<T>, c: seq<T>, d: seq<T>)
    ensures a + (b + (c + d)) == a + b + c + d
  {
  }

  /** One step of selection: the first item, if kept, then the selection
      from the rest. */
  lemma SelectCons<T>(items: seq<T>, keep: seq<bool>)
    requires |items| == |keep| > 0
    ensures Select(items, keep) == (if keep[0] then [items[0]] else []) + Select(items[1..], keep[1..])
  {
  }
}
