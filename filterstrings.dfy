/**
 * internal/util/filterstrings.go: the case-insensitive filter of the option
 * pickers and the shortest-first order of its results.
 */
module FilterStrings {
  import opened GoStrings

  /** Bytes of the UTF-8 encoding of a character (Go's len counts bytes). */
  function Utf8Len(c: char): nat {
    if c as int < 0x80 then 1
    else if c as int < 0x800 then 2
    else if c as int < 0x1_0000 then 3
    else 4
  }

  /** len(s) of a Go string holding `s`. */
  function ByteLen(s: string): nat {
    if s == [] then 0 else Utf8Len(s[0]) + ByteLen(s[1..])
  }

  /** byLength.Less. */
  predicate Less(s: seq<string>, i: nat, j: nat)
    requires i < |s| && j < |s|
  {
    ByteLen(s[i]) < ByteLen(s[j])
  }

  /** No entry is longer, in bytes, than an entry after it. */
  predicate SortedByLength(s: seq<string>) {
    forall i, j :: 0 <= i < j < |s| ==> ByteLen(s[i]) <= ByteLen(s[j])
  }

  /** An option matches when its lower-case form contains the lower-case filter. */
  predicate Matches(option: string, filter: string) {
    Contains(ToLower(option), ToLower(filter))
  }

  /** The matching options, in their order. */
  function Matching(options: seq<string>, filter: string): seq<string> {
    if options == [] then []
    else
      var last := options[|options| - 1];
      Matching(options[..|options| - 1], filter) + (if Matches(last, filter) then [last] else [])
  }

  /** byLength.Swap. */
  method Swap(a: array<string>, i: nat, j: nat)
    requires i < a.Length && j < a.Length
    modifies a
    ensures a[..] == old(a[..])[i := old(a[j])][j := old(a[i])]
    ensures multiset(a[..]) == old(multiset(a[..]))
  {
    a[i], a[j] := a[j], a[i];
  }

  /**
   * sort.Sort(byLength(a)), as a sort by exchanges of neighbours: shortest
   * first, the same strings with the same multiplicities. Nothing is promised
   * about the order of strings of equal length.
   */
  method SortByLength(a: array<string>)
    modifies a
    ensures SortedByLength(a[..])
    ensures multiset(a[..]) == old(multiset(a[..]))
  {
    if a.Length == 0 {
      return;
    }
    var i := 1;
    while i < a.Length
      invariant 1 <= i <= a.Length
      invariant forall p, q :: 0 <= p < q < i ==> ByteLen(a[p]) <= ByteLen(a[q])
      invariant multiset(a[..]) == old(multiset(a[..]))
    {
      SiftDown(a, i);
      i := i + 1;
    }
  }

  /** Moves a[i] down past every longer entry of the sorted prefix a[..i]. */
  method SiftDown(a: array<string>, i: nat)
    requires i < a.Length
    requires forall p, q :: 0 <= p < q < i ==> ByteLen(a[p]) <= ByteLen(a[q])
    modifies a
    ensures forall p, q :: 0 <= p < q <= i ==> ByteLen(a[p]) <= ByteLen(a[q])
    ensures multiset(a[..]) == old(multiset(a[..]))
  {
    var j := i;
    while j > 0 && Less(a[..], j, j - 1)
      invariant 0 <= j <= i
      invariant forall p, q :: 0 <= p < q <= i && p != j && q != j ==> ByteLen(a[p]) <= ByteLen(a[q])
      invariant forall q :: j < q <= i ==> ByteLen(a[j]) <= ByteLen(a[q])
      invariant multiset(a[..]) == old(multiset(a[..]))
    {
      Swap(a, j - 1, j);
      j := j - 1;
    }
  }

  /**
   * FilterStrings: an empty filter gives the options as they are; otherwise the
   * options containing the filter, case-insensitively, shortest first.
   */
  method FilterStrings(options: seq<string>, filter: string) returns (results: seq<string>)
    ensures filter == [] ==> results == options
    ensures filter != [] ==> SortedByLength(results)
    ensures filter != [] ==> multiset(results) == multiset(Matching(options, filter))
    ensures filter != [] ==> forall r :: r in results ==> Matches(r, filter)
  {
    if |filter| == 0 {
      return options;
    }
    var lowerFilter := ToLower(filter);
    var matched: seq<string> := [];
    var i := 0;
    while i < |options|
      invariant 0 <= i <= |options|
      invariant matched == Matching(options[..i], filter)
    {
      assert options[..i + 1][..i] == options[..i];
      if Contains(ToLower(options[i]), lowerFilter) {
        matched := matched + [options[i]];
      }
      i := i + 1;
    }
    assert options[..i] == options;
    var a := new string[|matched|](k requires 0 <= k < |matched| => matched[k]);
    assert a[..] == matched;
    SortByLength(a);
    results := a[..];
    forall r | r in results
      ensures Matches(r, filter)
    {
      assert r in multiset(matched);
      MatchingMembers(options, filter, r);
    }
  }

  // ---------------------------------------------------------------------------

  /**
   * Each option occurs among the matching ones exactly as often as among all
   * options when it matches, and not at all otherwise.
   */
  lemma {:induction false} MatchingCount(options: seq<string>, filter: string, x: string)
    ensures multiset(Matching(options, filter))[x]
         == if Matches(x, filter) then multiset(options)[x] else 0
  {
    if options != [] {
      var p := options[..|options| - 1];
      MatchingCount(p, filter, x);
      assert options == p + [options[|options| - 1]];
    }
  }

  /** The matching options are the options that match. */
  lemma MatchingMembers(options: seq<string>, filter: string, x: string)
    ensures x in Matching(options, filter) <==> x in options && Matches(x, filter)
  {
    MatchingCount(options, filter, x);
    assert x in Matching(options, filter) <==> x in multiset(Matching(options, filter));
    assert x in options <==> x in multiset(options);
  }
}
