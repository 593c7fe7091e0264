/** The result deduplicator (removeDuplicates): keeps, for every IRI compared
    without regard to case, the earliest record and drops every later one.
    Records are told apart by their position in the list. */
module Deduplication {
  import opened Text
  import opened Ontology

  /** The identity two records are compared by: the IRI, ignoring case. */
  function Key(r: SearchResult): string {
    Lower(r.iri)
  }

  /** The keys of the records of `s`. */
  function Keys(s: seq<SearchResult>): set<string>
    decreases |s|
  {
    if s == [] then {} else Keys(s[..|s| - 1]) + {Key(s[|s| - 1])}
  }

  /** The deduplicated list, built record by record: a record is kept when no
      record before it has its key. */
  function Dedup(s: seq<SearchResult>): seq<SearchResult>
    decreases |s|
  {
    if s == [] then []
    else
      var x := s[|s| - 1];
      var init := s[..|s| - 1];
      Dedup(init) + (if Key(x) in Keys(init) then [] else [x])
  }

  /** Whether one of the records at positions below both `lim` and `j` has the IRI of record `j`, ignoring case. */
  predicate EarlierSame(s: seq<SearchResult>, lim: nat, j: nat)
    requires lim <= |s| && j < |s|
    decreases lim
  {
    lim > 0 && ((lim - 1 < j && EqualsIgnoreCase(s[lim - 1].iri, s[j].iri)) || EarlierSame(s, lim - 1, j))
  }

  /** removeDuplicates: for every record (result1) and every record (result2)
      not yet processed as a result1, other than result1 itself, drop result2
      when the IRIs are equal ignoring case. The list is pruned by clearing
      the presence flag of the dropped position, and what remains present is
      returned in order. */
  method RemoveDuplicates(results: seq<SearchResult>) returns (deduped: seq<SearchResult>)
    ensures deduped == Dedup(results)
  {
    var searchList := results;
    var n := |searchList|;
    var present := seq(n, _ => true);
    var processed: set<nat> := {};
    for i := 0 to n
      invariant |present| == n
      invariant forall k :: k in processed <==> 0 <= k < i
      invariant forall j :: 0 <= j < n ==> present[j] == !EarlierSame(searchList, i, j)
    {
      for j := 0 to n
        invariant |present| == n
        invariant forall k :: 0 <= k < j ==> present[k] == !EarlierSame(searchList, i + 1, k)
        invariant forall k :: j <= k < n ==> present[k] == !EarlierSame(searchList, i, k)
      {
        if j !in processed {
          if i != j {
            if EqualsIgnoreCase(searchList[i].iri, searchList[j].iri) {
              present := present[j := false];
            }
          }
        }
      }
      processed := processed + {i};
    }
    deduped := [];
    for j := 0 to n
      invariant deduped == Dedup(searchList[..j])
    {
      EarlierSameIff(searchList, n, j);
      assert searchList[..j + 1][..j] == searchList[..j];
      if present[j] {
        deduped := deduped + [searchList[j]];
      }
    }
    assert searchList[..n] == searchList;
  }

  // ---- Lemmas about keys ----

  lemma {:induction false} KeysIff(s: seq<SearchResult>, k: string)
    ensures k in Keys(s) <==> exists i :: 0 <= i < |s| && Key(s[i]) == k
    decreases |s|
  {
    if s != [] {
      var init := s[..|s| - 1];
      KeysIff(init, k);
      assert forall i :: 0 <= i < |init| ==> init[i] == s[i];
    }
  }

  lemma {:induction false} EarlierSameIff(s: seq<SearchResult>, lim: nat, j: nat)
    requires lim <= |s| && j < |s|
    ensures EarlierSame(s, lim, j) <==> Key(s[j]) in Keys(s[..if lim < j then lim else j])
    decreases lim
  {
    if lim > 0 {
      EarlierSameIff(s, lim - 1, j);
      if lim <= j {
        assert s[..lim][..lim - 1] == s[..lim - 1];
      }
    }
  }

  // ---- Properties of the deduplicated list ----

  predicate DistinctKeys(s: seq<SearchResult>) {
    forall a, b :: 0 <= a < b < |s| ==> Key(s[a]) != Key(s[b])
  }

  /** `a` is `b` with some records left out, the rest in their original order. */
  predicate IsSubsequence(a: seq<SearchResult>, b: seq<SearchResult>)
    decreases |b|
  {
    if a == [] then true
    else if b == [] then false
    else (a[|a| - 1] == b[|b| - 1] && IsSubsequence(a[..|a| - 1], b[..|b| - 1])) || IsSubsequence(a, b[..|b| - 1])
  }

  /** Position `j` holds the earliest record of its IRI. */
  predicate IsFirst(s: seq<SearchResult>, j: int)
    requires 0 <= j < |s|
  {
    Key(s[j]) !in Keys(s[..j])
  }

  /** Every distinct IRI of the input is still represented. */
  lemma {:induction false} DedupKeys(s: seq<SearchResult>)
    ensures Keys(Dedup(s)) == Keys(s)
    decreases |s|
  {
    if s != [] {
      var init := s[..|s| - 1];
      DedupKeys(init);
      var x := s[|s| - 1];
      if Key(x) !in Keys(init) {
        var d := Dedup(init) + [x];
        assert Dedup(s) == d;
        assert d[..|d| - 1] == Dedup(init);
        assert Keys(d) == Keys(Dedup(init)) + {Key(x)};
      } else {
        assert Dedup(s) == Dedup(init);
      }
    }
  }

  /** No two records of the result share an IRI, ignoring case. */
  lemma {:induction false} DedupDistinct(s: seq<SearchResult>)
    ensures DistinctKeys(Dedup(s))
    decreases |s|
  {
    if s != [] {
      var init := s[..|s| - 1];
      var x := s[|s| - 1];
      DedupDistinct(init);
      DedupKeys(init);
      if Key(x) !in Keys(init) {
        var d := Dedup(init);
        forall a | 0 <= a < |d| ensures Key(d[a]) != Key(x) {
          KeysIff(d, Key(d[a]));
        }
      }
    }
  }

  /** The survivors keep their original relative order. */
  lemma {:induction false} DedupSubsequence(s: seq<SearchResult>)
    ensures IsSubsequence(Dedup(s), s)
    decreases |s|
  {
    if s != [] {
      var init := s[..|s| - 1];
      var x := s[|s| - 1];
      DedupSubsequence(init);
      if Key(x) !in Keys(init) {
        var d := Dedup(init) + [x];
        assert Dedup(s) == d;
        assert d[..|d| - 1] == Dedup(init);
      } else {
        assert Dedup(s) == Dedup(init);
      }
    }
  }

  /** The earliest record of every IRI survives, and every survivor is the
      earliest record of its IRI. */
  lemma {:induction false} DedupKeepsFirst(s: seq<SearchResult>)
    ensures forall j :: 0 <= j < |s| && IsFirst(s, j) ==> s[j] in Dedup(s)
    ensures forall x :: x in Dedup(s) ==> exists j :: 0 <= j < |s| && IsFirst(s, j) && s[j] == x
    decreases |s|
  {
    if s != [] {
      var init := s[..|s| - 1];
      var x := s[|s| - 1];
      DedupKeepsFirst(init);
      forall j | 0 <= j < |init| ensures init[..j] == s[..j] && init[j] == s[j] {
      }
    }
  }

  /** A list whose IRIs are already distinct is left as it is. */
  lemma {:induction false} DedupOfDistinct(s: seq<SearchResult>)
    requires DistinctKeys(s)
    ensures Dedup(s) == s
    decreases |s|
  {
    if s != [] {
      var init := s[..|s| - 1];
      var x := s[|s| - 1];
      assert forall a :: 0 <= a < |init| ==> init[a] == s[a];
      DedupOfDistinct(init);
      KeysIff(init, Key(x));
      assert s == init + [x];
    }
  }

  /** Deduplicating twice gives the same list as deduplicating once. */
  lemma DedupIdempotent(s: seq<SearchResult>)
    ensures Dedup(Dedup(s)) == Dedup(s)
  {
    DedupDistinct(s);
    DedupOfDistinct(Dedup(s));
  }

  // ---- A single pass with a set of seen IRIs computes the same list ----

  /** First-wins reduction with a set of the lower-cased IRIs seen so far. */
  function DedupSeen(s: seq<SearchResult>, seen: set<string>): seq<SearchResult>
    decreases |s|
  {
    if s == [] then []
    else if Key(s[0]) in seen then DedupSeen(s[1..], seen)
    else [s[0]] + DedupSeen(s[1..], seen + {Key(s[0])})
  }

  /** Deduplicating `p + q` keeps the deduplicated `p`, followed by the
      records of `q` whose IRI is new to `p` and to the records of `q` before them. */
  lemma {:induction false} DedupAppend(p: seq<SearchResult>, q: seq<SearchResult>)
    ensures Dedup(p + q) == Dedup(p) + DedupSeen(q, Keys(p))
    decreases |q|
  {
    if q == [] {
      assert p + q == p;
    } else {
      var p' := p + [q[0]];
      assert p + q == p' + q[1..];
      DedupAppend(p', q[1..]);
      assert p'[..|p'| - 1] == p;
      assert Keys(p') == Keys(p) + {Key(q[0])};
      if Key(q[0]) in Keys(p) {
        assert Keys(p') == Keys(p);
      }
    }
  }

  /** The pairwise elimination and the single pass with a seen-set agree. */
  lemma DedupBySeenSet(s: seq<SearchResult>)
    ensures Dedup(s) == DedupSeen(s, {})
  {
    DedupAppend([], s);
    assert [] + s == s;
  }
}
