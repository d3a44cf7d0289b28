/** Saved highlight records and the collection operations the extension
    performs on the fetched `highlights` array: filtering out an id, finding a
    record by id, setting a summary, and listing newest first. */
module Highlights {
  import opened Wrappers

  /** One saved highlight. `summary` is absent until an enrichment succeeds. */
  datatype Highlight = Highlight(
    id: int,
    text: string,
    url: string,
    title: string,
    date: string,
    summary: Option<string>)

  /** Creation order is id order: every record's id is below the ids after it. */
  ghost predicate IdsIncreasing(s: seq<Highlight>) {
    forall i, j :: 0 <= i < j < |s| ==> s[i].id < s[j].id
  }

  /** No two records share an id. */
  ghost predicate IdsUnique(s: seq<Highlight>) {
    forall i, j :: 0 <= i < j < |s| ==> s[i].id != s[j].id
  }

  /** Every record in `s` has an id below `id`. */
  ghost predicate AllBelow(s: seq<Highlight>, id: int) {
    forall k :: 0 <= k < |s| ==> s[k].id < id
  }

  /** Appending a record whose id exceeds every stored id keeps ids strictly
      increasing, hence unique. */
  lemma AppendKeepsIdsIncreasing(s: seq<Highlight>, h: Highlight)
    requires IdsIncreasing(s) && AllBelow(s, h.id)
    ensures IdsIncreasing(s + [h]) && IdsUnique(s + [h])
  {
  }

  // ----- delete: highlights.filter((h) => h.id !== id) -----

  /** The records of `s` whose id is not `id`, in their original order. */
  function Without(s: seq<Highlight>, id: int): (r: seq<Highlight>)
    ensures |r| <= |s|
    ensures forall h :: h in r <==> h in s && h.id != id
  {
    if s == [] then []
    else (if s[0].id == id then [] else [s[0]]) + Without(s[1..], id)
  }

  /** Filtering distributes over concatenation, so it keeps relative order. */
  lemma {:induction false} WithoutConcat(a: seq<Highlight>, b: seq<Highlight>, id: int)
    ensures Without(a + b, id) == Without(a, id) + Without(b, id)
  {
    if a == [] {
      assert a + b == b;
    } else {
      assert (a + b)[0] == a[0];
      assert (a + b)[1..] == a[1..] + b;
      WithoutConcat(a[1..], b, id);
    }
  }

  /** Each record with another id keeps its multiplicity; none with `id` is left. */
  lemma {:induction false} WithoutCounts(s: seq<Highlight>, id: int, h: Highlight)
    ensures multiset(Without(s, id))[h] == if h.id == id then 0 else multiset(s)[h]
  {
    if s != [] {
      WithoutCounts(s[1..], id, h);
      assert s == [s[0]] + s[1..];
    }
  }

  /** Deleting an id that no record has leaves the collection unchanged. */
  lemma {:induction false} WithoutAbsent(s: seq<Highlight>, id: int)
    requires forall k :: 0 <= k < |s| ==> s[k].id != id
    ensures Without(s, id) == s
  {
    if s != [] {
      WithoutAbsent(s[1..], id);
    }
  }

  /** Deleting twice is deleting once. */
  lemma WithoutIdempotent(s: seq<Highlight>, id: int)
    ensures Without(Without(s, id), id) == Without(s, id)
  {
    var r := Without(s, id);
    forall k | 0 <= k < |r| ensures r[k].id != id {
      assert r[k] in r;
    }
    WithoutAbsent(r, id);
  }

  /** Removing the one record with `id` from the middle of a collection in
      which no other record has it. */
  lemma WithoutSplit(before: seq<Highlight>, x: Highlight, after: seq<Highlight>, id: int)
    requires x.id == id
    requires forall j :: 0 <= j < |before| ==> before[j].id != id
    requires forall j :: 0 <= j < |after| ==> after[j].id != id
    ensures Without(before + [x] + after, id) == before + after
  {
    var single := [x];
    assert Without(single, id) == [] by {
      assert single[1..] == [];
    }
    WithoutAbsent(before, id);
    WithoutConcat(before, single, id);
    assert Without(before + single, id) == before;
    WithoutAbsent(after, id);
    WithoutConcat(before + single, after, id);
  }

  /** With unique ids, deleting a present id removes exactly that one record. */
  lemma WithoutRemovesOne(s: seq<Highlight>, id: int, k: nat)
    requires IdsUnique(s) && k < |s| && s[k].id == id
    ensures Without(s, id) == s[..k] + s[k + 1..]
  {
    var before, after := s[..k], s[k + 1..];
    forall j | 0 <= j < |before| ensures before[j].id != id {
      assert before[j] == s[j];
    }
    forall j | 0 <= j < |after| ensures after[j].id != id {
      assert after[j] == s[k + 1 + j];
    }
    assert s == before + [s[k]] + after;
    WithoutSplit(before, s[k], after, id);
  }

  /** Deleting keeps ids strictly increasing. */
  lemma {:induction false} WithoutKeepsIdsIncreasing(s: seq<Highlight>, id: int)
    requires IdsIncreasing(s)
    ensures IdsIncreasing(Without(s, id))
  {
    if s != [] {
      var tail := Without(s[1..], id);
      WithoutKeepsIdsIncreasing(s[1..], id);
      forall k | 0 <= k < |tail| ensures s[0].id < tail[k].id {
        assert tail[k] in s[1..];
      }
    }
  }

  // ----- summary persist: findIndex, then highlights[index].summary = summary -----

  /** `k` is the first position of `s` holding a record with this id. */
  ghost predicate FirstWithId(s: seq<Highlight>, id: int, k: int) {
    0 <= k < |s| && s[k].id == id && forall j :: 0 <= j < k ==> s[j].id != id
  }

  /** `highlights.findIndex((h) => h.id === id)`: the first matching position,
      or -1 when no record has this id. */
  function FindIndex(s: seq<Highlight>, id: int): (r: int)
    ensures -1 <= r < |s|
    ensures r == -1 <==> forall k :: 0 <= k < |s| ==> s[k].id != id
    ensures r != -1 ==> FirstWithId(s, id, r)
  {
    if s == [] then -1
    else if s[0].id == id then 0
    else
      var j := FindIndex(s[1..], id);
      if j == -1 then -1 else j + 1
  }

  /** The collection after the summary of the first record with this id is set.
      Only that record's `summary` changes; with no such record nothing does. */
  function SetSummary(s: seq<Highlight>, id: int, summary: string): (r: seq<Highlight>)
    ensures |r| == |s|
    ensures forall k :: 0 <= k < |s| && !FirstWithId(s, id, k) ==> r[k] == s[k]
    ensures forall k :: FirstWithId(s, id, k) ==> r[k] == s[k].(summary := Some(summary))
  {
    var i := FindIndex(s, id);
    if i == -1 then s else s[i := s[i].(summary := Some(summary))]
  }

  /** With unique ids, exactly the record carrying the id has the new summary,
      and every other field of it is kept. */
  lemma SetSummaryUnique(s: seq<Highlight>, id: int, summary: string, k: nat)
    requires IdsUnique(s) && k < |s|
    ensures SetSummary(s, id, summary)[k] ==
      if s[k].id == id then s[k].(summary := Some(summary)) else s[k]
  {
    if s[k].id == id {
      forall j | 0 <= j < k ensures s[j].id != id {
        assert s[j].id != s[k].id;
      }
      assert FirstWithId(s, id, k);
    }
  }

  /** Setting a summary keeps ids, and so keeps them increasing. */
  lemma SetSummaryKeepsIdsIncreasing(s: seq<Highlight>, id: int, summary: string)
    requires IdsIncreasing(s)
    ensures IdsIncreasing(SetSummary(s, id, summary))
  {
    var r := SetSummary(s, id, summary);
    forall k | 0 <= k < |s| ensures r[k].id == s[k].id {
      // split on whether k is the first match, so that each SetSummary ensures applies
      if FirstWithId(s, id, k) { } else { }
    }
  }

  // ----- listing: highlights.reverse() -----

  /** The collection newest first: position `k` holds the `k`-th most recent. */
  function NewestFirst(s: seq<Highlight>): (r: seq<Highlight>)
    ensures |r| == |s|
  {
    seq(|s|, k requires 0 <= k < |s| => s[|s| - 1 - k])
  }

  /** The record saved last is listed first, followed by the earlier listing. */
  lemma NewestFirstAppend(s: seq<Highlight>, h: Highlight)
    ensures NewestFirst(s + [h]) == [h] + NewestFirst(s)
  {
    var l, r := NewestFirst(s + [h]), [h] + NewestFirst(s);
    forall k | 0 <= k < |l| ensures l[k] == r[k] {
      if k > 0 {
        assert r[k] == NewestFirst(s)[k - 1];
      }
    }
  }

  /** The listing shows every stored record exactly as often as it is stored. */
  lemma {:induction false} NewestFirstPermutation(s: seq<Highlight>)
    ensures multiset(NewestFirst(s)) == multiset(s)
  {
    if s != [] {
      var init, last := s[..|s| - 1], s[|s| - 1];
      assert s == init + [last];
      NewestFirstAppend(init, last);
      NewestFirstPermutation(init);
    }
  }

  /** Listing twice gives back creation order. */
  lemma NewestFirstInvolution(s: seq<Highlight>)
    ensures NewestFirst(NewestFirst(s)) == s
  {
  }

  /** With ids in creation order, the listing has strictly decreasing ids. */
  lemma NewestFirstIdsDecreasing(s: seq<Highlight>)
    requires IdsIncreasing(s)
    ensures forall i, j :: 0 <= i < j < |s| ==> NewestFirst(s)[i].id > NewestFirst(s)[j].id
  {
  }
}
