/** The history query of the two SQL adapters (internal/adapters/persistence/sqlite/history.go
    and its PostgreSQL twin), which sorts by claim time alone: sessions claimed at the same
    instant may come in any order, and in another order for the next page. */
module Listings {
  import opened Core
  import opened Paging

  /** `h` lists exactly the given ids, each once, latest claim first. */
  ghost predicate ListsByTime(sessions: Sessions, ids: set<nat>, h: seq<nat>)
    requires ids <= sessions.Keys
  {
    && (forall k :: k in h <==> k in ids)
    && (forall i, j | 0 <= i < j < |h| :: h[i] != h[j])
    && (forall i, j | 0 <= i <= j < |h| :: sessions[h[i]].claimedAt >= sessions[h[j]].claimedAt)
  }

  ghost predicate OneListing(sessions: Sessions, ids: set<nat>)
    requires ids <= sessions.Keys
  {
    forall g, h | ListsByTime(sessions, ids, g) && ListsByTime(sessions, ids, h) :: g == h
  }

  predicate TimesDiffer(sessions: Sessions, ids: set<nat>)
    requires ids <= sessions.Keys
  {
    forall j, k | j in ids && k in ids && j != k :: sessions[j].claimedAt != sessions[k].claimedAt
  }

  /** The total order sorts by time, too. */
  lemma SortedIsByTime(sessions: Sessions, ids: set<nat>)
    requires ids <= sessions.Keys
    ensures ListsByTime(sessions, ids, Sorted(sessions, ids))
  {
  }

  lemma DistinctTimesSort(sessions: Sessions, ids: set<nat>, h: seq<nat>)
    requires ids <= sessions.Keys && TimesDiffer(sessions, ids) && ListsByTime(sessions, ids, h)
    ensures Lists(sessions, ids, h)
  {
    forall i, j | 0 <= i < j < |h|
      ensures Before(sessions, h[i], h[j])
    {
      assert h[i] in h && h[j] in h;
    }
  }

  function Swapped(h: seq<nat>, a: nat, b: nat): seq<nat>
    requires a < b < |h|
  {
    h[a := h[b]][b := h[a]]
  }

  lemma SwapKeepsMembers(h: seq<nat>, a: nat, b: nat, k: nat)
    requires a < b < |h|
    ensures k in Swapped(h, a, b) <==> k in h
  {
    var g := Swapped(h, a, b);
    if k in h {
      var i :| 0 <= i < |h| && h[i] == k;
      assert g[if i == a then b else if i == b then a else i] == k;
    }
    if k in g {
      var i :| 0 <= i < |g| && g[i] == k;
      assert h[if i == a then b else if i == b then a else i] == k;
    }
  }

  /** Two sessions with the same claim time can change places. */
  lemma TiesSwap(sessions: Sessions, ids: set<nat>, h: seq<nat>, a: nat, b: nat)
    requires ids <= sessions.Keys && ListsByTime(sessions, ids, h)
    requires a < b < |h| && h[a] in ids && h[b] in ids && sessions[h[a]].claimedAt == sessions[h[b]].claimedAt
    ensures ListsByTime(sessions, ids, Swapped(h, a, b))
  {
    var g := Swapped(h, a, b);
    forall k
      ensures k in g <==> k in ids
    {
      SwapKeepsMembers(h, a, b, k);
    }
    forall i, j | 0 <= i <= j < |h|
      ensures i < j ==> g[i] != g[j]
      ensures sessions[g[i]].claimedAt >= sessions[g[j]].claimedAt
    {
      assert g[i] == h[if i == a then b else if i == b then a else i];
      assert g[j] == h[if j == a then b else if j == b then a else j];
      TimeAt(sessions, ids, h, a, b, i);
      TimeAt(sessions, ids, h, a, b, j);
    }
  }

  lemma TimeAt(sessions: Sessions, ids: set<nat>, h: seq<nat>, a: nat, b: nat, i: nat)
    requires ids <= sessions.Keys && forall k | k in h :: k in ids
    requires a < b < |h| && sessions[h[a]].claimedAt == sessions[h[b]].claimedAt && i < |h|
    ensures h[i] in ids && Swapped(h, a, b)[i] in ids
    ensures sessions[Swapped(h, a, b)[i]].claimedAt == sessions[h[i]].claimedAt
  {
    assert h[i] in h && h[a] in h && h[b] in h;
  }

  lemma TwoListings(sessions: Sessions, ids: set<nat>, j: nat, k: nat)
    requires ids <= sessions.Keys
    requires j in ids && k in ids && j != k && sessions[j].claimedAt == sessions[k].claimedAt
    ensures !OneListing(sessions, ids)
  {
    var h := Sorted(sessions, ids);
    SortedIsByTime(sessions, ids);
    hide Sorted;
    assert j in h && k in h;
    var p :| 0 <= p < |h| && h[p] == j;
    var q :| 0 <= q < |h| && h[q] == k;
    var a, b := if p < q then p else q, if p < q then q else p;
    TiesSwap(sessions, ids, h, a, b);
    assert Swapped(h, a, b)[a] != h[a];
    hide ListsByTime, Swapped;
  }

  /** The listing is unique if and only if no two of its sessions were claimed at the same
      instant. */
  lemma OneListingIff(sessions: Sessions, ids: set<nat>)
    requires ids <= sessions.Keys
    ensures OneListing(sessions, ids) <==> TimesDiffer(sessions, ids)
  {
    if TimesDiffer(sessions, ids) {
      forall g, h | ListsByTime(sessions, ids, g) && ListsByTime(sessions, ids, h)
        ensures g == h
      {
        DistinctTimesSort(sessions, ids, g);
        DistinctTimesSort(sessions, ids, h);
        ListingIsUnique(sessions, ids, g, h);
      }
    } else {
      var j, k :| j in ids && k in ids && j != k && sessions[j].claimedAt == sessions[k].claimedAt;
      TwoListings(sessions, ids, j, k);
    }
  }

  // ---- a row on two pages ----

  /** No query for the rows from `offset` on shows a row that another showed before it. */
  ghost predicate NoRepeats(sessions: Sessions, ids: set<nat>, offset: nat)
    requires ids <= sessions.Keys && offset <= |ids|
  {
    forall g, h, k | ListsByTime(sessions, ids, g) && ListsByTime(sessions, ids, h) && |g| == |h| == |ids| ::
      !(k in g[..offset] && k in h[offset..])
  }

  /** The ids claimed no earlier, or no later, than `t`. */
  function Since(sessions: Sessions, ids: set<nat>, t: Time): set<nat>
    requires ids <= sessions.Keys
  {
    set k | k in ids && sessions[k].claimedAt >= t
  }

  function Until(sessions: Sessions, ids: set<nat>, t: Time): set<nat>
    requires ids <= sessions.Keys
  {
    set k | k in ids && sessions[k].claimedAt <= t
  }

  lemma {:induction false} SubsetLength(h: seq<nat>, ids: set<nat>)
    requires forall i, j | 0 <= i < j < |h| :: h[i] != h[j]
    requires forall k | k in h :: k in ids
    ensures |h| <= |ids|
  {
    if h != [] {
      var last, front := h[|h| - 1], h[..|h| - 1];
      assert last in h;
      forall k | k in front
        ensures k in ids - {last}
      {
        var i :| 0 <= i < |front| && front[i] == k;
        assert h[i] == k;
      }
      SubsetLength(front, ids - {last});
    }
  }

  lemma {:induction false} CoveredLength(h: seq<nat>, ids: set<nat>)
    requires forall k | k in ids :: k in h
    ensures |ids| <= |h|
  {
    if h == [] {
      assert ids == {};
    } else {
      var last, front := h[|h| - 1], h[..|h| - 1];
      assert h == front + [last];
      CoveredLength(front, ids - {last});
      if last in ids {
        assert |ids| == |ids - {last}| + 1;
      } else {
        assert ids - {last} == ids;
      }
    }
  }

  /** A row that turns up after `offset` others has `offset` + 1 rows, itself among them,
      claimed no earlier than it. */
  lemma LateRow(sessions: Sessions, ids: set<nat>, h: seq<nat>, offset: nat, x: nat)
    requires ids <= sessions.Keys && ListsByTime(sessions, ids, h) && offset <= |h| && x in h[offset..]
    ensures x in ids && |Since(sessions, ids, sessions[x].claimedAt)| > offset
  {
    var q :| 0 <= q < |h[offset..]| && h[offset..][q] == x;
    var j := offset + q;
    assert h[j] == x && x in h;
    forall k | k in h[..j + 1]
      ensures k in Since(sessions, ids, sessions[x].claimedAt)
    {
      var i :| 0 <= i < |h[..j + 1]| && h[..j + 1][i] == k;
      assert h[i] == k && k in h;
    }
    SubsetLength(h[..j + 1], Since(sessions, ids, sessions[x].claimedAt));
  }

  lemma EarlyRow(sessions: Sessions, ids: set<nat>, g: seq<nat>, offset: nat, x: nat)
    requires ids <= sessions.Keys && ListsByTime(sessions, ids, g) && offset <= |g| && x in g[..offset]
    ensures x in ids && |Until(sessions, ids, sessions[x].claimedAt)| > |g| - offset
  {
    var i :| 0 <= i < |g[..offset]| && g[..offset][i] == x;
    assert g[i] == x && x in g;
    forall k | k in g[i..]
      ensures k in Until(sessions, ids, sessions[x].claimedAt)
    {
      var q :| 0 <= q < |g[i..]| && g[i..][q] == k;
      assert g[i + q] == k && k in g;
    }
    SubsetLength(g[i..], Until(sessions, ids, sessions[x].claimedAt));
  }

  /** So the row of that rank was claimed no earlier; and likewise from the other end. */
  lemma RankSince(sessions: Sessions, ids: set<nat>, h: seq<nat>, offset: nat, t: Time)
    requires ids <= sessions.Keys && ListsByTime(sessions, ids, h)
    requires offset < |h| && |Since(sessions, ids, t)| > offset
    ensures h[offset] in ids && sessions[h[offset]].claimedAt >= t
  {
    assert h[offset] in h;
    if sessions[h[offset]].claimedAt < t {
      forall k | k in Since(sessions, ids, t)
        ensures k in h[..offset]
      {
        assert k in h;
        var i :| 0 <= i < |h| && h[i] == k;
        assert i < offset;
        assert h[..offset][i] == k;
      }
      CoveredLength(h[..offset], Since(sessions, ids, t));
    }
  }

  lemma RankUntil(sessions: Sessions, ids: set<nat>, h: seq<nat>, offset: nat, t: Time)
    requires ids <= sessions.Keys && ListsByTime(sessions, ids, h)
    requires 0 < offset <= |h| && |Until(sessions, ids, t)| > |h| - offset
    ensures h[offset - 1] in ids && sessions[h[offset - 1]].claimedAt <= t
  {
    assert h[offset - 1] in h;
    if sessions[h[offset - 1]].claimedAt > t {
      forall k | k in Until(sessions, ids, t)
        ensures k in h[offset..]
      {
        assert k in h;
        var i :| 0 <= i < |h| && h[i] == k;
        assert offset <= i;
        assert h[offset..][i - offset] == k;
      }
      CoveredLength(h[offset..], Until(sessions, ids, t));
    }
  }

  /** No row is shown before the boundary and again after it if and only if the two rows next
      to the boundary were not claimed at the same instant. */
  lemma NoRepeatsIff(sessions: Sessions, ids: set<nat>, offset: nat)
    requires ids <= sessions.Keys && 0 < offset < |ids|
    ensures var h := Sorted(sessions, ids);
            && h[offset - 1] in ids && h[offset] in ids
            && (NoRepeats(sessions, ids, offset)
                <==> sessions[h[offset - 1]].claimedAt != sessions[h[offset]].claimedAt)
  {
    var h := Sorted(sessions, ids);
    SortedIsByTime(sessions, ids);
    assert h[offset - 1] in h && h[offset] in h;
    if sessions[h[offset - 1]].claimedAt == sessions[h[offset]].claimedAt {
      TiesSwap(sessions, ids, h, offset - 1, offset);
      var g := Swapped(h, offset - 1, offset);
      assert h[..offset][offset - 1] == h[offset - 1];
      assert g[offset..][0] == h[offset - 1];
      assert h[offset - 1] in h[..offset] && h[offset - 1] in g[offset..];
    } else {
      forall f, g, x | ListsByTime(sessions, ids, f) && ListsByTime(sessions, ids, g) && |f| == |g| == |ids|
        ensures !(x in f[..offset] && x in g[offset..])
      {
        if x in f[..offset] && x in g[offset..] {
          EarlyRow(sessions, ids, f, offset, x);
          LateRow(sessions, ids, g, offset, x);
          RankUntil(sessions, ids, h, offset, sessions[x].claimedAt);
          RankSince(sessions, ids, h, offset, sessions[x].claimedAt);
          assert false;
        }
      }
    }
  }
}
