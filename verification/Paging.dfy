/** The history of a stick in pages: the query of
    internal/adapters/persistence/mongodb/queries.go and the page numbers of
    internal/web/sticks/pagination.go. */
module Paging {
  import opened Core

  const MAX_HISTORY_PAGE_LINKS := 7
  const PAGE_SIZE := 20
  const MAX_HISTORY_OFFSET := 100_000
  const MAX_HISTORY_PAGE := MAX_HISTORY_OFFSET / PAGE_SIZE + 1

  const MIN_INT64 := -MAX_INT64 - 1

  /** Go's wrap-around of a sum or difference of two values of `int`. */
  function Wrap(x: int): int {
    if x > MAX_INT64 then x - 0x1_0000_0000_0000_0000
    else if x < MIN_INT64 then x + 0x1_0000_0000_0000_0000
    else x
  }

  // ---- the query ----

  type Sessions = map<nat, Session>

  predicate Completed(sessions: Sessions, stickId: string, k: nat) {
    k in sessions && sessions[k].stickId == stickId && sessions[k].releasedAt.Some?
  }

  /** Sort order: latest claim first, then highest id. */
  predicate Before(sessions: Sessions, j: nat, k: nat)
    requires j in sessions && k in sessions
  {
    sessions[j].claimedAt > sessions[k].claimedAt || (sessions[j].claimedAt == sessions[k].claimedAt && j > k)
  }

  /** `h` lists exactly the given ids, each once, in order. */
  ghost predicate Lists(sessions: Sessions, ids: set<nat>, h: seq<nat>)
    requires ids <= sessions.Keys
  {
    && (forall k :: k in h <==> k in ids)
    && (forall i, j | 0 <= i < j < |h| :: Before(sessions, h[i], h[j]))
  }

  function CompletedIds(sessions: Sessions, stickId: string): (ids: set<nat>)
    ensures ids <= sessions.Keys
  {
    set k | k in sessions && Completed(sessions, stickId, k)
  }

  lemma {:induction false} NewestExists(sessions: Sessions, ids: set<nat>) returns (newest: nat)
    requires ids <= sessions.Keys && ids != {}
    ensures newest in ids && forall k | k in ids && k != newest :: Before(sessions, newest, k)
  {
    var some :| some in ids;
    newest := some;
    var rest := ids - {some};
    if rest != {} {
      var next := NewestExists(sessions, rest);
      newest := if Before(sessions, some, next) then some else next;
    }
    forall k | k in ids && k != newest
      ensures Before(sessions, newest, k)
    {
      assert k in rest || k == some;
    }
  }

  /** The order is total, so there is one such list: every query agrees on the pages. */
  lemma {:induction false} ListingIsUnique(sessions: Sessions, ids: set<nat>, g: seq<nat>, h: seq<nat>)
    requires ids <= sessions.Keys && Lists(sessions, ids, g) && Lists(sessions, ids, h)
    ensures g == h && |h| == |ids|
  {
    hide Before, Lists;
    if ids == {} {
      NothingListed(sessions, g);
      NothingListed(sessions, h);
    } else {
      var newest := NewestExists(sessions, ids);
      FirstIsNewest(sessions, ids, g, newest);
      FirstIsNewest(sessions, ids, h, newest);
      ListingIsUnique(sessions, ids - {newest}, g[1..], h[1..]);
      assert g == [newest] + g[1..] && h == [newest] + h[1..];
    }
  }

  /** The completed sessions of a stick in sort order. */
  ghost function History(sessions: Sessions, stickId: string): (h: seq<nat>)
    ensures Lists(sessions, CompletedIds(sessions, stickId), h) && forall k | k in h :: k in sessions
  {
    Sorted(sessions, CompletedIds(sessions, stickId))
  }

  ghost function Sorted(sessions: Sessions, ids: set<nat>): (h: seq<nat>)
    requires ids <= sessions.Keys
    ensures Lists(sessions, ids, h) && |h| == |ids|
  {
    if ids == {} then [] else
    var newest := NewestOf(sessions, ids);
    [newest] + Sorted(sessions, ids - {newest})
  }

  ghost function NewestOf(sessions: Sessions, ids: set<nat>): (newest: nat)
    requires ids <= sessions.Keys && ids != {}
    ensures newest in ids && forall k | k in ids && k != newest :: Before(sessions, newest, k)
  {
    SomeNewest(sessions, ids);
    var newest :| newest in ids && forall k | k in ids && k != newest :: Before(sessions, newest, k);
    newest
  }

  lemma SomeNewest(sessions: Sessions, ids: set<nat>)
    requires ids <= sessions.Keys && ids != {}
    ensures exists newest :: newest in ids && forall k | k in ids && k != newest :: Before(sessions, newest, k)
  {
    var newest := NewestExists(sessions, ids);
  }

  lemma NothingListed(sessions: Sessions, h: seq<nat>)
    requires Lists(sessions, {}, h)
    ensures h == []
  {
    if h != [] {
      FirstIsThere(h);
    }
  }

  lemma FirstIsThere(h: seq<nat>)
    requires h != []
    ensures h[0] in h
  {
  }

  lemma NotBoth(sessions: Sessions, j: nat, k: nat)
    requires j in sessions && k in sessions && Before(sessions, j, k)
    ensures !Before(sessions, k, j) && j != k
  {
  }

  lemma FirstIsNewest(sessions: Sessions, ids: set<nat>, h: seq<nat>, newest: nat)
    requires ids <= sessions.Keys && Lists(sessions, ids, h)
    requires newest in ids && forall k | k in ids && k != newest :: Before(sessions, newest, k)
    ensures h != [] && h[0] == newest && Lists(sessions, ids - {newest}, h[1..])
  {
    hide Before;
    assert newest in h;
    var i :| 0 <= i < |h| && h[i] == newest;
    assert h[0] in h;
    if i > 0 {
      NotBoth(sessions, h[0], newest);
    }
    forall k
      ensures k in h[1..] <==> k in ids - {newest}
    {
      if k in h[1..] {
        var j :| 0 <= j < |h[1..]| && h[1..][j] == k;
        assert h[j + 1] == k;
        NotBoth(sessions, h[0], k);
      }
      if k in ids && k != newest {
        assert k in h;
        var j :| 0 <= j < |h| && h[j] == k;
        assert h[1..][j - 1] == k;
      }
    }
  }

  /** Rows from `offset`, at most `limit` of them. */
  function Slice(h: seq<nat>, offset: nat, limit: nat): (r: seq<nat>)
    ensures forall k | k in r :: k in h
  {
    if offset >= |h| then [] else h[offset..Min(offset + limit, |h|)]
  }

  function Rows(sessions: Sessions, h: seq<nat>): seq<Session>
    requires forall k | k in h :: k in sessions
  {
    seq(|h|, i requires 0 <= i < |h| => sessions[h[i]])
  }

  /** What the engine does for the query: filter and sort. */
  method Find(sessions: Sessions, stickId: string) returns (h: seq<nat>)
    ensures h == History(sessions, stickId)
  {
    h := [];
    var left := CompletedIds(sessions, stickId);
    while left != {}
      invariant left <= CompletedIds(sessions, stickId)
      invariant Lists(sessions, CompletedIds(sessions, stickId) - left, h)
      invariant forall j, k | j in h && k in left :: Before(sessions, j, k)
      decreases left
    {
      ghost var newest := NewestExists(sessions, left);
      var k :| k in left && forall j | j in left && j != k :: Before(sessions, k, j);
      h, left := h + [k], left - {k};
    }
    ListingIsUnique(sessions, CompletedIds(sessions, stickId), h, History(sessions, stickId));
  }

  /** One more row of the cursor makes one more session of the page. */
  lemma PageGrows(sessions: Sessions, h: seq<nat>, offset: nat, n: nat)
    requires forall k | k in h :: k in sessions
    requires offset + n < |h|
    ensures Rows(sessions, Slice(h, offset, n + 1)) == Rows(sessions, Slice(h, offset, n)) + [sessions[h[offset + n]]]
  {
    assert Slice(h, offset, n + 1) == Slice(h, offset, n) + [h[offset + n]];
  }

  lemma PageEnds(sessions: Sessions, h: seq<nat>, offset: nat, n: nat, limit: nat)
    requires forall k | k in h :: k in sessions
    requires n <= limit && (n == limit || offset + n >= |h|)
    ensures Rows(sessions, Slice(h, offset, n)) == Rows(sessions, Slice(h, offset, limit))
  {
    assert Slice(h, offset, n) == Slice(h, offset, limit);
  }

  lemma NoRows(sessions: Sessions, h: seq<nat>, offset: nat)
    requires forall k | k in h :: k in sessions
    ensures Rows(sessions, Slice(h, offset, 0)) == []
  {
  }

  /** The completed sessions of the same stick that come before session `k`: those claimed
      later, or at the same time with a higher id. */
  function Ahead(sessions: Sessions, k: nat): set<nat>
    requires k in sessions
  {
    set j | j in sessions && sessions[j].stickId == sessions[k].stickId && sessions[j].releasedAt.Some?
            && (sessions[j].claimedAt > sessions[k].claimedAt
                || (sessions[j].claimedAt == sessions[k].claimedAt && j > k))
  }

  lemma {:induction false} DistinctSize(h: seq<nat>, members: set<nat>)
    requires forall i, j | 0 <= i < j < |h| :: h[i] != h[j]
    requires forall k :: k in members <==> k in h
    ensures |members| == |h|
  {
    if h == [] {
      assert members == {};
    } else {
      var front, last := h[..|h| - 1], h[|h| - 1];
      assert h == front + [last] && last in members && last !in front;
      DistinctSize(front, members - {last});
    }
  }

  /** The place of a session in the history is the number of those before it. */
  lemma PlaceIsRank(sessions: Sessions, stickId: string, h: seq<nat>, i: nat)
    requires Lists(sessions, CompletedIds(sessions, stickId), h) && i < |h|
    ensures h[i] in sessions && |Ahead(sessions, h[i])| == i
  {
    assert h[i] in h;
    forall j
      ensures j in h[..i] <==> j in Ahead(sessions, h[i])
    {
      if j in h[..i] {
        var p :| 0 <= p < i && h[..i][p] == j;
        assert h[p] in h && Before(sessions, h[p], h[i]);
      }
      if j in Ahead(sessions, h[i]) {
        assert j in h;
        var p :| 0 <= p < |h| && h[p] == j;
        assert p < i;
        assert h[..i][p] == j;
      }
    }
    forall a, b | 0 <= a < b < i
      ensures h[..i][a] != h[..i][b]
    {
      assert h[a] in h && h[b] in h;
      NotBoth(sessions, h[a], h[b]);
    }
    DistinctSize(h[..i], Ahead(sessions, h[i]));
  }
  lemma CompletedIdsAre(sessions: Sessions, stickId: string)
    ensures CompletedIds(sessions, stickId)
         == set k | k in sessions && sessions[k].stickId == stickId && sessions[k].releasedAt.Some?
  {
  }

  /** What a slice of the listing holds. */
  lemma SliceHolds(sessions: Sessions, stickId: string, h: seq<nat>, offset: nat, limit: nat)
    requires Lists(sessions, CompletedIds(sessions, stickId), h)
    ensures var ids := Slice(h, offset, limit);
            && (forall i | 0 <= i < |ids| ::
                  && ids[i] in sessions
                  && sessions[ids[i]].stickId == stickId && sessions[ids[i]].releasedAt.Some?)
            && (forall i, j | 0 <= i < j < |ids| :: Before(sessions, ids[i], ids[j]))
            && (forall k | k in sessions && sessions[k].stickId == stickId && sessions[k].releasedAt.Some? ::
                  k in ids <==> offset <= |Ahead(sessions, k)| < offset + limit)
  {
    var ids := Slice(h, offset, limit);
    assert forall i | 0 <= i < |ids| :: ids[i] == h[offset + i] && ids[i] in h;
    hide Before;
    assert forall i, j | 0 <= i < j < |ids| :: Before(sessions, ids[i], ids[j]);
    forall k | k in sessions && sessions[k].stickId == stickId && sessions[k].releasedAt.Some?
      ensures k in ids <==> offset <= |Ahead(sessions, k)| < offset + limit
    {
      assert k in h;
      var p :| 0 <= p < |h| && h[p] == k;
      PlaceIsRank(sessions, stickId, h, p);
      if k in ids {
        var i :| 0 <= i < |ids| && ids[i] == k;
        PlaceIsRank(sessions, stickId, h, offset + i);
      }
      if offset <= p < offset + limit {
        assert ids[p - offset] == k;
      }
    }
  }

  /** One page of completed sessions and how many there are in all.  Every session on it, with
      its id in `ids`, is a completed one of this stick; they come latest claim first and at
      equal times highest id first; and a completed session is on the page exactly when the
      number of those before it lies in the window asked for. */
  method GetHistory(sessions: Sessions, stickId: string, limit: int, offset: int)
    returns (r: Option<(seq<Session>, nat)>, ghost ids: seq<nat>)
    ensures r.Some? <==> limit >= 0 && offset >= 0
    ensures r.Some? ==>
              var (page, total) := r.value;
              && |ids| == |page|
              && (forall i | 0 <= i < |page| ::
                    && ids[i] in sessions && page[i] == sessions[ids[i]]
                    && page[i].stickId == stickId && page[i].releasedAt.Some?)
              && (forall i, j | 0 <= i < j < |page| ::
                    || page[i].claimedAt > page[j].claimedAt
                    || (page[i].claimedAt == page[j].claimedAt && ids[i] > ids[j]))
              && (forall k | k in sessions && sessions[k].stickId == stickId && sessions[k].releasedAt.Some? ::
                    k in ids <==> offset <= |Ahead(sessions, k)| < offset + limit)
              && total == |set k | k in sessions && sessions[k].stickId == stickId && sessions[k].releasedAt.Some?|
    ensures r == if limit < 0 || offset < 0 then None
                 else Some((Rows(sessions, Slice(History(sessions, stickId), offset, limit)),
                            |CompletedIds(sessions, stickId)|))
  {
    CompletedIdsAre(sessions, stickId);
    hide Lists, CompletedIds, History, Slice, Ahead;
    ids := [];
    if limit < 0 || offset < 0 {
      return None, ids;
    }
    var cursor := Find(sessions, stickId);
    ListingIsUnique(sessions, CompletedIds(sessions, stickId), cursor, cursor);
    SliceHolds(sessions, stickId, cursor, offset, limit);
    ids := Slice(cursor, offset, limit);
    var page: seq<Session> := [];
    NoRows(sessions, cursor, offset);
    while |page| < limit && offset + |page| < |cursor|
      invariant |page| <= limit
      invariant page == Rows(sessions, Slice(cursor, offset, |page|))
    {
      PageGrows(sessions, cursor, offset, |page|);
      page := page + [sessions[cursor[offset + |page|]]];
    }
    PageEnds(sessions, cursor, offset, |page|, limit);
    r := Some((page, |cursor|));
  }

  // ---- page numbers ----

  predicate IsDigit(ch: char) {
    '0' <= ch <= '9'
  }

  predicate AllDigits(s: string) {
    forall i | 0 <= i < |s| :: IsDigit(s[i])
  }

  function DigitsValue(s: string): nat
    requires AllDigits(s)
  {
    if s == [] then 0 else 10 * DigitsValue(s[..|s| - 1]) + (s[|s| - 1] as int - '0' as int)
  }

  /** strconv.Atoi: an optional sign and digits, within 64 bits. */
  function Atoi(s: string): Option<int> {
    var signed := s != [] && (s[0] == '+' || s[0] == '-');
    var digits := if signed then s[1..] else s;
    if digits == [] || !AllDigits(digits) then None else
    var magnitude: int := DigitsValue(digits);
    var value := if signed && s[0] == '-' then -magnitude else magnitude;
    if MIN_INT64 <= value <= MAX_INT64 then Some(value) else None
  }

  function Decimal(n: nat): (s: string)
    ensures s != [] && AllDigits(s)
  {
    (if n < 10 then [] else Decimal(n / 10)) + [('0' as int + n % 10) as char]
  }

  function ParseHistoryPage(raw: string): int {
    var page := Atoi(raw);
    if page.None? || page.value < 1 then 1 else
    if page.value > MAX_HISTORY_PAGE then MAX_HISTORY_PAGE else page.value
  }

  lemma {:induction false} DecimalRoundTrip(n: nat)
    ensures DigitsValue(Decimal(n)) == n
  {
    var s := Decimal(n);
    if n >= 10 {
      DecimalRoundTrip(n / 10);
      assert s[..|s| - 1] == Decimal(n / 10);
    }
  }

  lemma AtoiDigits(s: string)
    requires s != [] && AllDigits(s)
    ensures Atoi(s) == if DigitsValue(s) <= MAX_INT64 then Some(DigitsValue(s)) else None
  {
    hide DigitsValue;
    assert IsDigit(s[0]);
  }

  /** Every page number up to the limit comes back from its link, a larger one is clamped as
      long as it fits 64 bits, and what is no number, or none that fits, gives the first page. */
  lemma ParseClamps(n: nat, raw: string)
    ensures ParseHistoryPage(Decimal(n)) == if n > MAX_INT64 then 1 else Max(1, Min(n, MAX_HISTORY_PAGE))
    ensures 1 <= ParseHistoryPage(raw) <= 5001
    ensures var digits := if raw != [] && raw[0] in "+-" then raw[1..] else raw;
            digits == [] || (exists i :: 0 <= i < |digits| && !('0' <= digits[i] <= '9')) ==> ParseHistoryPage(raw) == 1
    ensures raw != [] && raw[0] == '-' ==> ParseHistoryPage(raw) == 1
  {
    DecimalRoundTrip(n);
    AtoiDigits(Decimal(n));
    hide Decimal, DigitsValue;
  }

  /** Digits count from the right in tens. */
  lemma {:induction false} ParseReads(tens: char, ones: char)
    requires IsDigit(tens) && IsDigit(ones)
    ensures ParseHistoryPage([tens, ones]) == Max(1, 10 * (tens as int - '0' as int) + (ones as int - '0' as int))
  {
    assert [tens, ones][..1] == [tens] && [tens][..0] == [];
    assert DigitsValue([tens]) == tens as int - '0' as int;
    AtoiDigits([tens, ones]);
    hide Atoi;
  }

  // ---- pages ----

  function TotalPages(total: nat): nat {
    Max(1, (total + PAGE_SIZE - 1) / PAGE_SIZE)
  }

  /** What the handler shows as page `p`. */
  function Page(h: seq<nat>, p: nat): seq<nat>
    requires p >= 1
  {
    Slice(h, (p - 1) * PAGE_SIZE, PAGE_SIZE)
  }

  /** Pages 1 to `p`, one after the other. */
  function Pages(h: seq<nat>, p: nat): seq<nat> {
    if p == 0 then [] else Pages(h, p - 1) + Page(h, p)
  }

  lemma {:induction false} PagesSoFar(h: seq<nat>, p: nat)
    ensures Pages(h, p) == h[..Min(p * PAGE_SIZE, |h|)]
  {
    if p > 0 {
      PagesSoFar(h, p - 1);
    }
  }

  /** The pages partition the history, in order, and none but the last is short. */
  lemma PagesPartition(h: seq<nat>)
    ensures Pages(h, TotalPages(|h|)) == h
    ensures forall p: nat | 1 <= p < TotalPages(|h|) :: |Page(h, p)| == PAGE_SIZE
    ensures h != [] ==> 1 <= |Page(h, TotalPages(|h|))| <= PAGE_SIZE
    ensures forall p: nat | p > TotalPages(|h|) :: Page(h, p) == []
  {
    PagesSoFar(h, TotalPages(|h|));
  }

  /** Row `i` is on the page that some query string asks for. */
  ghost predicate Shown(i: nat) {
    exists raw :: (ParseHistoryPage(raw) - 1) * PAGE_SIZE <= i < ParseHistoryPage(raw) * PAGE_SIZE
  }

  /** The whole history can be read if and only if it has at most 5001 pages. */
  lemma AllShownIff(total: nat)
    ensures (forall i: nat | i < total :: Shown(i)) <==> TotalPages(total) <= MAX_HISTORY_PAGE
  {
    if TotalPages(total) <= MAX_HISTORY_PAGE {
      forall i: nat | i < total
        ensures Shown(i)
      {
        ParseClamps(i / PAGE_SIZE + 1, "");
        assert ParseHistoryPage(Decimal(i / PAGE_SIZE + 1)) == i / PAGE_SIZE + 1;
      }
    } else {
      var i := MAX_HISTORY_PAGE * PAGE_SIZE;
      if Shown(i) {
        var raw :| (ParseHistoryPage(raw) - 1) * PAGE_SIZE <= i < ParseHistoryPage(raw) * PAGE_SIZE;
        ParseClamps(0, raw);
        assert false;
      }
      assert i < total;
    }
  }

  // ---- links ----

  /** Consecutive page numbers inside 1 to `totalPages`, as many as fit the window. */
  ghost predicate Window(links: seq<int>, totalPages: int) {
    && totalPages >= 1
    && |links| == Min(MAX_HISTORY_PAGE_LINKS, totalPages)
    && (forall k | 0 <= k < |links| :: links[k] == links[0] + k)
    && 1 <= links[0] && links[0] + |links| - 1 <= totalPages
  }

  /** For any two 64-bit numbers the links form a window of existing pages, also where the
      sum below overflows.  They show the page asked for, clamped to the existing ones, exactly
      when the subtraction does not wrap around or all pages fit the window; no page of 1 or
      more makes it wrap. */
  method HistoryPageLinks(page: int, totalPages: int) returns (r: seq<int>)
    requires MIN_INT64 <= page <= MAX_INT64 && MIN_INT64 <= totalPages <= MAX_INT64
    ensures totalPages < 1 ==> r == []
    ensures totalPages >= 1 ==> r != [] && Window(r, totalPages)
    ensures totalPages >= 1 ==>
              (Max(1, Min(page, totalPages)) in r
               <==> (page - Min(MAX_HISTORY_PAGE_LINKS, totalPages) / 2 >= MIN_INT64
                     || totalPages <= MAX_HISTORY_PAGE_LINKS))
  {
    if totalPages < 1 {
      return [];
    }
    var current := page;
    if current > totalPages {
      current := totalPages;
    }
    var window := MAX_HISTORY_PAGE_LINKS;
    if totalPages < window {
      window := totalPages;
    }
    var start := Wrap(current - window / 2);
    if start < 1 {
      start := 1;
    }
    var end := Wrap(start + window - 1);
    if end < start || end > totalPages {
      end := totalPages;
      start := Wrap(end - window + 1);
      if start < 1 {
        start := 1;
      }
    }
    var links := new int[end - start + 1];
    var i := 0;
    while i < links.Length
      invariant i <= links.Length && forall k | 0 <= k < i :: links[k] == start + k
    {
      links[i] := start + i;
      i := i + 1;
    }
    r := links[..];
    ghost var shown := Max(1, Min(page, totalPages));
    if start <= shown <= end {
      assert r[shown - start] == shown;
    }
  }
}
