/** The intelligence history of a seat. */
module IntelHistory {
  // A numbered list that keeps its newest entries, and is read page by page behind a cursor, possibly while it grows.
  import opened Options

  const HISTORY_LIMIT: nat := 256
  const MAX_PAGE_SIZE: int := 200

  /** What a caller puts on record; category is empty for a sensor contact. */
  datatype Entry = Entry(
    intelId: string, targetId: string, note: string, attributes: seq<string>, category: string,
    freshness: string, sourceSeat: string, occurredAt: real)

  /** An entry under its number n, which its history id spells as "ih_n". */
  datatype Numbered = Numbered(sequence: nat, entry: Entry)

  datatype SeatLedger = SeatLedger(history: seq<Numbered>, nextHistory: nat)

  /** A query; cursor is what its text reads as, if that is a number. */
  datatype Query = Query(
    target: string, kind: string, freshness: string, sourceSeat: string, from: Option<real>, to: Option<real>,
    cursor: Option<int>, pageSize: int)

  datatype Page = Page(entries: seq<Numbered>, hasMore: bool, next: nat)

  /* ------------------------------------------------------------------ matching */

  function Lower(c: char): char {
    if 'A' <= c <= 'Z' then c - 'A' + 'a' else c
  }

  predicate SameLetters(a: string, b: string) {
    |a| == |b| && forall i :: 0 <= i < |a| ==> Lower(a[i]) == Lower(b[i])
  }

  predicate ContainsAt(text: string, part: string, i: nat) {
    i + |part| <= |text| && SameLetters(text[i..i + |part|], part)
  }

  predicate Contains(text: string, part: string) { exists i :: 0 <= i <= |text| && ContainsAt(text, part, i) }

  predicate Mentions(e: Entry, target: string) {
    || target == "" || Contains(e.intelId, target) || Contains(e.targetId, target) || Contains(e.note, target)
    || exists i :: 0 <= i < |e.attributes| && Contains(e.attributes[i], target)
  }

  function Kind(e: Entry): string { if e.category == "" then "sensorContact" else "manualReport" }

  predicate Matches(e: Entry, q: Query) {
    && Mentions(e, q.target)
    && (q.kind != "" ==> q.kind == Kind(e))
    && (q.freshness != "" ==> q.freshness == e.freshness)
    && (q.sourceSeat != "" ==> q.sourceSeat == e.sourceSeat)
    && (q.from.Some? ==> q.from.value <= e.occurredAt)
    && (q.to.Some? ==> e.occurredAt <= q.to.value)
  }

  /** Where a query starts; a missing, unreadable or negative cursor means the beginning. */
  function CursorOf(q: Query): nat { if q.cursor.Some? && q.cursor.value >= 0 then q.cursor.value else 0 }

  type PageSize = n: int | 1 <= n <= MAX_PAGE_SIZE witness 1

  function SizeOf(q: Query): PageSize {
    if q.pageSize < 1 then 1 else if q.pageSize > MAX_PAGE_SIZE then MAX_PAGE_SIZE else q.pageSize
  }

  /** What a query looks for, and how much of it at a time. */
  datatype Search = Search(wanted: Entry -> bool, size: PageSize)

  function SearchOf(q: Query): Search { Search(e => Matches(e, q), SizeOf(q)) }

  /* ------------------------------------------------------------------ what a seat keeps */

  function Newest<T>(s: seq<T>): seq<T> { if |s| > HISTORY_LIMIT then s[|s| - HISTORY_LIMIT..] else s }

  function Recorded(l: SeatLedger, e: Entry): SeatLedger {
    SeatLedger(Newest(l.history + [Numbered(l.nextHistory, e)]), l.nextHistory + 1)
  }

  /** How many of a seat's first n entries are no longer kept. */
  function Dropped(n: nat): nat { if n > HISTORY_LIMIT then n - HISTORY_LIMIT else 0 }

  /** The last entries of everything ever recorded, under their numbers. */
  function Held(log: seq<Entry>): seq<Numbered> {
    seq(|log| - Dropped(|log|), i requires 0 <= i < |log| - Dropped(|log|) =>
      Numbered(Dropped(|log|) + i + 1, log[Dropped(|log|) + i]))
  }

  predicate Keeps(l: SeatLedger, log: seq<Entry>) { l.history == Held(log) && l.nextHistory == |log| + 1 }

  /** Recording once more keeps a seat's history to exactly the last of everything recorded. */
  lemma RecordingKeepsTheNewest(l: SeatLedger, log: seq<Entry>, e: Entry)
    requires Keeps(l, log)
    ensures Keeps(Recorded(l, e), log + [e])
  {
    var all := l.history + [Numbered(l.nextHistory, e)];
    var held := Held(log + [e]);
    assert |Newest(all)| == |held|;
    forall i | 0 <= i < |held| ensures Newest(all)[i] == held[i] {}
  }

  function AllRecorded(l: SeatLedger, log: seq<Entry>): SeatLedger {
    if log == [] then l else Recorded(AllRecorded(l, log[..|log| - 1]), log[|log| - 1])
  }

  /** Whatever is recorded for a seat, in whatever number: its history is the last 256 entries, or all of them, with
      consecutive numbers that end at the number of entries. */
  lemma {:induction false} HistoryIsTheNewest(log: seq<Entry>)
    ensures Keeps(AllRecorded(SeatLedger([], 1), log), log)
    ensures var h := AllRecorded(SeatLedger([], 1), log).history;
            && |h| == (if |log| < HISTORY_LIMIT then |log| else HISTORY_LIMIT)
            && forall i :: 0 <= i < |h| ==> h[i].sequence == |log| - |h| + i + 1 && h[i].entry == log[h[i].sequence - 1]
  {
    if log != [] {
      var last := log[|log| - 1];
      HistoryIsTheNewest(log[..|log| - 1]);
      RecordingKeepsTheNewest(AllRecorded(SeatLedger([], 1), log[..|log| - 1]), log[..|log| - 1], last);
      assert log[..|log| - 1] + [last] == log;
    }
  }

  /* ------------------------------------------------------------------ pages */

  /** The entries after a cursor that match, in order. */
  function Eligible(history: seq<Numbered>, f: Search, cursor: nat): seq<Numbered> {
    if history == [] then []
    else if history[0].sequence > cursor && f.wanted(history[0].entry) then
      [history[0]] + Eligible(history[1..], f, cursor)
    else Eligible(history[1..], f, cursor)
  }

  function PageAt(history: seq<Numbered>, f: Search, cursor: nat): Page {
    var all := Eligible(history, f, cursor);
    if |all| <= f.size then Page(all, false, 0)
    else Page(all[..f.size], true, all[f.size - 1].sequence)
  }

  predicate Before(a: Numbered, b: Numbered) { a.sequence < b.sequence }

  ghost predicate Sorted(history: seq<Numbered>) {
    forall i, j :: 0 <= i < j < |history| ==> Before(history[i], history[j])
  }

  predicate Picked(x: Numbered, history: seq<Numbered>, f: Search, cursor: nat) {
    x in history && x.sequence > cursor && f.wanted(x.entry)
  }

  lemma {:induction false} EligibleAreThePicked(history: seq<Numbered>, f: Search, cursor: nat, x: Numbered)
    ensures x in Eligible(history, f, cursor) <==> Picked(x, history, f, cursor)
  {
    if history != [] {
      EligibleAreThePicked(history[1..], f, cursor, x);
      assert history == [history[0]] + history[1..];
    }
  }

  lemma {:induction false} EligibleAreSorted(history: seq<Numbered>, f: Search, cursor: nat)
    requires Sorted(history)
    ensures Sorted(Eligible(history, f, cursor))
  {
    if history != [] {
      var rest := Eligible(history[1..], f, cursor);
      EligibleAreSorted(history[1..], f, cursor);
      forall i | 0 <= i < |rest| ensures Before(history[0], rest[i]) {
        EligibleAreThePicked(history[1..], f, cursor, rest[i]);
      }
    }
  }

  lemma {:induction false} LowCursorsAgree(history: seq<Numbered>, f: Search, a: nat, b: nat)
    requires forall i :: 0 <= i < |history| ==> history[i].sequence > a && history[i].sequence > b
    ensures Eligible(history, f, a) == Eligible(history, f, b)
  {
    if history != [] { LowCursorsAgree(history[1..], f, a, b); }
  }

  /** A cursor at the k-th eligible entry leaves exactly the entries after it. */
  lemma {:induction false} CursorSkips(history: seq<Numbered>, f: Search, cursor: nat, k: nat)
    requires Sorted(history) && 1 <= k <= |Eligible(history, f, cursor)|
    ensures var all := Eligible(history, f, cursor); Eligible(history, f, all[k - 1].sequence) == all[k..]
    decreases |history|
  {
    var all, head, rest := Eligible(history, f, cursor), history[0], history[1..];
    var others := Eligible(rest, f, cursor);
    EligibleAreThePicked(history, f, cursor, all[k - 1]);
    if head.sequence > cursor && f.wanted(head.entry) {
      assert forall i :: 0 <= i < |rest| ==> Before(head, rest[i]);
      assert all[k..] == others[k - 1..];
      if k == 1 {
        LowCursorsAgree(rest, f, head.sequence, cursor);
      } else {
        CursorSkips(rest, f, cursor, k - 1);
        EligibleAreThePicked(rest, f, cursor, others[k - 2]);
        assert Before(head, others[k - 2]);
      }
    } else {
      CursorSkips(rest, f, cursor, k);
    }
  }

  /** All pages of one query, following the cursor of each page to the next. */
  ghost function AllPages(history: seq<Numbered>, f: Search, cursor: nat): (pages: seq<Page>)
    requires Sorted(history)
    ensures |pages| >= 1
    decreases |Eligible(history, f, cursor)|
  {
    var page := PageAt(history, f, cursor);
    if !page.hasMore then [page]
    else
      CursorSkips(history, f, cursor, f.size);
      [page] + AllPages(history, f, page.next)
  }

  function Entries(pages: seq<Page>): seq<Numbered> {
    if pages == [] then [] else pages[0].entries + Entries(pages[1..])
  }

  predicate FullButTheLast(pages: seq<Page>, size: nat) {
    forall k :: 0 <= k < |pages| ==>
      if k < |pages| - 1 then pages[k].hasMore && |pages[k].entries| == size
      else !pages[k].hasMore && |pages[k].entries| <= size
  }

  /** Following the cursor to the end yields every matching entry once, in order. */
  lemma {:induction false} PagingIsComplete(history: seq<Numbered>, f: Search, cursor: nat)
    requires Sorted(history)
    ensures Entries(AllPages(history, f, cursor)) == Eligible(history, f, cursor)
    ensures Sorted(Entries(AllPages(history, f, cursor)))
    decreases |Eligible(history, f, cursor)|
  {
    var page, all := PageAt(history, f, cursor), Eligible(history, f, cursor);
    EligibleAreSorted(history, f, cursor);
    if page.hasMore {
      CursorSkips(history, f, cursor, f.size);
      PagingIsComplete(history, f, page.next);
      var later := AllPages(history, f, page.next);
      assert ([page] + later)[1..] == later;
      assert all[..f.size] + all[f.size..] == all;
    } else {
      assert Entries([page]) == page.entries + Entries([]);
    }
  }

  /** There are only as many pages as needed: each but the last is full. */
  lemma {:induction false} PagesAreFull(history: seq<Numbered>, f: Search, cursor: nat)
    requires Sorted(history)
    ensures FullButTheLast(AllPages(history, f, cursor), f.size)
    decreases |Eligible(history, f, cursor)|
  {
    var page := PageAt(history, f, cursor);
    if page.hasMore {
      CursorSkips(history, f, cursor, f.size);
      PagesAreFull(history, f, page.next);
      FullerByOne(page, AllPages(history, f, page.next), f.size);
    }
  }

  lemma FullerByOne(page: Page, later: seq<Page>, size: nat)
    requires later != [] && FullButTheLast(later, size) && page.hasMore && |page.entries| == size
    ensures FullButTheLast([page] + later, size)
  {
    var pages := [page] + later;
    forall k | 0 < k < |pages|
      ensures if k < |pages| - 1 then pages[k].hasMore && |pages[k].entries| == size
              else !pages[k].hasMore && |pages[k].entries| <= size
    {
      assert pages[k] == later[k - 1];
    }
  }

  /* ------------------------------------------------------------------ reading while the history grows */

  lemma HeldIsSorted(log: seq<Entry>)
    ensures Sorted(Held(log))
  {
  }

  predicate InLog(x: Numbered, log: seq<Entry>) { 1 <= x.sequence <= |log| && x.entry == log[x.sequence - 1] }

  /** Pages read one after another: how much had been recorded at each, its cursor, and the page. */
  datatype Session = Session(sizes: seq<nat>, cursors: seq<nat>, pages: seq<Page>)

  /** Page k shows what the query finds in the first r.sizes[k] entries, and the next page starts where it ended. */
  ghost predicate PageOf(log: seq<Entry>, r: Session, f: Search, k: nat)
    requires k < |r.pages| == |r.sizes| == |r.cursors|
  {
    && r.sizes[k] <= |log|
    && r.pages[k] == PageAt(Held(log[..r.sizes[k]]), f, r.cursors[k])
    && (k > 0 ==> r.sizes[k - 1] <= r.sizes[k] && r.pages[k - 1].hasMore && r.cursors[k] == r.pages[k - 1].next)
  }

  /** A reading of pages one after another, while the seat's log grows to the given one. */
  ghost predicate Reading(log: seq<Entry>, r: Session, f: Search) {
    && 0 < |r.pages| == |r.sizes| == |r.cursors|
    && forall k :: 0 <= k < |r.pages| ==> PageOf(log, r, f, k)
  }

  /** What one page holds: matching entries of the log after its cursor, in order and up to the next cursor. */
  lemma PageHolds(log: seq<Entry>, f: Search, cursor: nat, page: Page, x: Numbered)
    requires page == PageAt(Held(log), f, cursor) && x in page.entries
    ensures InLog(x, log) && f.wanted(x.entry) && cursor < x.sequence
    ensures page.hasMore ==> x.sequence <= page.next
  {
    var all := Eligible(Held(log), f, cursor);
    HeldIsSorted(log);
    EligibleAreSorted(Held(log), f, cursor);
    EligibleAreThePicked(Held(log), f, cursor, x);
    if page.hasMore {
      var i :| 0 <= i < |page.entries| && page.entries[i] == x;
      assert i < f.size - 1 ==> Before(all[i], all[f.size - 1]);
    }
  }

  lemma CursorAdvances(log: seq<Entry>, f: Search, cursor: nat, page: Page)
    requires page == PageAt(Held(log), f, cursor) && page.hasMore
    ensures cursor < page.next <= |log|
  {
    PageHolds(log, f, cursor, page, page.entries[|page.entries| - 1]);
  }

  lemma {:induction false} CursorsGrow(log: seq<Entry>, r: Session, f: Search, i: nat, j: nat)
    requires Reading(log, r, f) && i <= j < |r.pages|
    ensures r.cursors[i] + (j - i) <= r.cursors[j] && r.sizes[i] <= r.sizes[j]
    ensures j > 0 ==> r.cursors[j] <= |log|
    ensures i < j ==> r.pages[i].hasMore && r.pages[i].next <= r.cursors[j]
    decreases j - i
  {
    assert PageOf(log, r, f, j);
    if j > 0 {
      assert PageOf(log, r, f, j - 1);
      CursorAdvances(log[..r.sizes[j - 1]], f, r.cursors[j - 1], r.pages[j - 1]);
      if i < j { CursorsGrow(log, r, f, i, j - 1); }
    }
  }

  /** However the history grows meanwhile, the entries read come in strictly increasing order: none is repeated, within
      a page or across pages. */
  lemma NothingIsReadTwice(log: seq<Entry>, r: Session, f: Search, i: nat, j: nat, x: Numbered, y: Numbered)
    requires Reading(log, r, f) && i < j < |r.pages|
    requires x in r.pages[i].entries && y in r.pages[j].entries
    ensures Before(x, y) && Sorted(r.pages[i].entries) && Sorted(r.pages[j].entries)
    ensures InLog(x, log) && f.wanted(x.entry)
  {
    assert PageOf(log, r, f, i) && PageOf(log, r, f, j);
    PageHolds(log[..r.sizes[i]], f, r.cursors[i], r.pages[i], x);
    PageHolds(log[..r.sizes[j]], f, r.cursors[j], r.pages[j], y);
    CursorsGrow(log, r, f, i, j);
    HeldIsSorted(log[..r.sizes[i]]);
    HeldIsSorted(log[..r.sizes[j]]);
    EligibleAreSorted(Held(log[..r.sizes[i]]), f, r.cursors[i]);
    EligibleAreSorted(Held(log[..r.sizes[j]]), f, r.cursors[j]);
  }

  /** A reading comes to an end: there are no more pages than entries after the first cursor, and one. */
  lemma ReadingIsBounded(log: seq<Entry>, r: Session, f: Search)
    requires Reading(log, r, f)
    ensures |r.pages| > 1 ==> r.cursors[0] + |r.pages| - 1 <= |log|
  {
    CursorsGrow(log, r, f, 0, |r.pages| - 1);
  }

  lemma HeldHas(log: seq<Entry>, s: nat)
    requires Dropped(|log|) < s <= |log|
    ensures Numbered(s, log[s - 1]) in Held(log)
  {
    assert Held(log)[s - 1 - Dropped(|log|)] == Numbered(s, log[s - 1]);
  }

  lemma PageCatches(log: seq<Entry>, f: Search, cursor: nat, page: Page, s: nat)
    requires page == PageAt(Held(log), f, cursor)
    requires Dropped(|log|) < s <= |log| && cursor < s && f.wanted(log[s - 1])
    ensures Numbered(s, log[s - 1]) in page.entries || (page.hasMore && page.next < s)
  {
    var all, x := Eligible(Held(log), f, cursor), Numbered(s, log[s - 1]);
    HeldHas(log, s);
    EligibleAreThePicked(Held(log), f, cursor, x);
    HeldIsSorted(log);
    EligibleAreSorted(Held(log), f, cursor);
    var i :| 0 <= i < |all| && all[i] == x;
    if |all| > f.size {
      if i < f.size { assert page.entries[i] == x; } else { assert Before(all[f.size - 1], all[i]); }
    }
  }

  lemma {:induction false} CaughtOrAhead(log: seq<Entry>, r: Session, f: Search, k: nat, s: nat)
    requires Reading(log, r, f) && k < |r.pages|
    requires r.cursors[0] < s <= |log| && Dropped(r.sizes[|r.pages| - 1]) < s && f.wanted(log[s - 1])
    ensures (exists j :: 0 <= j < k && Numbered(s, log[s - 1]) in r.pages[j].entries) || r.cursors[k] < s
  {
    if k > 0 {
      CaughtOrAhead(log, r, f, k - 1, s);
      assert PageOf(log, r, f, k) && PageOf(log, r, f, k - 1);
      CursorsGrow(log, r, f, k - 1, |r.pages| - 1);
      if r.cursors[k - 1] < s {
        var seen := log[..r.sizes[k - 1]];
        CursorAdvances(seen, f, r.cursors[k - 1], r.pages[k - 1]);
        if s <= r.sizes[k - 1] { PageCatches(seen, f, r.cursors[k - 1], r.pages[k - 1], s); }
      }
    }
  }

  /** A reading that has come to its end has missed no matching entry that the history still holds then: whatever
      matches, was recorded before the last page, and was not read, has been dropped. */
  lemma OnlyDroppedEntriesAreMissed(log: seq<Entry>, r: Session, f: Search, s: nat)
    requires Reading(log, r, f) && !r.pages[|r.pages| - 1].hasMore
    requires r.cursors[0] < s <= r.sizes[|r.pages| - 1] <= |log| && f.wanted(log[s - 1])
    ensures (exists j :: 0 <= j < |r.pages| && Numbered(s, log[s - 1]) in r.pages[j].entries)
            || Numbered(s, log[s - 1]) !in Held(log[..r.sizes[|r.pages| - 1]])
  {
    var last := |r.pages| - 1;
    if Dropped(r.sizes[last]) < s {
      CaughtOrAhead(log, r, f, last, s);
      assert PageOf(log, r, f, last);
      if r.cursors[last] < s { PageCatches(log[..r.sizes[last]], f, r.cursors[last], r.pages[last], s); }
    }
  }

  /* ------------------------------------------------------------------ the class */

  lemma NewestDropsTheOldest(s: seq<Numbered>)
    requires |s| > HISTORY_LIMIT
    ensures Newest(s[1..]) == Newest(s)
  {
    assert s[1..][|s| - 1 - HISTORY_LIMIT..] == s[|s| - HISTORY_LIMIT..];
  }

  lemma EligibleFrom(history: seq<Numbered>, f: Search, cursor: nat, i: nat)
    requires i < |history|
    ensures Eligible(history[i..], f, cursor)
         == if history[i].sequence > cursor && f.wanted(history[i].entry)
            then [history[i]] + Eligible(history[i + 1..], f, cursor) else Eligible(history[i + 1..], f, cursor)
  {
    assert history[i..][1..] == history[i + 1..];
  }

  class IntelLedger {
    var seats: map<string, SeatLedger>
    ghost var logs: map<string, seq<Entry>>

    /** Every seat's history is the newest of what was recorded for it. */
    ghost predicate Valid()
      reads this
    {
      seats.Keys == logs.Keys && forall id :: id in seats ==> Keeps(seats[id], logs[id])
    }

    constructor ()
      ensures Valid() && logs == map[]
    {
      seats, logs := map[], map[];
    }

    method EnsureSeat(seat: string)
      requires Valid()
      modifies this
      ensures Valid() && logs == if seat in old(logs) then old(logs) else old(logs)[seat := []]
    {
      if seat !in seats {
        seats := seats[seat := SeatLedger([], 1)];
        logs := logs[seat := []];
      }
    }

    static method DropOldest(entries: seq<Numbered>) returns (history: seq<Numbered>)
      ensures history == Newest(entries)
    {
      history := entries;
      while |history| > HISTORY_LIMIT
        invariant Newest(history) == Newest(entries)
        decreases |history|
      {
        NewestDropsTheOldest(history);
        history := history[1..];
      }
    }

    method Record(seat: string, entry: Entry)
      requires Valid() && seat in seats
      modifies this
      ensures Valid() && logs == old(logs)[seat := old(logs)[seat] + [entry]]
      ensures seats == old(seats)[seat := Recorded(old(seats)[seat], entry)]
    {
      assert seat in logs;
      RecordingKeepsTheNewest(seats[seat], logs[seat], entry);
      var ledger := seats[seat];
      var history := DropOldest(ledger.history + [Numbered(ledger.nextHistory, entry)]);
      seats := seats[seat := SeatLedger(history, ledger.nextHistory + 1)];
      logs := logs[seat := logs[seat] + [entry]];
    }

    method HistoryPage(seat: string, q: Query) returns (page: Page)
      ensures page == if seat !in seats then Page([], false, 0)
                      else PageAt(seats[seat].history, SearchOf(q), CursorOf(q))
    {
      if seat !in seats { return Page([], false, 0); }
      var cursor := if q.cursor.Some? then q.cursor.value else 0;
      if cursor < 0 { cursor := 0; }
      page := Scan(seats[seat].history, SearchOf(q), cursor);
    }

    static lemma ScannedAll(history: seq<Numbered>, f: Search, cursor: nat, entries: seq<Numbered>)
      requires Eligible(history, f, cursor) == entries && |entries| <= f.size
      ensures PageAt(history, f, cursor) == Page(entries, false, 0)
    {
    }

    /** The page is full and one more entry matches. */
    static lemma ScannedEnough(history: seq<Numbered>, f: Search, cursor: nat, entries: seq<Numbered>,
                               more: seq<Numbered>)
      requires Eligible(history, f, cursor) == entries + more && |entries| == f.size && more != []
      ensures PageAt(history, f, cursor) == Page(entries, true, entries[|entries| - 1].sequence)
    {
      assert (entries + more)[..f.size] == entries;
    }

    static lemma OneMoreScanned(entries: seq<Numbered>, entry: Numbered, rest: seq<Numbered>)
      ensures entries + ([entry] + rest) == entries + [entry] + rest
    {
    }

    static method Scan(history: seq<Numbered>, f: Search, cursor: nat) returns (page: Page)
      ensures page == PageAt(history, f, cursor)
    {
      var entries, lastSequence := [], cursor;
      var i := 0;
      while i < |history|
        invariant 0 <= i <= |history| && |entries| <= f.size
        invariant entries + Eligible(history[i..], f, cursor) == Eligible(history, f, cursor)
        invariant entries != [] ==> lastSequence == entries[|entries| - 1].sequence
      {
        var entry := history[i];
        EligibleFrom(history, f, cursor, i);
        if entry.sequence > cursor && f.wanted(entry.entry) {
          if |entries| >= f.size {
            ScannedEnough(history, f, cursor, entries, Eligible(history[i..], f, cursor));
            return Page(entries, true, lastSequence);
          }
          OneMoreScanned(entries, entry, Eligible(history[i + 1..], f, cursor));
          entries := entries + [entry];
          lastSequence := entry.sequence;
        }
        i := i + 1;
      }
      ScannedAll(history, f, cursor, entries);
      page := Page(entries, false, 0);
    }
  }
}
