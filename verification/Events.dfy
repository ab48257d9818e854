/** internal/store/events.go: the event log, its filtered listing in pages, and pruning. */
module Events {
  import opened Wrappers

  datatype Event = Event(
    id: int, ts: string, tagId: Option<int>, direction: string, kind: string, freq: Option<int>, dr: Option<int>,
    fcnt: Option<int>, fport: Option<int>, rssi: Option<real>, snr: Option<real>,
    payloadHex: string, decoded: string, result: string)

  /** Absent, empty and non-positive values mean no filter. */
  datatype Filter = Filter(tagId: Option<int>, direction: string, beforeId: int, limit: int)

  predicate Matches(f: Filter, e: Event) {
    && (f.tagId.Some? ==> e.tagId == f.tagId)
    && (f.direction != "" ==> e.direction == f.direction)
    && (f.beforeId > 0 ==> e.id < f.beforeId)
  }

  function Clamp(limit: int): nat {
    if limit <= 0 then 100 else if limit > 1000 then 1000 else limit
  }

  /** A condition of the WHERE clause; a NULL tag_id equals nothing. */
  datatype Clause = TagIs(id: int) | DirectionIs(direction: string) | IdBelow(id: int)

  predicate Holds(c: Clause, e: Event) {
    match c
    case TagIs(id) => e.tagId == Some(id)
    case DirectionIs(d) => e.direction == d
    case IdBelow(id) => e.id < id
  }

  predicate HoldsAll(where: seq<Clause>, e: Event) {
    forall i :: 0 <= i < |where| ==> Holds(where[i], e)
  }

  lemma HoldsAllAppend(where: seq<Clause>, c: Clause)
    ensures forall e :: HoldsAll(where + [c], e) <==> HoldsAll(where, e) && Holds(c, e)
  {
    forall e | HoldsAll(where + [c], e) ensures HoldsAll(where, e) && Holds(c, e) {
      assert (where + [c])[|where|] == c;
      assert forall i :: 0 <= i < |where| ==> (where + [c])[i] == where[i];
    }
  }

  /** The table in the order of its ids, which start at 1. */
  ghost predicate Ascending(rows: seq<Event>) {
    && (forall i :: 0 <= i < |rows| ==> rows[i].id > 0)
    && (forall i, j :: 0 <= i < j < |rows| ==> rows[i].id < rows[j].id)
  }

  /** All matching events, newest first. */
  function Feed(rows: seq<Event>, f: Filter): seq<Event> {
    if rows == [] then []
    else
      var e, older := rows[|rows| - 1], Feed(rows[..|rows| - 1], f);
      if Matches(f, e) then [e] + older else older
  }

  function Take<T>(s: seq<T>, n: nat): seq<T> {
    if |s| <= n then s else s[..n]
  }

  /** The conditions that apply, in the order the query lists them. */
  method Where(f: Filter) returns (where: seq<Clause>)
    ensures forall e :: HoldsAll(where, e) <==> Matches(f, e)
  {
    where := [];
    if f.tagId.Some? {
      HoldsAllAppend(where, TagIs(f.tagId.value));
      where := where + [TagIs(f.tagId.value)];
    }
    if f.direction != "" {
      HoldsAllAppend(where, DirectionIs(f.direction));
      where := where + [DirectionIs(f.direction)];
    }
    if f.beforeId > 0 {
      HoldsAllAppend(where, IdBelow(f.beforeId));
      where := where + [IdBelow(f.beforeId)];
    }
  }

  lemma LastOfFeed(rows: seq<Event>, f: Filter, i: nat)
    requires i < |rows|
    ensures Feed(rows[..i + 1], f) == if Matches(f, rows[i]) then [rows[i]] + Feed(rows[..i], f) else Feed(rows[..i], f)
  {
    assert rows[..i + 1][..i] == rows[..i];
  }

  /** Runs the query: rows by descending id, up to the limit. */
  method Scan(rows: seq<Event>, where: seq<Clause>, f: Filter, limit: nat) returns (out: seq<Event>)
    requires forall e :: HoldsAll(where, e) <==> Matches(f, e)
    ensures out == Take(Feed(rows, f), limit)
  {
    out := [];
    var i := |rows|;
    assert rows[..i] == rows;
    ghost var feed := Feed(rows, f);
    while i > 0 && |out| < limit
      invariant 0 <= i <= |rows| && |out| <= limit
      invariant feed == out + Feed(rows[..i], f)
    {
      i := i - 1;
      LastOfFeed(rows, f, i);
      ghost var rest := Feed(rows[..i], f);
      if HoldsAll(where, rows[i]) {
        assert out + ([rows[i]] + rest) == (out + [rows[i]]) + rest;
        out := out + [rows[i]];
      }
    }
    assert i == 0 ==> Feed(rows[..i], f) == [] && feed == out;
    assert out == feed[..|out|];
  }

  function IdsFrom(rows: seq<Event>, start: nat): set<int> {
    set i | start <= i < |rows| :: rows[i].id
  }

  lemma IdsFromStart(rows: seq<Event>, start: nat, i: nat)
    requires Ascending(rows) && i < |rows|
    ensures rows[i].id in IdsFrom(rows, start) <==> start <= i
  {
  }

  /** Keeps the rows whose id is among those from `start` on. */
  method KeepFrom(table: seq<Event>, start: nat) returns (left: seq<Event>)
    requires Ascending(table) && start <= |table|
    ensures left == table[start..]
  {
    var newest := IdsFrom(table, start);
    left := [];
    for i := 0 to |table|
      invariant left == if i <= start then [] else table[start..i]
    {
      IdsFromStart(table, start, i);
      if table[i].id in newest {
        left := left + [table[i]];
      }
    }
  }

  class EventRepo {
    var rows: seq<Event>
    var nextId: int

    ghost predicate Valid()
      reads this
    {
      Ascending(rows) && nextId > 0 && forall e <- rows :: e.id < nextId
    }

    constructor ()
      ensures Valid() && rows == []
    {
      rows, nextId := [], 1;
    }

    /** `tags` are the ids in the tags table, which tag_id must refer to. */
    method Append(e: Event, ts: string, tags: set<int>) returns (r: Result<int>)
      requires Valid()
      modifies this
      ensures Valid()
      ensures r.Err? <==> e.tagId.Some? && e.tagId.value !in tags
      ensures rows == if r.Ok? then old(rows) + [e.(id := r.value, ts := ts)] else old(rows)
      ensures r.Ok? ==> r.value >= old(nextId) && r.value < nextId
      ensures nextId >= old(nextId)
    {
      if e.tagId.Some? && e.tagId.value !in tags {
        return Err("appending event");
      }
      rows := rows + [e.(id := nextId, ts := ts)];
      r := Ok(nextId);
      nextId := nextId + 1;
    }

    method List(f: Filter) returns (out: seq<Event>)
      ensures out == Take(Feed(rows, f), Clamp(f.limit))
    {
      var limit := f.limit;
      if limit <= 0 {
        limit := 100;
      }
      if limit > 1000 {
        limit := 1000;
      }
      var where := Where(f);
      out := Scan(rows, where, f, limit);
    }

    /** Deletes the rows whose id is not among the newest `keep` ids. */
    method Prune(keep: int) returns (removed: nat)
      requires Valid()
      modifies this`rows
      ensures Valid()
      ensures var left := if keep < 0 then 0 else if keep < |old(rows)| then keep else |old(rows)|;
        && rows == old(rows)[|old(rows)| - left..]
        && removed == |old(rows)| - left
    {
      var limit, table := if keep < 0 then 0 else keep, rows;
      var start := if |table| > limit then |table| - limit else 0;
      var left := KeepFrom(table, start);
      removed := |table| - |left|;
      rows := left;
    }
  }

  // What a listing is

  /** The feed holds exactly the matching events, each once, by decreasing id. */
  lemma {:induction false} FeedIsExact(rows: seq<Event>, f: Filter)
    requires Ascending(rows)
    ensures forall e :: e in Feed(rows, f) <==> e in rows && Matches(f, e)
    ensures forall i, j :: 0 <= i < j < |Feed(rows, f)| ==> Feed(rows, f)[i].id > Feed(rows, f)[j].id
  {
    if rows != [] {
      var older, e := rows[..|rows| - 1], rows[|rows| - 1];
      FeedIsExact(older, f);
      assert rows == older + [e];
      forall d | d in Feed(older, f) ensures d.id < e.id {
        assert d in older;
      }
    }
  }

  /** Events too new for the filter do not show. */
  lemma {:induction false} NewerInvisible(rows: seq<Event>, newer: seq<Event>, f: Filter)
    requires f.beforeId > 0 && forall e <- newer :: e.id >= f.beforeId
    ensures Feed(rows + newer, f) == Feed(rows, f)
  {
    if newer == [] {
      assert rows + newer == rows;
    } else {
      assert (rows + newer)[..|rows + newer| - 1] == rows + newer[..|newer| - 1];
      NewerInvisible(rows, newer[..|newer| - 1], f);
    }
  }

  lemma {:induction false} SameFeed(rows: seq<Event>, f: Filter, g: Filter)
    requires forall e <- rows :: Matches(f, e) <==> Matches(g, e)
    ensures Feed(rows, f) == Feed(rows, g)
  {
    if rows != [] {
      SameFeed(rows[..|rows| - 1], f, g);
    }
  }

  /** Asking for what lies below an event of the feed yields the rest of the feed, whatever was appended in between. */
  lemma FeedBelow(rows: seq<Event>, newer: seq<Event>, f: Filter, k: nat)
    requires Ascending(rows + newer) && k < |Feed(rows, f)|
    ensures Feed(rows + newer, f.(beforeId := Feed(rows, f)[k].id)) == Feed(rows, f)[k + 1..]
  {
    assert forall i :: 0 <= i < |rows| ==> (rows + newer)[i] == rows[i];
    assert forall i :: 0 <= i < |newer| ==> (rows + newer)[|rows| + i] == newer[i];
    FeedIsExact(rows, f);
    assert Feed(rows, f)[k] in rows;
    NewerInvisible(rows, newer, f.(beforeId := Feed(rows, f)[k].id));
    RestOfFeed(rows, f, k);
  }

  lemma {:induction false} RestOfFeed(rows: seq<Event>, f: Filter, k: nat)
    requires Ascending(rows) && k < |Feed(rows, f)|
    ensures Feed(rows, f.(beforeId := Feed(rows, f)[k].id)) == Feed(rows, f)[k + 1..]
  {
    var older, e := rows[..|rows| - 1], rows[|rows| - 1];
    var d := Feed(rows, f)[k];
    var g := f.(beforeId := d.id);
    FeedIsExact(rows, f);
    assert d in rows && Matches(f, d);
    assert !Matches(g, e);
    if Matches(f, e) && k == 0 {
      OlderFeed(rows, f);
    } else {
      RestOfFeed(older, f, if Matches(f, e) then k - 1 else k);
    }
  }

  lemma OlderFeed(rows: seq<Event>, f: Filter)
    requires Ascending(rows) && rows != [] && Matches(f, rows[|rows| - 1])
    ensures Feed(rows[..|rows| - 1], f.(beforeId := rows[|rows| - 1].id)) == Feed(rows[..|rows| - 1], f)
  {
    SameFeed(rows[..|rows| - 1], f, f.(beforeId := rows[|rows| - 1].id));
  }

  // Paging

  /** A client pages with BeforeID set to the last id it got, stopping at an empty page; `batches[i]` is appended
      before page i + 2. */
  function Pages(rows: seq<Event>, f: Filter, batches: seq<seq<Event>>): seq<Event>
    decreases |batches|
  {
    var page := Take(Feed(rows, f), Clamp(f.limit));
    if page == [] || batches == [] then page
    else page + Pages(rows + batches[0], f.(beforeId := page[|page| - 1].id), batches[1..])
  }

  ghost predicate Appended(rows: seq<Event>, batches: seq<seq<Event>>)
    decreases |batches|
  {
    Ascending(rows) && (batches == [] || Appended(rows + batches[0], batches[1..]))
  }

  lemma PageThenRest<T>(s: seq<T>, limit: nat, m: nat, page: seq<T>, rest: seq<T>)
    requires page == Take(s, limit) && |page| <= |s| && rest == Take(s[|page|..], m)
    ensures page + rest == Take(s, limit + m)
  {
  }

  /** The events of `pages` pages. */
  function Allowance(pages: nat, limit: nat): nat {
    if pages == 0 then 0 else limit + Allowance(pages - 1, limit)
  }

  lemma {:induction false} AllowanceGrows(pages: nat, limit: nat)
    requires limit > 0
    ensures Allowance(pages, limit) == pages * limit >= pages
  {
    if pages > 0 {
      AllowanceGrows(pages - 1, limit);
      assert pages * limit == limit + (pages - 1) * limit;
    }
  }

  /** So many pages yield so many events: exactly those that matched when the first page was read, newest first,
      without gap or duplicate, whatever is appended meanwhile. */
  lemma {:induction false} PagesYieldTheFeed(rows: seq<Event>, f: Filter, batches: seq<seq<Event>>)
    requires Appended(rows, batches)
    ensures Pages(rows, f, batches) == Take(Feed(rows, f), Allowance(|batches| + 1, Clamp(f.limit)))
    decreases |batches|
  {
    var feed, limit := Feed(rows, f), Clamp(f.limit);
    var page := Take(feed, limit);
    if page != [] && batches != [] {
      var next := f.(beforeId := page[|page| - 1].id);
      FeedBelow(rows, batches[0], f, |page| - 1);
      PagesYieldTheFeed(rows + batches[0], next, batches[1..]);
      PageThenRest(feed, limit, Allowance(|batches|, limit), page, Pages(rows + batches[0], next, batches[1..]));
    }
  }

  /** A client that goes on long enough has everything; as many pages as there are matching events always suffice. */
  lemma PagingIsComplete(rows: seq<Event>, f: Filter, batches: seq<seq<Event>>)
    requires Appended(rows, batches)
    requires |Feed(rows, f)| <= |batches| + 1 || |Feed(rows, f)| <= (|batches| + 1) * Clamp(f.limit)
    ensures Pages(rows, f, batches) == Feed(rows, f)
  {
    PagesYieldTheFeed(rows, f, batches);
    AllowanceGrows(|batches| + 1, Clamp(f.limit));
  }

  /** Pruning cuts off the oldest end of every listing and changes nothing else. */
  lemma {:induction false} PruneCutsTheTail(rows: seq<Event>, start: nat, f: Filter)
    requires start <= |rows|
    ensures Feed(rows, f) == Feed(rows[start..], f) + Feed(rows[..start], f)
  {
    var left, cut := rows[start..], rows[..start];
    if start == |rows| {
      assert cut == rows;
    } else {
      var n := |rows| - 1;
      assert rows[..n][..start] == cut && rows[..n][start..] == left[..n - start];
      PruneCutsTheTail(rows[..n], start, f);
      assert Feed(rows[..n], f) == Feed(left[..n - start], f) + Feed(cut, f);
    }
  }
}
