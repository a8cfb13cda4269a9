/**
 * The strategy routes of the server (server/routes/strategies.js): an
 * in-memory `Map` from id to strategy, seeded with one example, behind
 * `GET /` (filter, then one page), `GET /:id`, `POST /`, `PUT /:id`,
 * `DELETE /:id` and `POST /:id/duplicate`.
 */
module StrategyRoutes {
  import opened Wrappers
  import opened Text
  import opened Seqs
  import opened JsMap
  import opened Http
  import opened Domain

  const NotFound := "Stratégie non trouvée"
  const FieldsRequired := "Nom, description et code PineScript requis"
  const DeletedMessage := "Stratégie supprimée avec succès"
  const CopySuffix := " (Copie)"
  const DefaultPage := 1
  const DefaultLimit := 10

  /** Every strategy created through the API is attributed to the demo user. */
  const DemoAuthor := Author("demo-user", "Utilisateur Demo")

  /** The example strategy the map starts with; its PineScript body is opaque. */
  function RsiDivergence(id: Id, createdAt: Timestamp, updatedAt: Timestamp): Strategy {
    Strategy(
      id,
      "RSI Divergence Strategy",
      "Stratégie basée sur les divergences RSI pour identifier les retournements de tendance",
      "// RSI Divergence Strategy",
      [Parameter("rsi_length", "number", 14, Some(5), Some(50), "Période du RSI"),
       Parameter("rsi_overbought", "number", 70, Some(60), Some(90), "Niveau de surachat RSI")],
      DemoAuthor, true, 156, 4.2, ["RSI", "Divergence", "Reversal"], createdAt, updatedAt)
  }

  // ---------------------------------------------------------------------
  // GET / : filters
  // ---------------------------------------------------------------------

  /** The query string of `GET /`, with `page` and `limit` already numbers. */
  datatype ListQuery = ListQuery(
    page: Option<int>,
    limit: Option<int>,
    search: Option<string>,
    tags: Option<string>,
    author: Option<string>)

  /** Case-insensitive search in the name or the description. */
  predicate MatchesSearch(s: Strategy, query: string) {
    var q := ToLower(query);
    Contains(ToLower(s.name), q) || Contains(ToLower(s.description), q)
  }

  /** At least one of the comma-separated tags of the query is a tag of `s`. */
  predicate SharesTag(s: Strategy, tags: string) {
    var tagArray := Split(tags, ",");
    exists k | 0 <= k < |tagArray| :: tagArray[k] in s.tags
  }

  predicate ByAuthor(s: Strategy, author: Id) {
    s.author.id == author
  }

  predicate PassesSearch(q: ListQuery, s: Strategy) {
    Missing(q.search) || MatchesSearch(s, q.search.value)
  }

  predicate PassesTags(q: ListQuery, s: Strategy) {
    Missing(q.tags) || SharesTag(s, q.tags.value)
  }

  predicate PassesAuthor(q: ListQuery, s: Strategy) {
    Missing(q.author) || ByAuthor(s, q.author.value)
  }

  /** The three filters as one test; a filter that is absent or empty keeps everything. */
  predicate Selected(q: ListQuery, s: Strategy) {
    PassesSearch(q, s) && PassesTags(q, s) && PassesAuthor(q, s)
  }

  /** The filter pipeline of `GET /`: search, then tags, then author. The result
      keeps the input's order and holds exactly the selected entries. */
  function ApplyFilters(all: seq<Strategy>, q: ListQuery): (r: seq<Strategy>)
    ensures SubsequenceOf(r, all)
    ensures forall i :: 0 <= i < |r| ==> r[i] in all && Selected(q, r[i])
    ensures forall i :: 0 <= i < |all| && Selected(q, all[i]) ==> all[i] in r
  {
    var afterSearch := if Missing(q.search) then all else Filter(all, s => MatchesSearch(s, q.search.value));
    var afterTags := if Missing(q.tags) then afterSearch else Filter(afterSearch, s => SharesTag(s, q.tags.value));
    var afterAuthor := if Missing(q.author) then afterTags else Filter(afterTags, s => ByAuthor(s, q.author.value));
    FilterPipeline(all, afterSearch, afterTags, afterAuthor, q);
    afterAuthor
  }

  /** The three stages together keep the order and select exactly what `Selected` selects. */
  lemma FilterPipeline(all: seq<Strategy>, afterSearch: seq<Strategy>, afterTags: seq<Strategy>,
                       afterAuthor: seq<Strategy>, q: ListQuery)
    requires afterSearch == if Missing(q.search) then all else Filter(all, s => MatchesSearch(s, q.search.value))
    requires afterTags == if Missing(q.tags) then afterSearch else Filter(afterSearch, s => SharesTag(s, q.tags.value))
    requires afterAuthor == if Missing(q.author) then afterTags else Filter(afterTags, s => ByAuthor(s, q.author.value))
    ensures SubsequenceOf(afterAuthor, all)
    ensures forall i :: 0 <= i < |afterAuthor| ==> afterAuthor[i] in all && Selected(q, afterAuthor[i])
    ensures forall i :: 0 <= i < |all| && Selected(q, all[i]) ==> all[i] in afterAuthor
  {
    SearchStage(all, afterSearch, q);
    TagsStage(afterSearch, afterTags, q);
    AuthorStage(afterTags, afterAuthor, q);
    SubsequenceTransitive(afterTags, afterSearch, all);
    SubsequenceTransitive(afterAuthor, afterTags, all);
    forall i | 0 <= i < |afterAuthor|
      ensures afterAuthor[i] in all && Selected(q, afterAuthor[i])
    {
      var x := afterAuthor[i];
      assert x in afterAuthor;
      assert x in afterTags && x in afterSearch;
    }
    forall i | 0 <= i < |all| && Selected(q, all[i])
      ensures all[i] in afterAuthor
    {
      var x := all[i];
      assert x in all;
      assert x in afterSearch && x in afterTags;
    }
  }

  lemma SearchStage(prev: seq<Strategy>, next: seq<Strategy>, q: ListQuery)
    requires next == if Missing(q.search) then prev else Filter(prev, s => MatchesSearch(s, q.search.value))
    ensures SubsequenceOf(next, prev)
    ensures forall x :: x in next <==> x in prev && PassesSearch(q, x)
  {
    if Missing(q.search) {
      SubsequenceReflexive(prev);
    } else {
      forall x
        ensures x in next <==> x in prev && PassesSearch(q, x)
      {
        FilterMembers(prev, s => MatchesSearch(s, q.search.value), x);
      }
    }
  }

  lemma TagsStage(prev: seq<Strategy>, next: seq<Strategy>, q: ListQuery)
    requires next == if Missing(q.tags) then prev else Filter(prev, s => SharesTag(s, q.tags.value))
    ensures SubsequenceOf(next, prev)
    ensures forall x :: x in next <==> x in prev && PassesTags(q, x)
  {
    if Missing(q.tags) {
      SubsequenceReflexive(prev);
    } else {
      forall x
        ensures x in next <==> x in prev && PassesTags(q, x)
      {
        FilterMembers(prev, s => SharesTag(s, q.tags.value), x);
      }
    }
  }

  lemma AuthorStage(prev: seq<Strategy>, next: seq<Strategy>, q: ListQuery)
    requires next == if Missing(q.author) then prev else Filter(prev, s => ByAuthor(s, q.author.value))
    ensures SubsequenceOf(next, prev)
    ensures forall x :: x in next <==> x in prev && PassesAuthor(q, x)
  {
    if Missing(q.author) {
      SubsequenceReflexive(prev);
    } else {
      forall x
        ensures x in next <==> x in prev && PassesAuthor(q, x)
      {
        FilterMembers(prev, s => ByAuthor(s, q.author.value), x);
      }
    }
  }

  /** The client joins its tag list with "," (src/services/api.ts:93). When no
      tag holds a comma, the server's split gives the list back, so the tag
      filter keeps the strategies sharing a tag with the client's list. The one
      exception is the list [""], which joins to the falsy "" and so applies no
      filter at all. */
  lemma ClientTagsRoundTrip(tags: seq<string>, s: Strategy)
    requires |tags| >= 1
    requires forall k :: 0 <= k < |tags| ==> ',' !in tags[k]
    ensures Split(Join(tags, ","), ",") == tags
    ensures SharesTag(s, Join(tags, ",")) <==> exists k :: 0 <= k < |tags| && tags[k] in s.tags
    ensures Join(tags, ",") == "" <==> tags == [""]
    ensures tags != [""] ==> forall q: ListQuery :: q.tags == Some(Join(tags, ",")) ==>
              (PassesTags(q, s) <==> exists k :: 0 <= k < |tags| && tags[k] in s.tags)
  {
    SplitJoin(tags, ",");
    if |tags| >= 2 {
      JoinCons(tags[0], tags[1..], ",");
      assert tags == [tags[0]] + tags[1..];
    }
  }

  /** An empty tag list joins to "", which the server treats as no tag filter. */
  lemma ClientNoTags(q: ListQuery, s: Strategy)
    requires q.tags == Some(Join([], ","))
    ensures PassesTags(q, s)
  {
  }

  // ---------------------------------------------------------------------
  // GET / : pagination
  // ---------------------------------------------------------------------

  /** Where `Array.prototype.slice` starts or stops for index `i`: a negative
      index counts from the end, and the result is clamped to the list. */
  function SliceIndex(n: nat, i: int): (k: nat)
    ensures k <= n
    ensures 0 <= i <= n ==> k == i
  {
    if i < 0 then (if n + i < 0 then 0 else n + i)
    else if i > n then n
    else i
  }

  /** `s.slice(start, end)`: the contiguous piece of `s` from the start index on. */
  function JsSlice<T>(s: seq<T>, start: int, end: int): (r: seq<T>)
    ensures var a := SliceIndex(|s|, start); a + |r| <= |s| && r == s[a..a + |r|]
    ensures var a, b := SliceIndex(|s|, start), SliceIndex(|s|, end); |r| == if a < b then b - a else 0
  {
    var a, b := SliceIndex(|s|, start), SliceIndex(|s|, end);
    if a < b then s[a..b] else []
  }

  /** `xs.slice((page - 1) * limit, (page - 1) * limit + limit)`: at most
      `limit` entries of the list, and none for a limit of zero. A negative
      limit is not rejected: `slice` then counts from the end. */
  function Paginate<T>(xs: seq<T>, page: int, limit: int): (r: seq<T>)
    ensures forall i :: 0 <= i < |r| ==> r[i] in xs
    ensures limit >= 0 ==> |r| <= limit
    ensures limit == 0 ==> r == []
  {
    var start := (page - 1) * limit;
    var r := JsSlice(xs, start, start + limit);
    assert forall i :: 0 <= i < |r| ==> r[i] == xs[SliceIndex(|xs|, start) + i];
    r
  }

  /** `Math.ceil(a / b)` for a divisor other than zero. */
  function CeilDiv(a: int, b: int): (r: int)
    requires b != 0
    ensures b > 0 ==> (r - 1) * b < a <= r * b
    ensures b < 0 ==> r * b <= a < (r - 1) * b
  {
    if b > 0 then -((-a) / b) else a / b
  }

  /** `Math.ceil(total / limit)`: a limit of zero gives Infinity or NaN, which
      the JSON response carries as `null`. */
  function TotalPages(total: nat, limit: int): (r: Option<int>)
    ensures r.None? <==> limit == 0
    ensures limit != 0 ==> r == Some(CeilDiv(total, limit))
    ensures limit >= 1 ==> r.value >= 0 && (total > 0 <==> r.value >= 1)
    ensures limit < 0 ==> r.value <= 0
  {
    if limit == 0 then None else Some(CeilDiv(total, limit))
  }

  datatype Pagination = Pagination(page: int, pageSize: int, total: nat, totalPages: Option<int>)

  datatype StrategyPage = StrategyPage(data: seq<Strategy>, pagination: Pagination)

  /** The body of `GET /`: the filtered list, one page of it, and its counts.
      Every listed entry is a stored one that passes the filters, the total
      counts the filtered entries, and from page 1 on a page has entries
      exactly when its number is at most the reported page count. */
  function ListPage(all: seq<Strategy>, q: ListQuery): (r: StrategyPage)
    ensures r.pagination.page == q.page.GetOr(DefaultPage)
    ensures r.pagination.pageSize == q.limit.GetOr(DefaultLimit)
    ensures r.data == Paginate(ApplyFilters(all, q), r.pagination.page, r.pagination.pageSize)
    ensures r.pagination.total == |ApplyFilters(all, q)| <= |all|
    ensures r.pagination.totalPages == TotalPages(r.pagination.total, r.pagination.pageSize)
    ensures forall i :: 0 <= i < |r.data| ==> r.data[i] in all && Selected(q, r.data[i])
    ensures r.pagination.page >= 1 && r.pagination.pageSize >= 1 ==>
              (|r.data| > 0 <==> r.pagination.page <= r.pagination.totalPages.value)
  {
    var page := q.page.GetOr(DefaultPage);
    var limit := q.limit.GetOr(DefaultLimit);
    var filtered := ApplyFilters(all, q);
    SubsequenceLength(filtered, all);
    var r := StrategyPage(
      Paginate(filtered, page, limit),
      Pagination(page, limit, |filtered|, TotalPages(|filtered|, limit)));
    if page >= 1 && limit >= 1 then
      PageNonEmptyIff(filtered, page, limit);
      r
    else
      r
  }

  lemma MulMonotone(a: int, b: int, c: int)
    requires a <= b && c >= 0
    ensures a * c <= b * c
  {
  }

  /** For a page from 1 on, the page is the window of at most `limit` entries
      starting at `(page - 1) * limit`. */
  lemma PageWindow<T>(xs: seq<T>, page: int, limit: int)
    requires page >= 1 && limit >= 1
    ensures var start := (page - 1) * limit;
            var p := Paginate(xs, page, limit);
            |p| <= limit
            && (start < |xs| ==> |p| == Min(limit, |xs| - start))
            && (start >= |xs| ==> p == [])
            && forall i :: 0 <= i < |p| ==> p[i] == xs[start + i]
  {
    var start := (page - 1) * limit;
    MulMonotone(0, page - 1, limit);
    assert start >= 0;
  }

  function Min(a: int, b: int): int {
    if a <= b then a else b
  }

  /** For a page from 1 on, the page has entries exactly when its number is
      at most the reported page count. */
  lemma PageNonEmptyIff<T>(xs: seq<T>, page: int, limit: int)
    requires page >= 1 && limit >= 1
    ensures |Paginate(xs, page, limit)| > 0 <==> page <= TotalPages(|xs|, limit).value
  {
    var t := CeilDiv(|xs|, limit);
    var start := (page - 1) * limit;
    PageWindow(xs, page, limit);
    if page <= t {
      MulMonotone(page - 1, t - 1, limit);
    } else {
      MulMonotone(t, page - 1, limit);
    }
  }

  /** Page 0 is always empty. */
  lemma PageZeroEmpty<T>(xs: seq<T>, limit: int)
    requires limit >= 1
    ensures Paginate(xs, 0, limit) == []
  {
  }

  /** Nothing rejects a negative page: page -1 counts back from the end of the list. */
  lemma NegativePageCountsFromEnd<T>(xs: seq<T>, limit: int)
    requires limit >= 1 && |xs| >= 2 * limit
    ensures Paginate(xs, -1, limit) == xs[|xs| - 2 * limit..|xs| - limit]
  {
  }

  /** Nothing rejects a negative limit either: page 1 with limit -k is every
      entry but the last k. */
  lemma NegativeLimitDropsTail<T>(xs: seq<T>, k: int)
    requires 1 <= k <= |xs|
    ensures Paginate(xs, 1, -k) == xs[..|xs| - k]
  {
  }

  /** Pages 1 to `k`, one after another. */
  function PagesUpTo<T>(xs: seq<T>, limit: int, k: nat): seq<T> {
    if k == 0 then [] else PagesUpTo(xs, limit, k - 1) + Paginate(xs, k, limit)
  }

  /** Pages 1 to `k` together are the first `k * limit` entries. */
  lemma {:induction false} PagesUpToPrefix<T>(xs: seq<T>, limit: int, k: nat)
    requires limit >= 1
    ensures PagesUpTo(xs, limit, k) == xs[..Min(k * limit, |xs|)]
  {
    if k > 0 {
      var start := (k - 1) * limit;
      PagesUpToPrefix(xs, limit, k - 1);
      MulMonotone(0, k - 1, limit);
      assert k * limit == start + limit;
      PageSlice(xs, k, limit);
      SliceConcat(xs, Min(start, |xs|), Min(start + limit, |xs|));
    }
  }

  /** For a page from 1 on, the page is the slice between the clamped window bounds. */
  lemma PageSlice<T>(xs: seq<T>, page: int, limit: int)
    requires page >= 1 && limit >= 1
    ensures var start := (page - 1) * limit;
            Paginate(xs, page, limit) == xs[Min(start, |xs|)..Min(start + limit, |xs|)]
  {
    MulMonotone(0, page - 1, limit);
  }

  lemma SliceConcat<T>(xs: seq<T>, i: nat, j: nat)
    requires i <= j <= |xs|
    ensures xs[..i] + xs[i..j] == xs[..j]
  {
  }

  /** Reading pages 1 to `totalPages` in turn gives every filtered entry once, in order. */
  lemma PagesCoverAll<T>(xs: seq<T>, limit: int)
    requires limit >= 1
    ensures PagesUpTo(xs, limit, TotalPages(|xs|, limit).value) == xs
  {
    PagesUpToPrefix(xs, limit, CeilDiv(|xs|, limit));
  }

  // ---------------------------------------------------------------------
  // POST /, PUT /:id, POST /:id/duplicate : the new entries
  // ---------------------------------------------------------------------

  /** The fields of a `POST /` body. */
  datatype CreateBody = CreateBody(
    name: Option<string>,
    description: Option<string>,
    pineScript: Option<string>,
    parameters: Option<seq<Parameter>>,
    tags: Option<seq<string>>,
    isPublic: Option<bool>)

  predicate CreateFieldsPresent(body: CreateBody) {
    !Missing(body.name) && !Missing(body.description) && !Missing(body.pineScript)
  }

  /** The strategy `POST /` stores: the body's content with the defaults filled
      in, a new id, the demo author, no downloads and no rating. The two time
      stamps are two separate clock reads. */
  function Created(body: CreateBody, id: Id, createdAt: Timestamp, updatedAt: Timestamp): (s: Strategy)
    requires CreateFieldsPresent(body)
    ensures s.id == id && s.author == DemoAuthor
    ensures s.name == body.name.value && s.description == body.description.value
            && s.pineScript == body.pineScript.value
    ensures s.parameters == (if body.parameters.Some? then body.parameters.value else [])
    ensures s.tags == (if body.tags.Some? then body.tags.value else [])
    ensures s.isPublic <==> body.isPublic == Some(true)
    ensures s.downloads == 0 && s.rating == 0.0
    ensures s.createdAt == createdAt && s.updatedAt == updatedAt
  {
    Strategy(id, body.name.value, body.description.value, body.pineScript.value,
             body.parameters.GetOr([]), DemoAuthor, body.isPublic.GetOr(false),
             0, 0.0, body.tags.GetOr([]), createdAt, updatedAt)
  }

  /** The fields of a `PUT /:id` body; each present field overrides the stored one. */
  datatype StrategyPatch = StrategyPatch(
    id: Option<Id>,
    name: Option<string>,
    description: Option<string>,
    pineScript: Option<string>,
    parameters: Option<seq<Parameter>>,
    author: Option<Author>,
    isPublic: Option<bool>,
    downloads: Option<int>,
    rating: Option<real>,
    tags: Option<seq<string>>,
    createdAt: Option<Timestamp>,
    updatedAt: Option<Timestamp>)

  const NoChanges := StrategyPatch(None, None, None, None, None, None, None, None, None, None, None, None)

  /** `{ ...stored, ...body, id, updatedAt: now }`. */
  function Updated(stored: Strategy, body: StrategyPatch, id: Id, now: Timestamp): (s: Strategy)
    ensures s.id == id && s.updatedAt == now
    ensures body.name.Some? ==> s.name == body.name.value
    ensures body.name.None? ==> s.name == stored.name
    ensures body.description.Some? ==> s.description == body.description.value
    ensures body.description.None? ==> s.description == stored.description
    ensures body.pineScript.Some? ==> s.pineScript == body.pineScript.value
    ensures body.pineScript.None? ==> s.pineScript == stored.pineScript
    ensures body.parameters.Some? ==> s.parameters == body.parameters.value
    ensures body.parameters.None? ==> s.parameters == stored.parameters
    ensures body.author.Some? ==> s.author == body.author.value
    ensures body.author.None? ==> s.author == stored.author
    ensures body.isPublic.Some? ==> s.isPublic == body.isPublic.value
    ensures body.isPublic.None? ==> s.isPublic == stored.isPublic
    ensures body.downloads.Some? ==> s.downloads == body.downloads.value
    ensures body.downloads.None? ==> s.downloads == stored.downloads
    ensures body.rating.Some? ==> s.rating == body.rating.value
    ensures body.rating.None? ==> s.rating == stored.rating
    ensures body.tags.Some? ==> s.tags == body.tags.value
    ensures body.tags.None? ==> s.tags == stored.tags
    ensures body.createdAt.Some? ==> s.createdAt == body.createdAt.value
    ensures body.createdAt.None? ==> s.createdAt == stored.createdAt
  {
    Strategy(
      id,
      body.name.GetOr(stored.name),
      body.description.GetOr(stored.description),
      body.pineScript.GetOr(stored.pineScript),
      body.parameters.GetOr(stored.parameters),
      body.author.GetOr(stored.author),
      body.isPublic.GetOr(stored.isPublic),
      body.downloads.GetOr(stored.downloads),
      body.rating.GetOr(stored.rating),
      body.tags.GetOr(stored.tags),
      body.createdAt.GetOr(stored.createdAt),
      now)
  }

  /** The body's `id` and `updatedAt` are always overridden. */
  lemma UpdateIgnoresIdAndTimestamp(stored: Strategy, body: StrategyPatch, id: Id, now: Timestamp)
    ensures Updated(stored, body, id, now) == Updated(stored, body.(id := None, updatedAt := None), id, now)
  {
  }

  /** An empty body only refreshes `updatedAt` (and, on a stored entry, keeps its id). */
  lemma UpdateWithoutChanges(stored: Strategy, now: Timestamp)
    ensures Updated(stored, NoChanges, stored.id, now) == stored.(updatedAt := now)
  {
  }

  /** Sending the same body twice at the same time stamp changes nothing more. */
  lemma UpdateIdempotent(stored: Strategy, body: StrategyPatch, id: Id, now: Timestamp)
    ensures Updated(Updated(stored, body, id, now), body, id, now) == Updated(stored, body, id, now)
  {
  }

  /** The content a copy shares with its original. */
  predicate SameContent(a: Strategy, b: Strategy) {
    a.description == b.description && a.pineScript == b.pineScript && a.parameters == b.parameters
    && a.author == b.author && a.isPublic == b.isPublic && a.tags == b.tags
  }

  /** The copy `POST /:id/duplicate` stores; the two time stamps are two
      separate clock reads. */
  function Duplicated(original: Strategy, id: Id, createdAt: Timestamp, updatedAt: Timestamp): (s: Strategy)
    ensures s.id == id && s.name == original.name + CopySuffix
    ensures SameContent(s, original)
    ensures s.downloads == 0 && s.rating == 0.0
    ensures s.createdAt == createdAt && s.updatedAt == updatedAt
  {
    original.(id := id, name := original.name + CopySuffix, downloads := 0, rating := 0.0,
              createdAt := createdAt, updatedAt := updatedAt)
  }

  /** A copy of a copy carries the suffix twice, and the original's content. */
  lemma DuplicateTwice(original: Strategy, id1: Id, id2: Id, c1: Timestamp, u1: Timestamp, c2: Timestamp, u2: Timestamp)
    ensures var copy := Duplicated(Duplicated(original, id1, c1, u1), id2, c2, u2);
            copy.name == original.name + CopySuffix + CopySuffix && SameContent(copy, original)
  {
  }

  // ---------------------------------------------------------------------
  // The routes over the map
  // ---------------------------------------------------------------------

  /** Every entry is stored under its own id. */
  ghost predicate Keyed(m: OrderedMap<Id, Strategy>) {
    forall id :: id in m.table ==> m.table[id].id == id
  }

  /** A listed entry is a stored entry that passes the filters, and there are
      no more filtered entries than stored ones. */
  lemma ListedAreStored(m: OrderedMap<Id, Strategy>, q: ListQuery)
    requires m.Valid() && Keyed(m)
    ensures var page := ListPage(m.Values(), q);
            page.pagination.total <= |m.keys|
            && forall i :: 0 <= i < |page.data| ==> Selected(q, page.data[i]) && m.Get(page.data[i].id) == Some(page.data[i])
  {
    var all := m.Values();
    var filtered := ApplyFilters(all, q);
    var data := ListPage(all, q).data;
    forall i | 0 <= i < |data|
      ensures Selected(q, data[i]) && m.Get(data[i].id) == Some(data[i])
    {
      StoredValue(m, data[i]);
    }
  }

  /** A value of a keyed map is found again under its own id. */
  lemma StoredValue(m: OrderedMap<Id, Strategy>, v: Strategy)
    requires m.Valid() && Keyed(m) && v in m.Values()
    ensures m.Get(v.id) == Some(v)
  {
    var j :| 0 <= j < |m.Values()| && m.Values()[j] == v;
    assert v == m.table[m.keys[j]];
  }

  /** The module-level `strategies` map and its handlers. Ids come from the
      caller (the `uuidv4()` draw) and so do the time stamps. */
  class StrategyRepository {
    var strategies: OrderedMap<Id, Strategy>

    /** The map is well formed and every entry is stored under its own id. */
    ghost predicate Valid()
      reads this
    {
      strategies.Valid() && Keyed(strategies)
    }

    /** The map as the module loads: the one example strategy. */
    constructor(seedId: Id, weekAgo: Timestamp, now: Timestamp)
      ensures Valid()
      ensures strategies.Values() == [RsiDivergence(seedId, weekAgo, now)]
    {
      SetAbsent(Empty(), seedId, RsiDivergence(seedId, weekAgo, now));
      strategies := Empty().Set(seedId, RsiDivergence(seedId, weekAgo, now));
    }

    /** `GET /`: always answers; every listed entry is stored and passes the filters. */
    function List(q: ListQuery): (r: Response<StrategyPage>)
      reads this
      requires Valid()
      ensures r.Ok? && r.status == 200
      ensures forall i :: 0 <= i < |r.data.data| ==>
                Selected(q, r.data.data[i]) && strategies.Get(r.data.data[i].id) == Some(r.data.data[i])
      ensures r.data.pagination.total <= |strategies.keys|
    {
      var page := ListPage(strategies.Values(), q);
      ListedAreStored(strategies, q);
      Ok(200, page)
    }

    /** `GET /:id`. */
    function Get(id: Id): (r: Response<Strategy>)
      reads this
      requires Valid()
      ensures r.Ok? <==> strategies.Has(id)
      ensures r.Ok? ==> r.status == 200 && r.data.id == id && strategies.Get(id) == Some(r.data)
      ensures r.Err? ==> r == Err(404, NotFound)
    {
      match strategies.Get(id)
      case None => Err(404, NotFound)
      case Some(s) => Ok(200, s)
    }

    /** `POST /`. */
    method Create(body: CreateBody, newId: Id, createdAt: Timestamp, updatedAt: Timestamp) returns (r: Response<Strategy>)
      requires Valid()
      modifies this
      ensures Valid()
      ensures !CreateFieldsPresent(body) ==> r == Err(400, FieldsRequired) && strategies == old(strategies)
      ensures CreateFieldsPresent(body) ==>
                r == Ok(201, Created(body, newId, createdAt, updatedAt)) && strategies == old(strategies).Set(newId, r.data)
      ensures CreateFieldsPresent(body) && !old(strategies).Has(newId) ==>
                strategies.Values() == old(strategies.Values()) + [r.data]
                && forall k :: k != newId ==> strategies.Get(k) == old(strategies).Get(k)
    {
      if !CreateFieldsPresent(body) {
        return Err(400, FieldsRequired);
      }
      var strategy := Created(body, newId, createdAt, updatedAt);
      if !strategies.Has(newId) {
        SetAbsent(strategies, newId, strategy);
      }
      strategies := strategies.Set(newId, strategy);
      r := Ok(201, strategy);
    }

    /** `PUT /:id`. */
    method Update(id: Id, body: StrategyPatch, now: Timestamp) returns (r: Response<Strategy>)
      requires Valid()
      modifies this
      ensures Valid()
      ensures !old(strategies).Has(id) ==> r == Err(404, NotFound) && strategies == old(strategies)
      ensures old(strategies).Has(id) ==>
                r == Ok(200, Updated(old(strategies).table[id], body, id, now))
                && strategies == old(strategies).Set(id, r.data)
                && strategies.keys == old(strategies.keys)
                && forall k :: k != id ==> strategies.Get(k) == old(strategies).Get(k)
    {
      match strategies.Get(id)
      case None =>
        r := Err(404, NotFound);
      case Some(stored) =>
        var updated := Updated(stored, body, id, now);
        SetPresent(strategies, id, updated);
        strategies := strategies.Set(id, updated);
        r := Ok(200, updated);
    }

    /** `DELETE /:id`; the success answer carries only a message. */
    method Delete(id: Id) returns (r: Response<string>)
      requires Valid()
      modifies this
      ensures Valid()
      ensures !old(strategies).Has(id) ==> r == Err(404, NotFound) && strategies == old(strategies)
      ensures old(strategies).Has(id) ==>
                r == Ok(200, DeletedMessage) && strategies == old(strategies).Delete(id)
                && !strategies.Has(id)
                && |strategies.table| == |old(strategies).table| - 1
                && forall k :: k != id ==> strategies.Get(k) == old(strategies).Get(k)
    {
      if !strategies.Has(id) {
        return Err(404, NotFound);
      }
      DeleteRemovesOnly(strategies, id);
      strategies := strategies.Delete(id);
      r := Ok(200, DeletedMessage);
    }

    /** `POST /:id/duplicate`. */
    method Duplicate(id: Id, newId: Id, createdAt: Timestamp, updatedAt: Timestamp) returns (r: Response<Strategy>)
      requires Valid()
      modifies this
      ensures Valid()
      ensures !old(strategies).Has(id) ==> r == Err(404, NotFound) && strategies == old(strategies)
      ensures old(strategies).Has(id) ==>
                r == Ok(201, Duplicated(old(strategies).table[id], newId, createdAt, updatedAt))
                && strategies == old(strategies).Set(newId, r.data)
      ensures old(strategies).Has(id) && !old(strategies).Has(newId) ==>
                strategies.Values() == old(strategies.Values()) + [r.data]
                && strategies.Get(id) == old(strategies).Get(id)
    {
      match strategies.Get(id)
      case None =>
        r := Err(404, NotFound);
      case Some(original) =>
        var copy := Duplicated(original, newId, createdAt, updatedAt);
        if !strategies.Has(newId) {
          SetAbsent(strategies, newId, copy);
        }
        strategies := strategies.Set(newId, copy);
        r := Ok(201, copy);
    }
  }
}
