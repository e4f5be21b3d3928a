/**
 * The project queries (src/queries/projects.ts): the canonical form of the
 * filters that keys the project list cache, and the updates the mutations
 * apply to the cached detail record and to every cached list page.
 */
module ProjectQueries {
  import opened Js
  import ProjectsApi
  import ProjectRecords

  // ---------------------------------------------------------------------
  // The order of the default `sort()`: elements compared as texts.
  // ---------------------------------------------------------------------

  /** Text order: the first differing character decides, and a prefix comes first. */
  predicate TextLe(a: string, b: string)
    decreases |a|
  {
    a == [] || (b != [] && (a[0] < b[0] || (a[0] == b[0] && TextLe(a[1..], b[1..]))))
  }

  lemma {:induction false} TextLeTotal(a: string, b: string)
    ensures TextLe(a, b) || TextLe(b, a)
    decreases |a|
  {
    if a != [] && b != [] && a[0] == b[0] {
      TextLeTotal(a[1..], b[1..]);
    }
  }

  lemma {:induction false} TextLeAntisymmetric(a: string, b: string)
    requires TextLe(a, b) && TextLe(b, a)
    ensures a == b
    decreases |a|
  {
    if a != [] {
      TextLeAntisymmetric(a[1..], b[1..]);
      assert a == [a[0]] + a[1..];
      assert b == [b[0]] + b[1..];
    }
  }

  lemma {:induction false} TextLeTransitive(a: string, b: string, c: string)
    requires TextLe(a, b) && TextLe(b, c)
    ensures TextLe(a, c)
    decreases |a|
  {
    if a != [] && a[0] == b[0] && b[0] == c[0] {
      TextLeTransitive(a[1..], b[1..], c[1..]);
    }
  }

  /** `sort()` with no comparator compares the elements' texts. */
  predicate ValueLe(a: JsValue, b: JsValue) {
    TextLe(ToJsString(a), ToJsString(b))
  }

  predicate Sorted(s: seq<JsValue>) {
    forall i, j | 0 <= i < j < |s| :: ValueLe(s[i], s[j])
  }

  /** The elements are strings, as the filter arrays are declared. */
  predicate AllText(s: seq<JsValue>) {
    forall v | v in s :: v.Str?
  }

  /**
   * Places `x`, the latest element, after every element not above it: equal
   * elements keep their order, as the standard's stable sort requires.
   */
  function Insert(x: JsValue, s: seq<JsValue>): (r: seq<JsValue>)
    ensures multiset(r) == multiset(s) + multiset{x}
  {
    if s == [] then [x]
    else if ValueLe(s[0], x) then (assert s == [s[0]] + s[1..]; [s[0]] + Insert(x, s[1..]))
    else [x] + s
  }

  /** `[...items].sort()`: a sorted copy, built by inserting the elements in order. */
  function SortedCopy(s: seq<JsValue>): (r: seq<JsValue>)
    ensures multiset(r) == multiset(s)
    ensures |r| == |s|
  {
    if s == [] then []
    else
      var init, last := s[..|s| - 1], s[|s| - 1];
      assert multiset(s) == multiset(init) + multiset{last} by { assert s == init + [last]; }
      Insert(last, SortedCopy(init))
  }

  /** `v` is not above any element of `s`. */
  predicate Below(v: JsValue, s: seq<JsValue>) {
    forall w | w in s :: ValueLe(v, w)
  }

  lemma SortedCons(v: JsValue, t: seq<JsValue>)
    requires Below(v, t) && Sorted(t)
    ensures Sorted([v] + t)
  {
    var s := [v] + t;
    forall i, j | 0 <= i < j < |s| ensures ValueLe(s[i], s[j]) {
      if i == 0 {
        assert s[j] in t;
      } else {
        assert s[i] == t[i - 1] && s[j] == t[j - 1];
      }
    }
  }

  lemma InsertBelow(v: JsValue, x: JsValue, t: seq<JsValue>)
    requires Below(v, t) && ValueLe(v, x)
    ensures Below(v, Insert(x, t))
  {
    forall w | w in Insert(x, t) ensures ValueLe(v, w) {
      assert w in multiset(Insert(x, t));
    }
  }

  lemma {:induction false} TextLeReflexive(a: string)
    ensures TextLe(a, a)
    decreases |a|
  {
    if a != [] {
      TextLeReflexive(a[1..]);
    }
  }

  /** The first element of a sorted array is not above any of its elements. */
  lemma FirstIsLeast(s: seq<JsValue>, v: JsValue)
    requires Sorted(s) && v in s
    ensures ValueLe(s[0], v)
  {
    var i :| 0 <= i < |s| && s[i] == v;
    if i == 0 {
      TextLeReflexive(ToJsString(v));
    }
  }

  /** `x`, when below the first element, is below every element. */
  lemma BelowFirst(x: JsValue, s: seq<JsValue>)
    requires Sorted(s) && s != [] && ValueLe(x, s[0])
    ensures Below(x, s)
  {
    forall w | w in s ensures ValueLe(x, w) {
      FirstIsLeast(s, w);
      TextLeTransitive(ToJsString(x), ToJsString(s[0]), ToJsString(w));
    }
  }

  lemma {:induction false} InsertSorted(x: JsValue, s: seq<JsValue>)
    requires Sorted(s)
    ensures Sorted(Insert(x, s))
    decreases |s|
  {
    if s == [] {
    } else if ValueLe(s[0], x) {
      InsertSorted(x, s[1..]);
      forall w | w in s[1..] ensures ValueLe(s[0], w) {
        FirstIsLeast(s, w);
      }
      InsertBelow(s[0], x, s[1..]);
      SortedCons(s[0], Insert(x, s[1..]));
    } else {
      TextLeTotal(ToJsString(s[0]), ToJsString(x));
      BelowFirst(x, s);
      SortedCons(x, s);
    }
  }

  /** The copy is sorted. */
  lemma {:induction false} SortedCopySorted(s: seq<JsValue>)
    ensures Sorted(SortedCopy(s))
    decreases |s|
  {
    if s != [] {
      SortedCopySorted(s[..|s| - 1]);
      InsertSorted(s[|s| - 1], SortedCopy(s[..|s| - 1]));
    }
  }

  lemma {:induction false} InsertLast(x: JsValue, s: seq<JsValue>)
    requires forall w | w in s :: ValueLe(w, x)
    ensures Insert(x, s) == s + [x]
    decreases |s|
  {
    if s != [] {
      assert s[0] in s;
      InsertLast(x, s[1..]);
      assert s == [s[0]] + s[1..];
    }
  }

  /** An already sorted array is copied as it is. */
  lemma {:induction false} SortedCopyOfSorted(s: seq<JsValue>)
    requires Sorted(s)
    ensures SortedCopy(s) == s
    decreases |s|
  {
    if s != [] {
      var init := s[..|s| - 1];
      SortedCopyOfSorted(init);
      InsertLast(s[|s| - 1], init);
      assert init + [s[|s| - 1]] == s;
    }
  }

  /** Two sorted arrays of strings holding the same elements start with the same string. */
  lemma SameFirst(a: seq<JsValue>, b: seq<JsValue>)
    requires Sorted(a) && Sorted(b) && AllText(a)
    requires multiset(a) == multiset(b) && a != []
    ensures b != [] && a[0] == b[0]
  {
    assert a[0] in multiset(b);
    assert b[0] in multiset(a);
    FirstIsLeast(a, b[0]);
    FirstIsLeast(b, a[0]);
    TextLeAntisymmetric(ToJsString(a[0]), ToJsString(b[0]));
    assert a[0].Str? && b[0].Str?;
  }

  lemma SameTails(a: seq<JsValue>, b: seq<JsValue>)
    requires a != [] && b != [] && a[0] == b[0] && multiset(a) == multiset(b)
    ensures multiset(a[1..]) == multiset(b[1..])
  {
    assert a == [a[0]] + a[1..];
    assert b == [b[0]] + b[1..];
    assert multiset(a[1..]) == multiset(a) - multiset{a[0]};
    assert multiset(b[1..]) == multiset(b) - multiset{b[0]};
  }

  lemma SortedTail(a: seq<JsValue>)
    requires Sorted(a) && a != []
    ensures Sorted(a[1..])
  {
    var t := a[1..];
    forall i, j | 0 <= i < j < |t| ensures ValueLe(t[i], t[j]) {
      assert t[i] == a[i + 1] && t[j] == a[j + 1];
    }
  }

  /** Two sorted arrays of strings holding the same elements are the same array. */
  lemma {:induction false} SortedUnique(a: seq<JsValue>, b: seq<JsValue>)
    requires Sorted(a) && Sorted(b) && AllText(a)
    requires multiset(a) == multiset(b)
    ensures a == b
    decreases |a|
  {
    if a == [] {
      assert |b| == |multiset(b)| == 0;
    } else {
      SameFirst(a, b);
      SameTails(a, b);
      SortedTail(a);
      SortedTail(b);
      SortedUnique(a[1..], b[1..]);
      assert a == [a[0]] + a[1..];
      assert b == [b[0]] + b[1..];
    }
  }

  /** The sorted copy depends only on which strings the array holds, not on their order. */
  lemma SortedCopyOrderInsensitive(a: seq<JsValue>, b: seq<JsValue>)
    requires AllText(a)
    requires multiset(a) == multiset(b)
    ensures SortedCopy(a) == SortedCopy(b)
  {
    var sa, sb := SortedCopy(a), SortedCopy(b);
    SortedCopySorted(a);
    SortedCopySorted(b);
    forall v | v in sa ensures v.Str? {
      assert v in multiset(a);
    }
    SortedUnique(sa, sb);
  }

  // ---------------------------------------------------------------------
  // normalizeProjectFilters
  // ---------------------------------------------------------------------

  /** `items?.length ? [...items].sort() : undefined` */
  function SortedIfAny(items: Option<seq<JsValue>>): Option<seq<JsValue>> {
    if ProjectsApi.HasItems(items) then Some(SortedCopy(items.value)) else None
  }

  /** `value ?? undefined`: null becomes undefined, every other value stays. */
  function NullToUndefined(v: JsValue): JsValue {
    if Nullish(v) then Undefined else v
  }

  /** `value || undefined`: every falsy value, the empty string first of all, becomes undefined. */
  function FalsyToUndefined(v: JsValue): JsValue {
    if Truthy(v) then v else Undefined
  }

  /**
   * The canonical filters in the list query key. An undefined field of the
   * key stands for a field the key does not hold.
   */
  function NormalizeProjectFilters(f: ProjectsApi.ProjectListQuery): ProjectsApi.ProjectListQuery {
    f.(tagNames := SortedIfAny(f.tagNames),
       languages := SortedIfAny(f.languages),
       starsMin := NullToUndefined(f.starsMin),
       starsMax := NullToUndefined(f.starsMax),
       forksMin := NullToUndefined(f.forksMin),
       forksMax := NullToUndefined(f.forksMax),
       createdAtStart := FalsyToUndefined(f.createdAtStart),
       createdAtEnd := FalsyToUndefined(f.createdAtEnd),
       updatedAtStart := FalsyToUndefined(f.updatedAtStart),
       updatedAtEnd := FalsyToUndefined(f.updatedAtEnd),
       lastCommitStart := FalsyToUndefined(f.lastCommitStart),
       lastCommitEnd := FalsyToUndefined(f.lastCommitEnd))
  }

  /** What the canonical form of one array filter is. */
  predicate CanonicalArray(before: Option<seq<JsValue>>, after: Option<seq<JsValue>>) {
    && (after.Some? <==> ProjectsApi.HasItems(before))
    && (after.Some? ==> Sorted(after.value) && multiset(after.value) == multiset(before.value))
  }

  /** What the canonical form of one numeric bound is: null goes, 0 stays. */
  predicate CanonicalNumber(before: JsValue, after: JsValue) {
    && (after == Undefined <==> Nullish(before))
    && (after != Undefined ==> after == before)
  }

  /** What the canonical form of one date bound is: the empty string goes. */
  predicate CanonicalDate(before: JsValue, after: JsValue) {
    && (after == Undefined <==> !Truthy(before))
    && (after != Undefined ==> after == before)
  }

  /**
   * The arrays become sorted copies holding the same elements, or undefined
   * when empty or absent; the numeric bounds lose null and keep 0; the date
   * bounds lose the empty string; every other field is kept.
   */
  lemma NormalizeProjectFiltersSpec(f: ProjectsApi.ProjectListQuery)
    ensures var r := NormalizeProjectFilters(f);
      && CanonicalArray(f.tagNames, r.tagNames)
      && CanonicalArray(f.languages, r.languages)
      && CanonicalNumber(f.starsMin, r.starsMin) && CanonicalNumber(f.starsMax, r.starsMax)
      && CanonicalNumber(f.forksMin, r.forksMin) && CanonicalNumber(f.forksMax, r.forksMax)
      && CanonicalDate(f.createdAtStart, r.createdAtStart) && CanonicalDate(f.createdAtEnd, r.createdAtEnd)
      && CanonicalDate(f.updatedAtStart, r.updatedAtStart) && CanonicalDate(f.updatedAtEnd, r.updatedAtEnd)
      && CanonicalDate(f.lastCommitStart, r.lastCommitStart) && CanonicalDate(f.lastCommitEnd, r.lastCommitEnd)
      && r.page == f.page && r.pageSize == f.pageSize && r.keyword == f.keyword
      && r.language == f.language && r.favorite == f.favorite && r.pinned == f.pinned
      && r.archived == f.archived && r.rest == f.rest && r.sort == f.sort
  {
    if ProjectsApi.HasItems(f.tagNames) { SortedCopySorted(f.tagNames.value); }
    if ProjectsApi.HasItems(f.languages) { SortedCopySorted(f.languages.value); }
  }

  /** The canonical form is its own canonical form. */
  lemma NormalizeProjectFiltersIdempotent(f: ProjectsApi.ProjectListQuery)
    ensures NormalizeProjectFilters(NormalizeProjectFilters(f)) == NormalizeProjectFilters(f)
  {
    if ProjectsApi.HasItems(f.tagNames) {
      SortedCopySorted(f.tagNames.value);
      SortedCopyOfSorted(SortedCopy(f.tagNames.value));
    }
    if ProjectsApi.HasItems(f.languages) {
      SortedCopySorted(f.languages.value);
      SortedCopyOfSorted(SortedCopy(f.languages.value));
    }
  }

  /** Two array filters holding the same strings, in any order. */
  predicate SameStrings(a: Option<seq<JsValue>>, b: Option<seq<JsValue>>) {
    a.Some? == b.Some? && (a.Some? ==> AllText(a.value) && multiset(a.value) == multiset(b.value))
  }

  /**
   * Filters that differ only in the order of their tag names and languages
   * share one list query key, hence one cache entry.
   */
  lemma NormalizeOrderInsensitive(f: ProjectsApi.ProjectListQuery, g: ProjectsApi.ProjectListQuery)
    requires g == f.(tagNames := g.tagNames, languages := g.languages)
    requires SameStrings(f.tagNames, g.tagNames) && SameStrings(f.languages, g.languages)
    ensures NormalizeProjectFilters(f) == NormalizeProjectFilters(g)
  {
    if f.tagNames.Some? {
      SortedCopyOrderInsensitive(f.tagNames.value, g.tagNames.value);
    }
    if f.languages.Some? {
      SortedCopyOrderInsensitive(f.languages.value, g.languages.value);
    }
  }

  // ---------------------------------------------------------------------
  // Cache updates after a mutation
  // ---------------------------------------------------------------------

  /** A cached list page; `other` holds the paging fields and the message. */
  datatype ListPage = ListPage(data: seq<ProjectRecords.ProjectSummary>, other: map<string, JsValue>)

  /** `entry.id` */
  function IdOf(p: ProjectRecords.ProjectSummary): JsValue {
    if "id" in p.other then p.other["id"] else Undefined
  }

  /**
   * The list updater of the update mutation: an absent page stays absent;
   * otherwise each entry with the id of `updated` is replaced by it.
   */
  function ReplaceUpdated(cached: Option<ListPage>, updated: ProjectRecords.ProjectSummary): (r: Option<ListPage>)
    ensures r.Some? <==> cached.Some?
    ensures r.Some? ==> r.value.other == cached.value.other && |r.value.data| == |cached.value.data|
    ensures r.Some? ==> forall i | 0 <= i < |r.value.data| ::
      && (IdOf(cached.value.data[i]) == IdOf(updated) ==> r.value.data[i] == updated)
      && (IdOf(cached.value.data[i]) != IdOf(updated) ==> r.value.data[i] == cached.value.data[i])
  {
    if cached.None? then cached
    else
      var data := cached.value.data;
      Some(cached.value.(data := seq(|data|, i requires 0 <= i < |data| =>
        if IdOf(data[i]) == IdOf(updated) then updated else data[i])))
  }

  /**
   * After the update every entry keeps its id, every entry with the updated
   * id is the updated record, and updating again changes nothing.
   */
  lemma ReplaceUpdatedSpec(cached: Option<ListPage>, updated: ProjectRecords.ProjectSummary)
    ensures var r := ReplaceUpdated(cached, updated);
      && (r.Some? ==> forall i | 0 <= i < |r.value.data| :: IdOf(r.value.data[i]) == IdOf(cached.value.data[i]))
      && (r.Some? ==> forall e | e in r.value.data && IdOf(e) == IdOf(updated) :: e == updated)
      && ReplaceUpdated(r, updated) == r
  {
    var r := ReplaceUpdated(cached, updated);
    if r.Some? {
      var again := ReplaceUpdated(r, updated);
      assert again.value.data == r.value.data;
    }
  }

  /** The result of an AI summary run: each summary is a string, null, or absent. */
  datatype SummaryResult = SummaryResult(summaryShort: JsValue, summaryLong: JsValue)

  /** `if (result !== undefined) next = result ?? null`: a defined result is written as it is. */
  function SummaryField(current: JsValue, result: JsValue): (r: JsValue)
    ensures result == Undefined ==> r == current
    ensures result != Undefined ==> r == result
  {
    if result != Undefined then (if Nullish(result) then Null else result) else current
  }

  /** A copy of the record with the summaries of the result written over it. */
  function WithSummary(entry: ProjectRecords.ProjectSummary, result: SummaryResult): (r: ProjectRecords.ProjectSummary)
    ensures r.other == entry.other && r.tags == entry.tags && r.videoLinks == entry.videoLinks
    ensures r.summaryShort == if result.summaryShort == Undefined then entry.summaryShort else result.summaryShort
    ensures r.summaryLong == if result.summaryLong == Undefined then entry.summaryLong else result.summaryLong
  {
    entry.(summaryShort := SummaryField(entry.summaryShort, result.summaryShort),
           summaryLong := SummaryField(entry.summaryLong, result.summaryLong))
  }

  /** The detail updater of the summary mutation: an absent record stays absent. */
  function PatchSummaryDetail(existing: Option<ProjectRecords.ProjectSummary>, result: SummaryResult)
    : (r: Option<ProjectRecords.ProjectSummary>)
    ensures r.Some? <==> existing.Some?
    ensures r.Some? ==> r.value == WithSummary(existing.value, result)
  {
    if existing.None? then existing else Some(WithSummary(existing.value, result))
  }

  /**
   * The list updater of the summary mutation: an absent page stays absent;
   * entries with the project's id receive the summaries, the others are kept.
   */
  function PatchSummaryList(cached: Option<ListPage>, id: string, result: SummaryResult): (r: Option<ListPage>)
    ensures r.Some? <==> cached.Some?
    ensures r.Some? ==> r.value.other == cached.value.other && |r.value.data| == |cached.value.data|
    ensures r.Some? ==> forall i | 0 <= i < |r.value.data| ::
      && (IdOf(cached.value.data[i]) == Str(id) ==> r.value.data[i] == WithSummary(cached.value.data[i], result))
      && (IdOf(cached.value.data[i]) != Str(id) ==> r.value.data[i] == cached.value.data[i])
  {
    if cached.None? then cached
    else
      var data := cached.value.data;
      Some(cached.value.(data := seq(|data|, i requires 0 <= i < |data| =>
        if IdOf(data[i]) != Str(id) then data[i] else WithSummary(data[i], result))))
  }

  /** Writing the same summaries twice is writing them once. */
  lemma WithSummaryIdempotent(entry: ProjectRecords.ProjectSummary, result: SummaryResult)
    ensures WithSummary(WithSummary(entry, result), result) == WithSummary(entry, result)
  {
  }

  /** Applying the same summary result twice to a list page is applying it once. */
  lemma PatchSummaryListIdempotent(cached: Option<ListPage>, id: string, result: SummaryResult)
    ensures PatchSummaryList(PatchSummaryList(cached, id, result), id, result) == PatchSummaryList(cached, id, result)
  {
    var r := PatchSummaryList(cached, id, result);
    if r.Some? {
      var again := PatchSummaryList(r, id, result);
      forall i | 0 <= i < |r.value.data| ensures again.value.data[i] == r.value.data[i] {
        WithSummaryIdempotent(cached.value.data[i], result);
      }
      assert again.value.data == r.value.data;
    }
  }

  /** The cached data the mutations touch: detail records by id and every list page. */
  datatype QueryCache = QueryCache(details: map<string, ProjectRecords.ProjectSummary>, lists: seq<Option<ListPage>>)

  /** The cache update of a successful project update. */
  function OnUpdateSuccess(cache: QueryCache, id: string, updated: ProjectRecords.ProjectSummary): (r: QueryCache)
    ensures id in r.details && r.details[id] == updated
    ensures forall k | k in cache.details && k != id :: k in r.details && r.details[k] == cache.details[k]
    ensures r.details.Keys == cache.details.Keys + {id}
    ensures |r.lists| == |cache.lists|
    ensures forall i | 0 <= i < |r.lists| :: r.lists[i] == ReplaceUpdated(cache.lists[i], updated)
  {
    QueryCache(cache.details[id := updated],
      seq(|cache.lists|, i requires 0 <= i < |cache.lists| => ReplaceUpdated(cache.lists[i], updated)))
  }

  /** The cache update of a successful summary run: no entry is created. */
  function OnSummarySuccess(cache: QueryCache, id: string, result: SummaryResult): (r: QueryCache)
    ensures r.details.Keys == cache.details.Keys
    ensures id in cache.details ==> r.details[id] == WithSummary(cache.details[id], result)
    ensures forall k | k in cache.details && k != id :: r.details[k] == cache.details[k]
    ensures |r.lists| == |cache.lists|
    ensures forall i | 0 <= i < |r.lists| :: r.lists[i] == PatchSummaryList(cache.lists[i], id, result)
  {
    var detail := PatchSummaryDetail(if id in cache.details then Some(cache.details[id]) else None, result);
    QueryCache(if detail.Some? then cache.details[id := detail.value] else cache.details,
      seq(|cache.lists|, i requires 0 <= i < |cache.lists| => PatchSummaryList(cache.lists[i], id, result)))
  }
}
