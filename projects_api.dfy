/**
 * The project list client (src/api/projects.ts): the search parameters built
 * from a list query, and the cleaning of project records and of the language
 * list received from the server.
 *
 * Search parameters are an ordered list of (key, text) pairs, where a key may
 * repeat. Keys are the datatype `Key`; `KeyName` gives the name written on the
 * wire, and `Extra(name)` stands for a field outside the known ones, passed
 * through under its own name.
 */
module ProjectsApi {
  import opened Js

  datatype Key =
    | Page | PageSize | Keyword | Language | Languages | Favorite | Pinned | Archived | TagNames
    | StarsMin | StarsMax | ForksMin | ForksMax
    | CreatedAtStart | CreatedAtEnd | UpdatedAtStart | UpdatedAtEnd | LastCommitStart | LastCommitEnd
    | OrderBy | OrderDirection
    | Extra(name: string)

  function KeyName(k: Key): string {
    match k
    case Page => "page"
    case PageSize => "pageSize"
    case Keyword => "keyword"
    case Language => "language"
    case Languages => "languages"
    case Favorite => "favorite"
    case Pinned => "pinned"
    case Archived => "archived"
    case TagNames => "tagNames"
    case StarsMin => "starsMin"
    case StarsMax => "starsMax"
    case ForksMin => "forksMin"
    case ForksMax => "forksMax"
    case CreatedAtStart => "createdAtStart"
    case CreatedAtEnd => "createdAtEnd"
    case UpdatedAtStart => "updatedAtStart"
    case UpdatedAtEnd => "updatedAtEnd"
    case LastCommitStart => "lastCommitStart"
    case LastCommitEnd => "lastCommitEnd"
    case OrderBy => "orderBy"
    case OrderDirection => "orderDirection"
    case Extra(name) => name
  }

  /**
   * The key written under `name` on the wire: a known name, or a remaining
   * field. The known names are told apart by their first letter, then in full.
   */
  function NamedKey(name: string): Key {
    if name == [] then Extra(name)
    else match name[0]
      case 'p' =>
        if name == "page" then Page else if name == "pageSize" then PageSize
        else if name == "pinned" then Pinned else Extra(name)
      case 'k' => if name == "keyword" then Keyword else Extra(name)
      case 'l' =>
        if name == "language" then Language else if name == "languages" then Languages
        else if name == "lastCommitStart" then LastCommitStart
        else if name == "lastCommitEnd" then LastCommitEnd else Extra(name)
      case 'f' =>
        if name == "favorite" then Favorite else if name == "forksMin" then ForksMin
        else if name == "forksMax" then ForksMax else Extra(name)
      case 'a' => if name == "archived" then Archived else Extra(name)
      case 't' => if name == "tagNames" then TagNames else Extra(name)
      case 's' =>
        if name == "starsMin" then StarsMin else if name == "starsMax" then StarsMax else Extra(name)
      case 'c' =>
        if name == "createdAtStart" then CreatedAtStart
        else if name == "createdAtEnd" then CreatedAtEnd else Extra(name)
      case 'u' =>
        if name == "updatedAtStart" then UpdatedAtStart
        else if name == "updatedAtEnd" then UpdatedAtEnd else Extra(name)
      case 'o' =>
        if name == "orderBy" then OrderBy else if name == "orderDirection" then OrderDirection else Extra(name)
      case _ => Extra(name)
  }

  /** The fields taken out of the query; every other field is passed on as it is. */
  const DESTRUCTURED: set<string> := {
    "sort", "keyword", "language", "languages", "favorite", "pinned", "tagNames", "page", "pageSize",
    "archived", "starsMin", "starsMax", "forksMin", "forksMax", "createdAtStart", "createdAtEnd",
    "updatedAtStart", "updatedAtEnd", "lastCommitStart", "lastCommitEnd"}

  /**
   * The remaining fields as `Object.entries` yields them: no field taken out
   * of the query, and no name twice.
   */
  predicate RestNamesWellFormed(rest: seq<(string, RestValue)>) {
    && (forall i | 0 <= i < |rest| :: rest[i].0 !in DESTRUCTURED)
    && (forall i, j | 0 <= i < j < |rest| :: rest[i].0 != rest[j].0)
  }

  /**
   * The name on the wire identifies the key, for every key a query can
   * produce except a remaining field named like one of the ordering pair's
   * keys: those two fields are not taken out of the query, so such a field
   * is sent under the same name as the ordering pair.
   */
  lemma WireNameRoundTrip(k: Key)
    requires k.Extra? ==> k.name !in DESTRUCTURED
    ensures k.Extra? && k.name in {"orderBy", "orderDirection"} ==> KeyName(k) == KeyName(NamedKey(k.name)) && NamedKey(k.name) != k
    ensures !(k.Extra? && k.name in {"orderBy", "orderDirection"}) ==> NamedKey(KeyName(k)) == k
  {
    if !k.Extra? {
      KnownNameRoundTrip(k);
    }
  }

  /** Each known key is read back from its name. */
  lemma KnownNameRoundTrip(k: Key)
    requires !k.Extra?
    ensures NamedKey(KeyName(k)) == k
  {
    match k
    case Page => assert NamedKey("page") == Page;
    case PageSize => assert NamedKey("pageSize") == PageSize;
    case Keyword => assert NamedKey("keyword") == Keyword;
    case Language => assert NamedKey("language") == Language;
    case Languages => assert NamedKey("languages") == Languages;
    case Favorite => assert NamedKey("favorite") == Favorite;
    case Pinned => assert NamedKey("pinned") == Pinned;
    case Archived => assert NamedKey("archived") == Archived;
    case TagNames => assert NamedKey("tagNames") == TagNames;
    case StarsMin => assert NamedKey("starsMin") == StarsMin;
    case StarsMax => assert NamedKey("starsMax") == StarsMax;
    case ForksMin => assert NamedKey("forksMin") == ForksMin;
    case ForksMax => assert NamedKey("forksMax") == ForksMax;
    case CreatedAtStart => assert NamedKey("createdAtStart") == CreatedAtStart;
    case CreatedAtEnd => assert NamedKey("createdAtEnd") == CreatedAtEnd;
    case UpdatedAtStart => assert NamedKey("updatedAtStart") == UpdatedAtStart;
    case UpdatedAtEnd => assert NamedKey("updatedAtEnd") == UpdatedAtEnd;
    case LastCommitStart => assert NamedKey("lastCommitStart") == LastCommitStart;
    case LastCommitEnd => assert NamedKey("lastCommitEnd") == LastCommitEnd;
    case OrderBy => assert NamedKey("orderBy") == OrderBy;
    case OrderDirection => assert NamedKey("orderDirection") == OrderDirection;
  }

  /**
   * One appended search parameter. `value` is never undefined or null; the
   * text sent is `String(value)`, that is `ToJsString(value)`.
   */
  datatype Param = Param(key: Key, value: JsValue)

  /** The value of a field outside the known ones: an array or a single value. */
  datatype RestValue = Single(v: JsValue) | Many(items: seq<JsValue>)

  /**
   * ProjectListQuery. Scalar fields hold any JavaScript value (Undefined when
   * absent); `languages` and `tagNames` are None when absent; `rest` lists the
   * remaining fields in enumeration order.
   */
  datatype ProjectListQuery = ProjectListQuery(
    page: JsValue, pageSize: JsValue, keyword: JsValue,
    language: JsValue, languages: Option<seq<JsValue>>,
    favorite: JsValue, pinned: JsValue, archived: JsValue,
    tagNames: Option<seq<JsValue>>,
    starsMin: JsValue, starsMax: JsValue, forksMin: JsValue, forksMax: JsValue,
    createdAtStart: JsValue, createdAtEnd: JsValue, updatedAtStart: JsValue, updatedAtEnd: JsValue,
    lastCommitStart: JsValue, lastCommitEnd: JsValue,
    rest: seq<(string, RestValue)>,
    sort: Option<string>)

  /** `array?.length` is truthy. */
  predicate HasItems(a: Option<seq<JsValue>>) {
    a.Some? && |a.value| > 0
  }

  /** `append(key, value)`: nothing for undefined or null, else the value as text. */
  function Emit(key: Key, v: JsValue): seq<Param> {
    if Nullish(v) then [] else [Param(key, v)]
  }

  /** One `append` per element, in order. */
  function EmitEach(key: Key, items: seq<JsValue>): seq<Param> {
    if items == [] then [] else EmitEach(key, items[..|items| - 1]) + Emit(key, items[|items| - 1])
  }

  /** One entry of the remaining fields: arrays expand, other values are appended once. */
  function EmitEntry(entry: (string, RestValue)): seq<Param> {
    match entry.1
    case Many(items) => EmitEach(Extra(entry.0), items)
    case Single(v) => Emit(Extra(entry.0), v)
  }

  function EmitRest(rest: seq<(string, RestValue)>): seq<Param> {
    if rest == [] then [] else EmitRest(rest[..|rest| - 1]) + EmitEntry(rest[|rest| - 1])
  }

  /** `const [orderBy = '', orderDirection = 'asc'] = sort.split(':')` */
  function SortKeys(sort: string, defaultDirection: string): (string, string) {
    var pieces := Split(sort, ':');
    (pieces[0], if |pieces| >= 2 then pieces[1] else defaultDirection)
  }

  /** The ordering pair is sent only for a truthy sort whose field part is non-empty. */
  predicate SendsOrder(sort: Option<string>) {
    Present(sort) && SortKeys(sort.value, "asc").0 != ""
  }

  /** The ordering pair `orderBy`, `orderDirection`, or nothing. */
  function OrderParams(sort: Option<string>): seq<Param> {
    if SendsOrder(sort) then
      var keys := SortKeys(sort.value, "asc");
      Emit(OrderBy, Str(keys.0)) + Emit(OrderDirection, Str(keys.1))
    else []
  }

  /** `array?.length` sections: one `append` per element, only for a non-empty array. */
  function ArrayParams(key: Key, a: Option<seq<JsValue>>): seq<Param> {
    if HasItems(a) then EmitEach(key, a.value) else []
  }

  /** The number of sections the parameter list is appended in. */
  const SECTIONS: nat := 21

  /**
   * The sections of the parameter list, in the order they are appended:
   * paging and keyword, language(s), flags, tags, the ten range bounds, the
   * remaining fields, ordering. (`favorite`, `pinned` and `archived` are
   * guarded by `!== undefined` before an `append` that skips null anyway.)
   */
  function Section(q: ProjectListQuery, i: nat): seq<Param> {
    match i
    case 0 => Emit(Page, q.page)
    case 1 => Emit(PageSize, q.pageSize)
    case 2 => Emit(Keyword, q.keyword)
    case 3 => if !HasItems(q.languages) && Truthy(q.language) then Emit(Language, q.language) else []
    case 4 => ArrayParams(Languages, q.languages)
    case 5 => Emit(Favorite, q.favorite)
    case 6 => Emit(Pinned, q.pinned)
    case 7 => Emit(Archived, q.archived)
    case 8 => ArrayParams(TagNames, q.tagNames)
    case 9 => Emit(StarsMin, q.starsMin)
    case 10 => Emit(StarsMax, q.starsMax)
    case 11 => Emit(ForksMin, q.forksMin)
    case 12 => Emit(ForksMax, q.forksMax)
    case 13 => Emit(CreatedAtStart, q.createdAtStart)
    case 14 => Emit(CreatedAtEnd, q.createdAtEnd)
    case 15 => Emit(UpdatedAtStart, q.updatedAtStart)
    case 16 => Emit(UpdatedAtEnd, q.updatedAtEnd)
    case 17 => Emit(LastCommitStart, q.lastCommitStart)
    case 18 => Emit(LastCommitEnd, q.lastCommitEnd)
    case 19 => EmitRest(q.rest)
    case 20 => OrderParams(q.sort)
    case _ => []
  }

  /** The sections `f(0)`, ..., `f(n - 1)`, concatenated. */
  function Concat(f: nat -> seq<Param>, n: nat): seq<Param> {
    if n == 0 then [] else Concat(f, n - 1) + f(n - 1)
  }

  function SectionsOf(q: ProjectListQuery): nat -> seq<Param> {
    (i: nat) => Section(q, i)
  }

  /** The first `n` sections. */
  function Prefix(q: ProjectListQuery, n: nat): seq<Param> {
    Concat(SectionsOf(q), n)
  }

  /** The whole parameter list. */
  function QueryParams(q: ProjectListQuery): seq<Param> {
    Prefix(q, SECTIONS)
  }

  /** Each concatenation of the first sections is a prefix of every longer one. */
  lemma {:induction false} ConcatGrows(f: nat -> seq<Param>, i: nat, j: nat)
    requires i <= j
    ensures Concat(f, i) <= Concat(f, j)
    decreases j
  {
    if i < j {
      ConcatGrows(f, i, j - 1);
      assert Concat(f, j) == Concat(f, j - 1) + f(j - 1);
    }
  }

  /** Within the first `n` sections, section `i` follows the sections before it. */
  lemma {:induction false} ConcatPlaces(f: nat -> seq<Param>, i: nat, n: nat)
    requires i < n
    ensures |Concat(f, i + 1)| <= |Concat(f, n)|
    ensures Concat(f, n)[|Concat(f, i)|..|Concat(f, i + 1)|] == f(i)
  {
    ConcatGrows(f, i + 1, n);
    var before, here := Concat(f, i), f(i);
    assert Concat(f, i + 1) == before + here;
    assert Concat(f, n)[..|before + here|] == before + here;
    assert (before + here)[|before|..] == here;
  }

  /**
   * The sections are sent in their fixed order: within the first `n`
   * sections (all of them, `QueryParams(q)`, when `n` is `SECTIONS`), section
   * `i` occupies the positions after the sections before it, so every
   * parameter of a section precedes every parameter of a later one.
   * `SectionsOf(q)(i)` is `Section(q, i)`.
   */
  lemma {:induction false} SectionPlacement(q: ProjectListQuery, i: nat, j: nat, n: nat)
    requires i < j < n
    ensures |Prefix(q, i + 1)| <= |Prefix(q, j)| && |Prefix(q, j + 1)| <= |Prefix(q, n)|
    ensures Prefix(q, n)[|Prefix(q, i)|..|Prefix(q, i + 1)|] == SectionsOf(q)(i)
    ensures Prefix(q, n)[|Prefix(q, j)|..|Prefix(q, j + 1)|] == SectionsOf(q)(j)
  {
    var f := SectionsOf(q);
    ConcatGrows(f, i + 1, j);
    ConcatPlaces(f, i, n);
    ConcatPlaces(f, j, n);
  }

  /** buildQueryParams, appending to the parameter list as the source does. */
  method BuildQueryParams(q: ProjectListQuery) returns (params: seq<Param>)
    ensures params == QueryParams(q)
  {
    params := Emit(Page, q.page);
    assert params == Prefix(q, 1);
    params := params + Emit(PageSize, q.pageSize);
    assert params == Prefix(q, 2);
    params := params + Emit(Keyword, q.keyword);
    assert params == Prefix(q, 3);
    if !HasItems(q.languages) && Truthy(q.language) {
      params := params + Emit(Language, q.language);
    } else {
      assert params + Section(q, 3) == params;
    }
    assert params == Prefix(q, 4);
    if HasItems(q.languages) {
      params := AppendEach(params, Languages, q.languages.value);
    } else {
      assert params + Section(q, 4) == params;
    }
    assert params == Prefix(q, 5);
    params := params + Emit(Favorite, q.favorite);
    assert params == Prefix(q, 6);
    params := params + Emit(Pinned, q.pinned);
    assert params == Prefix(q, 7);
    params := params + Emit(Archived, q.archived);
    assert params == Prefix(q, 8);
    if HasItems(q.tagNames) {
      params := AppendEach(params, TagNames, q.tagNames.value);
    } else {
      assert params + Section(q, 8) == params;
    }
    assert params == Prefix(q, 9);
    params := params + Emit(StarsMin, q.starsMin);
    assert params == Prefix(q, 10);
    params := params + Emit(StarsMax, q.starsMax);
    assert params == Prefix(q, 11);
    params := params + Emit(ForksMin, q.forksMin);
    assert params == Prefix(q, 12);
    params := params + Emit(ForksMax, q.forksMax);
    assert params == Prefix(q, 13);
    params := params + Emit(CreatedAtStart, q.createdAtStart);
    assert params == Prefix(q, 14);
    params := params + Emit(CreatedAtEnd, q.createdAtEnd);
    assert params == Prefix(q, 15);
    params := params + Emit(UpdatedAtStart, q.updatedAtStart);
    assert params == Prefix(q, 16);
    params := params + Emit(UpdatedAtEnd, q.updatedAtEnd);
    assert params == Prefix(q, 17);
    params := params + Emit(LastCommitStart, q.lastCommitStart);
    assert params == Prefix(q, 18);
    params := params + Emit(LastCommitEnd, q.lastCommitEnd);
    assert params == Prefix(q, 19);
    params := AppendRest(params, q.rest);
    assert params == Prefix(q, 20);
    params := AppendOrder(params, q.sort);
  }

  /** The `if (sort)` block: the ordering pair, for a sort whose field part is non-empty. */
  method AppendOrder(params: seq<Param>, sort: Option<string>) returns (r: seq<Param>)
    ensures r == params + OrderParams(sort)
  {
    r := params;
    if Present(sort) {
      var pieces := Split(sort.value, ':');
      var orderBy := pieces[0];
      var direction := if |pieces| >= 2 then pieces[1] else "asc";
      if orderBy != "" {
        r := r + Emit(OrderBy, Str(orderBy));
        r := r + Emit(OrderDirection, Str(direction));
      }
    }
  }

  /** `Object.entries(rest).forEach(...)`: each remaining field, arrays expanded. */
  method AppendRest(params: seq<Param>, rest: seq<(string, RestValue)>) returns (r: seq<Param>)
    ensures r == params + EmitRest(rest)
  {
    r := params;
    for i := 0 to |rest|
      invariant r == params + EmitRest(rest[..i])
    {
      EmitRestStep(rest, i);
      ghost var before := EmitRest(rest[..i]);
      r := AppendEntry(r, rest[i]);
      assert r == params + (before + EmitEntry(rest[i]));
    }
    assert rest[..|rest|] == rest;
  }

  lemma EmitRestStep(rest: seq<(string, RestValue)>, i: nat)
    requires i < |rest|
    ensures EmitRest(rest[..i + 1]) == EmitRest(rest[..i]) + EmitEntry(rest[i])
  {
    assert rest[..i + 1][..i] == rest[..i];
  }

  /** One entry of the remaining fields: an array is appended element by element. */
  method AppendEntry(params: seq<Param>, entry: (string, RestValue)) returns (r: seq<Param>)
    ensures r == params + EmitEntry(entry)
  {
    var (key, value) := entry;
    match value {
      case Many(items) =>
        r := AppendEach(params, Extra(key), items);
      case Single(v) =>
        r := params + Emit(Extra(key), v);
    }
  }

  /** The `for ... of` loop appending every element under one key. */
  method AppendEach(params: seq<Param>, key: Key, items: seq<JsValue>) returns (r: seq<Param>)
    ensures r == params + EmitEach(key, items)
  {
    r := params;
    for i := 0 to |items|
      invariant r == params + EmitEach(key, items[..i])
    {
      EmitEachStep(key, items, i);
      r := r + Emit(key, items[i]);
    }
    assert items[..|items|] == items;
  }

  lemma EmitEachStep(key: Key, items: seq<JsValue>, i: nat)
    requires i < |items|
    ensures EmitEach(key, items[..i + 1]) == EmitEach(key, items[..i]) + Emit(key, items[i])
  {
    assert items[..i + 1][..i] == items[..i];
  }

  /** `searchParams.getAll(key)` on the model's keys. */
  function GetAll(params: seq<Param>, key: Key): seq<JsValue> {
    if params == [] then []
    else GetAll(params[..|params| - 1], key) + (if params[|params| - 1].key == key then [params[|params| - 1].value] else [])
  }

  lemma {:induction false} GetAllAppend(a: seq<Param>, b: seq<Param>, key: Key)
    ensures GetAll(a + b, key) == GetAll(a, key) + GetAll(b, key)
    decreases |b|
  {
    if b == [] {
      assert a + b == a;
    } else {
      var b' := b[..|b| - 1];
      assert (a + b)[..|a + b| - 1] == a + b';
      GetAllAppend(a, b', key);
    }
  }

  /** The texts of the values `append` keeps: every one that is not undefined or null. */
  function Values(items: seq<JsValue>): seq<JsValue> {
    if items == [] then []
    else Values(items[..|items| - 1]) + (if Nullish(items[|items| - 1]) then [] else [items[|items| - 1]])
  }

  /** What `append` produces under `key`, read back under any key. */
  function Emitted(v: JsValue): seq<JsValue> {
    if Nullish(v) then [] else [v]
  }

  lemma GetAllEmit(key: Key, v: JsValue, k: Key)
    ensures GetAll(Emit(key, v), k) == if k == key then Emitted(v) else []
  {
    if !Nullish(v) {
      assert Emit(key, v)[..0] == [];
    }
  }

  lemma {:induction false} GetAllEmitEach(key: Key, items: seq<JsValue>, k: Key)
    ensures GetAll(EmitEach(key, items), k) == if k == key then Values(items) else []
  {
    if items != [] {
      var init := items[..|items| - 1];
      GetAllEmitEach(key, init, k);
      GetAllAppend(EmitEach(key, init), Emit(key, items[|items| - 1]), k);
      GetAllEmit(key, items[|items| - 1], k);
    }
  }

  /** The values of the remaining fields named `name`, in enumeration order. */
  function RestValues(rest: seq<(string, RestValue)>, name: string): seq<JsValue> {
    if rest == [] then []
    else
      var last := rest[|rest| - 1];
      RestValues(rest[..|rest| - 1], name)
      + (if last.0 != name then []
         else match last.1
              case Many(items) => Values(items)
              case Single(v) => Emitted(v))
  }

  lemma {:induction false} GetAllEmitRest(rest: seq<(string, RestValue)>, k: Key)
    ensures GetAll(EmitRest(rest), k) == if k.Extra? then RestValues(rest, k.name) else []
  {
    if rest != [] {
      var init := rest[..|rest| - 1];
      var last := rest[|rest| - 1];
      GetAllEmitRest(init, k);
      GetAllAppend(EmitRest(init), EmitEntry(last), k);
      match last.1 {
        case Many(items) => GetAllEmitEach(Extra(last.0), items, k);
        case Single(v) => GetAllEmit(Extra(last.0), v, k);
      }
    }
  }

  /**
   * The values sent under each key, read directly off the query: scalar
   * fields when not undefined or null; `language` only when truthy and
   * `languages` is empty or absent; each element of a non-empty array, in
   * order; every remaining field under its own name, arrays expanded; and the
   * ordering pair only for a sort whose field part is non-empty.
   */
  function Expected(q: ProjectListQuery, k: Key): seq<JsValue> {
    match k
    case Page => Emitted(q.page)
    case PageSize => Emitted(q.pageSize)
    case Keyword => Emitted(q.keyword)
    case Language => if !HasItems(q.languages) && Truthy(q.language) then [q.language] else []
    case Languages => if HasItems(q.languages) then Values(q.languages.value) else []
    case Favorite => Emitted(q.favorite)
    case Pinned => Emitted(q.pinned)
    case Archived => Emitted(q.archived)
    case TagNames => if HasItems(q.tagNames) then Values(q.tagNames.value) else []
    case StarsMin => Emitted(q.starsMin)
    case StarsMax => Emitted(q.starsMax)
    case ForksMin => Emitted(q.forksMin)
    case ForksMax => Emitted(q.forksMax)
    case CreatedAtStart => Emitted(q.createdAtStart)
    case CreatedAtEnd => Emitted(q.createdAtEnd)
    case UpdatedAtStart => Emitted(q.updatedAtStart)
    case UpdatedAtEnd => Emitted(q.updatedAtEnd)
    case LastCommitStart => Emitted(q.lastCommitStart)
    case LastCommitEnd => Emitted(q.lastCommitEnd)
    case OrderBy =>
      if Present(q.sort) && SortKeys(q.sort.value, "asc").0 != "" then [Str(SortKeys(q.sort.value, "asc").0)] else []
    case OrderDirection =>
      if Present(q.sort) && SortKeys(q.sort.value, "asc").0 != "" then [Str(SortKeys(q.sort.value, "asc").1)] else []
    case Extra(name) => RestValues(q.rest, name)
  }

  lemma GetAllArrayParams(key: Key, a: Option<seq<JsValue>>, k: Key)
    ensures GetAll(ArrayParams(key, a), k) == if k == key && HasItems(a) then Values(a.value) else []
  {
    if HasItems(a) {
      GetAllEmitEach(key, a.value, k);
    }
  }

  /** The section in which the values of a key are appended. */
  function SectionOf(k: Key): (i: nat)
    ensures i < SECTIONS
  {
    match k
    case Page => 0
    case PageSize => 1
    case Keyword => 2
    case Language => 3
    case Languages => 4
    case Favorite => 5
    case Pinned => 6
    case Archived => 7
    case TagNames => 8
    case StarsMin => 9
    case StarsMax => 10
    case ForksMin => 11
    case ForksMax => 12
    case CreatedAtStart => 13
    case CreatedAtEnd => 14
    case UpdatedAtStart => 15
    case UpdatedAtEnd => 16
    case LastCommitStart => 17
    case LastCommitEnd => 18
    case Extra(_) => 19
    case OrderBy => 20
    case OrderDirection => 20
  }

  lemma GetAllOrderParams(sort: Option<string>, k: Key)
    ensures GetAll(OrderParams(sort), k) ==
      if SendsOrder(sort) && k == OrderBy then [Str(SortKeys(sort.value, "asc").0)]
      else if SendsOrder(sort) && k == OrderDirection then [Str(SortKeys(sort.value, "asc").1)]
      else []
  {
    if SendsOrder(sort) {
      var keys := SortKeys(sort.value, "asc");
      GetAllAppend(Emit(OrderBy, Str(keys.0)), Emit(OrderDirection, Str(keys.1)), k);
      GetAllEmit(OrderBy, Str(keys.0), k);
      GetAllEmit(OrderDirection, Str(keys.1), k);
    }
  }

  /** Every parameter of `params` belongs to section `i`. */
  predicate InSection(params: seq<Param>, i: nat) {
    forall j | 0 <= j < |params| :: SectionOf(params[j].key) == i
  }

  lemma {:induction false} EmitEachInSection(key: Key, items: seq<JsValue>)
    ensures InSection(EmitEach(key, items), SectionOf(key))
  {
    if items != [] {
      EmitEachInSection(key, items[..|items| - 1]);
    }
  }

  lemma {:induction false} EmitRestInSection(rest: seq<(string, RestValue)>)
    ensures InSection(EmitRest(rest), 19)
  {
    if rest != [] {
      EmitRestInSection(rest[..|rest| - 1]);
      var last := rest[|rest| - 1];
      if last.1.Many? {
        EmitEachInSection(Extra(last.0), last.1.items);
      }
    }
  }

  lemma EmitInSection(key: Key, v: JsValue)
    ensures InSection(Emit(key, v), SectionOf(key))
  {
  }

  /** Each section carries only its own keys. */
  lemma SectionKeys(q: ProjectListQuery, i: nat)
    ensures InSection(Section(q, i), i)
  {
    if i < 3 {
      PagingSectionKeys(q, i);
    } else if i < 5 {
      LanguageSectionKeys(q, i);
    } else if i < 9 {
      FlagSectionKeys(q, i);
    } else if i < 13 {
      CountSectionKeys(q, i);
    } else if i < 17 {
      DateSectionKeys(q, i);
    } else if i < 19 {
      CommitSectionKeys(q, i);
    } else if i == 19 {
      EmitRestInSection(q.rest);
    } else if i == 20 && SendsOrder(q.sort) {
      var keys := SortKeys(q.sort.value, "asc");
      EmitInSection(OrderBy, Str(keys.0));
      EmitInSection(OrderDirection, Str(keys.1));
    }
  }

  lemma PagingSectionKeys(q: ProjectListQuery, i: nat)
    requires i < 3
    ensures InSection(Section(q, i), i)
  {
    match i {
      case 0 => EmitInSection(Page, q.page);
      case 1 => EmitInSection(PageSize, q.pageSize);
      case _ => EmitInSection(Keyword, q.keyword);
    }
  }

  lemma LanguageSectionKeys(q: ProjectListQuery, i: nat)
    requires 3 <= i < 5
    ensures InSection(Section(q, i), i)
  {
    match i {
      case 3 => EmitInSection(Language, q.language);
      case _ => if HasItems(q.languages) { EmitEachInSection(Languages, q.languages.value); }
    }
  }

  lemma FlagSectionKeys(q: ProjectListQuery, i: nat)
    requires 5 <= i < 9
    ensures InSection(Section(q, i), i)
  {
    match i {
      case 5 => EmitInSection(Favorite, q.favorite);
      case 6 => EmitInSection(Pinned, q.pinned);
      case 7 => EmitInSection(Archived, q.archived);
      case _ => if HasItems(q.tagNames) { EmitEachInSection(TagNames, q.tagNames.value); }
    }
  }

  lemma CountSectionKeys(q: ProjectListQuery, i: nat)
    requires 9 <= i < 13
    ensures InSection(Section(q, i), i)
  {
    match i {
      case 9 => EmitInSection(StarsMin, q.starsMin);
      case 10 => EmitInSection(StarsMax, q.starsMax);
      case 11 => EmitInSection(ForksMin, q.forksMin);
      case _ => EmitInSection(ForksMax, q.forksMax);
    }
  }

  lemma DateSectionKeys(q: ProjectListQuery, i: nat)
    requires 13 <= i < 17
    ensures InSection(Section(q, i), i)
  {
    match i {
      case 13 => EmitInSection(CreatedAtStart, q.createdAtStart);
      case 14 => EmitInSection(CreatedAtEnd, q.createdAtEnd);
      case 15 => EmitInSection(UpdatedAtStart, q.updatedAtStart);
      case _ => EmitInSection(UpdatedAtEnd, q.updatedAtEnd);
    }
  }

  lemma CommitSectionKeys(q: ProjectListQuery, i: nat)
    requires 17 <= i < 19
    ensures InSection(Section(q, i), i)
  {
    match i {
      case 17 => EmitInSection(LastCommitStart, q.lastCommitStart);
      case _ => EmitInSection(LastCommitEnd, q.lastCommitEnd);
    }
  }

  /** A list whose parameters all belong to another section carries nothing under `k`. */
  lemma {:induction false} OtherSection(params: seq<Param>, i: nat, k: Key)
    requires InSection(params, i) && i != SectionOf(k)
    ensures GetAll(params, k) == []
  {
    if params != [] {
      OtherSection(params[..|params| - 1], i, k);
    }
  }

  /** The section of a key carries exactly the expected values of that key. */
  lemma OwnSection(q: ProjectListQuery, k: Key)
    ensures GetAll(Section(q, SectionOf(k)), k) == Expected(q, k)
  {
    if SectionOf(k) < 3 {
      OwnPagingSection(q, k);
    } else if SectionOf(k) < 5 {
      OwnLanguageSection(q, k);
    } else if SectionOf(k) < 9 {
      OwnFlagSection(q, k);
    } else if SectionOf(k) < 13 {
      OwnCountSection(q, k);
    } else if SectionOf(k) < 17 {
      OwnDateSection(q, k);
    } else if SectionOf(k) < 19 {
      OwnCommitSection(q, k);
    } else if k.Extra? {
      OwnRestSection(q, k.name);
    } else {
      OwnOrderSection(q, k);
    }
  }

  lemma OwnPagingSection(q: ProjectListQuery, k: Key)
    requires SectionOf(k) < 3
    ensures GetAll(Section(q, SectionOf(k)), k) == Expected(q, k)
  {
    match k {
      case Page => GetAllEmit(Page, q.page, k);
      case PageSize => GetAllEmit(PageSize, q.pageSize, k);
      case Keyword => GetAllEmit(Keyword, q.keyword, k);
    }
  }

  lemma OwnLanguageSection(q: ProjectListQuery, k: Key)
    requires 3 <= SectionOf(k) < 5
    ensures GetAll(Section(q, SectionOf(k)), k) == Expected(q, k)
  {
    match k {
      case Language => GetAllEmit(Language, q.language, k);
      case Languages => GetAllArrayParams(Languages, q.languages, k);
    }
  }

  lemma OwnFlagSection(q: ProjectListQuery, k: Key)
    requires 5 <= SectionOf(k) < 9
    ensures GetAll(Section(q, SectionOf(k)), k) == Expected(q, k)
  {
    match k {
      case Favorite => GetAllEmit(Favorite, q.favorite, k);
      case Pinned => GetAllEmit(Pinned, q.pinned, k);
      case Archived => GetAllEmit(Archived, q.archived, k);
      case TagNames => GetAllArrayParams(TagNames, q.tagNames, k);
    }
  }

  lemma OwnCountSection(q: ProjectListQuery, k: Key)
    requires 9 <= SectionOf(k) < 13
    ensures GetAll(Section(q, SectionOf(k)), k) == Expected(q, k)
  {
    match k {
      case StarsMin => GetAllEmit(StarsMin, q.starsMin, k);
      case StarsMax => GetAllEmit(StarsMax, q.starsMax, k);
      case ForksMin => GetAllEmit(ForksMin, q.forksMin, k);
      case ForksMax => GetAllEmit(ForksMax, q.forksMax, k);
    }
  }

  lemma OwnDateSection(q: ProjectListQuery, k: Key)
    requires 13 <= SectionOf(k) < 17
    ensures GetAll(Section(q, SectionOf(k)), k) == Expected(q, k)
  {
    match k {
      case CreatedAtStart => GetAllEmit(CreatedAtStart, q.createdAtStart, k);
      case CreatedAtEnd => GetAllEmit(CreatedAtEnd, q.createdAtEnd, k);
      case UpdatedAtStart => GetAllEmit(UpdatedAtStart, q.updatedAtStart, k);
      case UpdatedAtEnd => GetAllEmit(UpdatedAtEnd, q.updatedAtEnd, k);
    }
  }

  lemma OwnCommitSection(q: ProjectListQuery, k: Key)
    requires 17 <= SectionOf(k) < 19
    ensures GetAll(Section(q, SectionOf(k)), k) == Expected(q, k)
  {
    match k {
      case LastCommitStart => GetAllEmit(LastCommitStart, q.lastCommitStart, k);
      case LastCommitEnd => GetAllEmit(LastCommitEnd, q.lastCommitEnd, k);
    }
  }

  lemma OwnOrderSection(q: ProjectListQuery, k: Key)
    requires k == OrderBy || k == OrderDirection
    ensures GetAll(Section(q, 20), k) == Expected(q, k)
  {
    OrderSection(q);
    GetAllOrderParams(q.sort, k);
  }

  lemma OrderSection(q: ProjectListQuery)
    ensures Section(q, 20) == OrderParams(q.sort)
  {
  }

  lemma OwnRestSection(q: ProjectListQuery, name: string)
    ensures GetAll(Section(q, 19), Extra(name)) == RestValues(q.rest, name)
  {
    RestSection(q);
    GetAllEmitRest(q.rest, Extra(name));
  }

  lemma RestSection(q: ProjectListQuery)
    ensures Section(q, 19) == EmitRest(q.rest)
  {
  }

  /** Sections that carry nothing under `k` concatenate to a list that carries nothing under `k`. */
  lemma {:induction false} ConcatNone(f: nat -> seq<Param>, n: nat, k: Key)
    requires forall i: nat | i < n :: GetAll(f(i), k) == []
    ensures GetAll(Concat(f, n), k) == []
  {
    if n > 0 {
      ConcatNone(f, n - 1, k);
      GetAllAppend(Concat(f, n - 1), f(n - 1), k);
    }
  }

  /**
   * When a single section `owner` among the first `n` carries values under
   * `k`, reading `k` off their concatenation gives exactly those values.
   */
  lemma {:induction false} ConcatOwner(f: nat -> seq<Param>, n: nat, k: Key, owner: nat)
    requires owner < n
    requires forall i: nat | i < n && i != owner :: GetAll(f(i), k) == []
    ensures GetAll(Concat(f, n), k) == GetAll(f(owner), k)
  {
    var front, last := Concat(f, n - 1), f(n - 1);
    assert Concat(f, n) == front + last;
    GetAllAppend(front, last, k);
    if n - 1 == owner {
      ConcatNone(f, n - 1, k);
      EmptyLeft(GetAll(front, k), GetAll(last, k));
    } else {
      ConcatOwner(f, n - 1, k, owner);
      EmptyRight(GetAll(front, k), GetAll(last, k));
    }
  }

  lemma EmptyLeft(a: seq<JsValue>, b: seq<JsValue>)
    requires a == []
    ensures a + b == b
  {
  }

  lemma EmptyRight(a: seq<JsValue>, b: seq<JsValue>)
    requires b == []
    ensures a + b == a
  {
  }

  /**
   * The search parameters carry exactly the expected values under every key,
   * in order: nothing is lost, duplicated or sent under another key.
   */
  lemma QueryParamsByKey(q: ProjectListQuery, k: Key)
    ensures GetAll(QueryParams(q), k) == Expected(q, k)
  {
    forall i: nat | i < SECTIONS && i != SectionOf(k)
      ensures GetAll(SectionsOf(q)(i), k) == []
    {
      SectionKeys(q, i);
      OtherSection(Section(q, i), i, k);
    }
    ConcatOwner(SectionsOf(q), SECTIONS, k, SectionOf(k));
    OwnSection(q, k);
  }
}
