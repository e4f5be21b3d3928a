/**
 * The tag client (src/api/tags.ts): the query record sent with the tag list
 * request and with the tag detail request. The record is a map from field
 * name to value, filled one conditional assignment at a time.
 */
module TagsApi {
  import opened Js
  import ProjectsApi

  /** TagListQuery; absent fields are Undefined (or None for `sort`). */
  datatype TagListQuery = TagListQuery(page: JsValue, pageSize: JsValue, archived: JsValue, keyword: JsValue, sort: Option<string>)

  /** The only names the list query record can hold. */
  const LIST_KEYS: set<string> := {"page", "pageSize", "archived", "keyword", "orderBy", "orderDirection"}

  /** The ordering pair is sent for a truthy sort whose field part is non-empty. */
  predicate SendsTagOrder(sort: Option<string>) {
    Present(sort) && ProjectsApi.SortKeys(sort.value, "desc").0 != ""
  }

  /**
   * buildQueryParams: `page`, `pageSize` and `keyword` only when truthy (so 0
   * and the empty keyword are left out), `archived` whenever it is defined
   * (false included), and the ordering pair split from `sort` with the
   * direction defaulting to `desc`; `sort` itself is never passed on.
   */
  method BuildTagQueryParams(query: TagListQuery) returns (params: map<string, JsValue>)
    ensures params.Keys <= LIST_KEYS
    ensures "page" in params <==> Truthy(query.page)
    ensures "page" in params ==> params["page"] == query.page
    ensures "pageSize" in params <==> Truthy(query.pageSize)
    ensures "pageSize" in params ==> params["pageSize"] == query.pageSize
    ensures "archived" in params <==> query.archived != Undefined
    ensures "archived" in params ==> params["archived"] == query.archived
    ensures "keyword" in params <==> Truthy(query.keyword)
    ensures "keyword" in params ==> params["keyword"] == query.keyword
    ensures "orderBy" in params <==> SendsTagOrder(query.sort)
    ensures "orderDirection" in params <==> SendsTagOrder(query.sort)
    ensures SendsTagOrder(query.sort) ==>
      var keys := ProjectsApi.SortKeys(query.sort.value, "desc");
      params["orderBy"] == Str(keys.0) && params["orderDirection"] == Str(keys.1)
  {
    params := map[];
    if Truthy(query.page) {
      params := params["page" := query.page];
    }
    if Truthy(query.pageSize) {
      params := params["pageSize" := query.pageSize];
    }
    if query.archived != Undefined {
      params := params["archived" := query.archived];
    }
    if Truthy(query.keyword) {
      params := params["keyword" := query.keyword];
    }
    if Present(query.sort) {
      var pieces := Split(query.sort.value, ':');
      var orderBy := pieces[0];
      var orderDirection := if |pieces| >= 2 then pieces[1] else "desc";
      if orderBy != "" {
        params := params["orderBy" := Str(orderBy)];
        params := params["orderDirection" := Str(orderDirection)];
      }
    }
  }

  /**
   * A sort without a direction is descending for tags and ascending for
   * projects; with a direction, both clients send the same pair.
   */
  lemma SortDirectionDefaults(sort: string)
    ensures ':' !in sort ==>
      ProjectsApi.SortKeys(sort, "desc") == (sort, "desc") && ProjectsApi.SortKeys(sort, "asc") == (sort, "asc")
    ensures ':' in sort ==> ProjectsApi.SortKeys(sort, "desc") == ProjectsApi.SortKeys(sort, "asc")
    ensures ProjectsApi.SortKeys(sort, "desc").0 == ProjectsApi.SortKeys(sort, "asc").0
  {
  }

  /** TagDetailQuery; absent fields are Undefined. */
  datatype TagDetailQuery = TagDetailQuery(projectsPage: JsValue, projectsPageSize: JsValue)

  /** The query record of getTag: each paging field only when given and truthy. */
  method TagDetailParams(query: Option<TagDetailQuery>) returns (params: map<string, JsValue>)
    ensures params.Keys <= {"projectsPage", "projectsPageSize"}
    ensures "projectsPage" in params <==> query.Some? && Truthy(query.value.projectsPage)
    ensures "projectsPage" in params ==> params["projectsPage"] == query.value.projectsPage
    ensures "projectsPageSize" in params <==> query.Some? && Truthy(query.value.projectsPageSize)
    ensures "projectsPageSize" in params ==> params["projectsPageSize"] == query.value.projectsPageSize
  {
    params := map[];
    if query.Some? && Truthy(query.value.projectsPage) {
      params := params["projectsPage" := query.value.projectsPage];
    }
    if query.Some? && Truthy(query.value.projectsPageSize) {
      params := params["projectsPageSize" := query.value.projectsPageSize];
    }
  }
}
