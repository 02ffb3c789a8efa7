/**
 * The parameters of the Dataverse search endpoint (`SearchParameters`):
 * a record of optional fields, three of them drawn from fixed value sets
 * and one bounded, checked when the record is built.
 */
module SearchModel {
  import opened Wrappers

  const SearchTypes: set<string> := {"dataverse", "dataset", "file"}
  const SortFields: set<string> := {"name", "date"}
  const SortOrders: set<string> := {"asc", "desc"}
  const MinPerPage := 1
  const MaxPerPage := 1000

  /** The `type` field: one result type, or a list of them. */
  datatype TypeFilter = OneType(name: string) | TypeList(names: seq<string>)

  /** All fields of the record; `q` is the only one that is not optional. */
  datatype SearchParameters = SearchParameters(
    q: string,
    searchType: Option<TypeFilter>,
    subtree: Option<string>,
    sort: Option<string>,
    order: Option<string>,
    perPage: Option<int>,
    start: Option<int>,
    showRelevance: Option<bool>,
    showFacets: Option<bool>,
    fq: Option<seq<string>>,
    showEntityIds: Option<bool>,
    geoPoint: Option<string>,
    geoRadius: Option<string>,
    metadataFields: Option<seq<string>>)
  {
    /** The constraints the record's field declarations impose. */
    predicate Valid() {
      && TypeOk(searchType)
      && (sort.None? || sort.value in SortFields)
      && (order.None? || order.value in SortOrders)
      && PerPageOk(perPage)
    }
  }

  predicate TypeOk(t: Option<TypeFilter>) {
    match t
    case None => true
    case Some(OneType(n)) => n in SearchTypes
    case Some(TypeList(ns)) => forall i :: 0 <= i < |ns| ==> ns[i] in SearchTypes
  }

  predicate PerPageOk(n: Option<int>) {
    n.None? || MinPerPage <= n.value <= MaxPerPage
  }

  /** What construction raises: the names of the offending fields, in declaration order. */
  datatype ValidationError = ValidationError(fields: seq<string>)

  /** The names of the fields of `p` that break their constraint, in declaration order. */
  function Violations(p: SearchParameters): (fields: seq<string>)
    ensures fields == [] <==> p.Valid()
    ensures "type" in fields <==> !TypeOk(p.searchType)
    ensures "sort" in fields <==> p.sort.Some? && p.sort.value !in SortFields
    ensures "order" in fields <==> p.order.Some? && p.order.value !in SortOrders
    ensures "per_page" in fields <==> p.perPage.Some? && !(1 <= p.perPage.value <= 1000)
    ensures forall i :: 0 <= i < |fields| ==> fields[i] in {"type", "sort", "order", "per_page"}
  {
    (if TypeOk(p.searchType) then [] else ["type"])
    + (if p.sort.None? || p.sort.value in SortFields then [] else ["sort"])
    + (if p.order.None? || p.order.value in SortOrders then [] else ["order"])
    + (if PerPageOk(p.perPage) then [] else ["per_page"])
  }

  /**
   * `SearchParameters(**kwargs)`: every field defaults to absent except `q`,
   * which defaults to "*"; the record is returned when every field meets
   * its constraint and a validation error otherwise.
   */
  function NewSearchParameters(
    q: string := "*",
    searchType: Option<TypeFilter> := None,
    subtree: Option<string> := None,
    sort: Option<string> := None,
    order: Option<string> := None,
    perPage: Option<int> := None,
    start: Option<int> := None,
    showRelevance: Option<bool> := None,
    showFacets: Option<bool> := None,
    fq: Option<seq<string>> := None,
    showEntityIds: Option<bool> := None,
    geoPoint: Option<string> := None,
    geoRadius: Option<string> := None,
    metadataFields: Option<seq<string>> := None): (r: Result<SearchParameters, ValidationError>)
    ensures r.Success? <==>
      && TypeOk(searchType)
      && (sort.None? || sort.value in SortFields)
      && (order.None? || order.value in SortOrders)
      && (perPage.None? || 1 <= perPage.value <= 1000)
    ensures r.Success? ==> r.value.Valid()
    ensures r.Success? ==>
      && r.value.q == q && r.value.searchType == searchType && r.value.subtree == subtree
      && r.value.sort == sort && r.value.order == order && r.value.perPage == perPage
      && r.value.start == start && r.value.showRelevance == showRelevance
      && r.value.showFacets == showFacets && r.value.fq == fq
      && r.value.showEntityIds == showEntityIds && r.value.geoPoint == geoPoint
      && r.value.geoRadius == geoRadius && r.value.metadataFields == metadataFields
    ensures r.Failure? ==> r.error.fields != []
    ensures r.Failure? ==>
      r.error.fields == Violations(SearchParameters(q, searchType, subtree, sort, order, perPage, start,
                                                    showRelevance, showFacets, fq, showEntityIds,
                                                    geoPoint, geoRadius, metadataFields))
  {
    var p := SearchParameters(q, searchType, subtree, sort, order, perPage, start,
      showRelevance, showFacets, fq, showEntityIds, geoPoint, geoRadius, metadataFields);
    var errors := Violations(p);
    if errors == [] then Success(p) else Failure(ValidationError(errors))
  }

  /** `SearchParameters()`: `q` is "*" and every other field is absent. */
  lemma DefaultParameters()
    ensures NewSearchParameters() ==
      Success(SearchParameters("*", None, None, None, None, None, None, None, None, None, None, None, None, None))
  {
  }

  /** The page size is accepted exactly on the closed range [1, 1000]. */
  lemma PerPageRange(n: int)
    ensures NewSearchParameters(perPage := Some(n)).Success? <==> 1 <= n <= 1000
    ensures NewSearchParameters(perPage := Some(n)).Failure? ==>
      NewSearchParameters(perPage := Some(n)).error.fields == ["per_page"]
  {
  }

  /** A list of result types is accepted exactly when each entry is a known type. */
  lemma TypeListAccepted(names: seq<string>)
    ensures NewSearchParameters(searchType := Some(TypeList(names))).Success? <==>
      forall i :: 0 <= i < |names| ==> names[i] in {"dataverse", "dataset", "file"}
  {
  }
}
