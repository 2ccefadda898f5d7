/** The news screen: its search and reset handlers over component state,
    the export selection and the payloads its row controls send. */
module NewsPage {
  import opened Wrappers
  import opened AuthTypes
  import opened Seqs

  /** `FilterOptionsType`: the title typed into the search box, if any. */
  datatype FilterOptions = FilterOptions(title: Option<string>)

  const TitleParam := "&title="

  /** The query suffix a search sends: the raw title after `&title=` when a
      non-empty title was typed (no encoding), otherwise nothing. */
  function SearchQuery(filters: Option<FilterOptions>): (q: string)
    ensures q == "" <==> filters.None? || filters.value.title.None? || filters.value.title.value == ""
    ensures q != "" ==> q == TitleParam + filters.value.title.value
  {
    if filters.Some? && filters.value.title.Some? && filters.value.title.value != "" then
      TitleParam + filters.value.title.value
    else ""
  }

  /** The reset button is disabled exactly while no search has been applied;
      a search that sent the empty query still enables it. */
  predicate ResetDisabled(options: Option<string>)
    ensures ResetDisabled(options) <==> options.None?
    ensures options == Some("") ==> !ResetDisabled(options)
  {
    options.None?
  }

  /** The body the list query settles with, as the screen reads it: the
      table shows `results` and pages by `totalPages`, while the export reads
      a nested `data.results`. */
  datatype NewsList = NewsList(results: Option<seq<News>>, totalPages: Option<int>, data: Option<NestedNewsList>)

  datatype NestedNewsList = NestedNewsList(results: Option<seq<News>>)

  /** `query.data?.results ?? []`: the rows the table shows. */
  function TableRows(body: Option<NewsList>): (rows: seq<News>)
    ensures body.None? || body.value.results.None? ==> rows == []
    ensures forall x :: x in rows ==> body.Some? && body.value.results.Some? && x in body.value.results.value
  {
    if body.Some? && body.value.results.Some? then body.value.results.value else []
  }

  /** `query.data?.data?.results`: the rows the export filters, none when absent. */
  function ExportSource(body: Option<NewsList>): seq<News>
  {
    if body.Some? && body.value.data.Some? && body.value.data.value.results.Some? then
      body.value.data.value.results.value
    else []
  }

  /** The rows handed to the CSV export: those of the nested results whose id
      is a key of the row selection, in their original order; none when the
      body has no nested `data`, whatever the table shows. */
  function ExportRows(body: Option<NewsList>, rowSelection: map<string, bool>): (rows: seq<News>)
    ensures body.None? || body.value.data.None? ==> rows == []
    ensures forall x :: x in rows ==> x.id in rowSelection && x in ExportSource(body)
  {
    Filter(ExportSource(body), (item: News) => item.id in rowSelection.Keys)
  }

  /** A nested result is exported exactly when its id is selected. */
  lemma ExportedExactly(body: Option<NewsList>, rowSelection: map<string, bool>, x: News)
    ensures x in ExportRows(body, rowSelection) <==> x in ExportSource(body) && x.id in rowSelection
  {
    FilterMember(ExportSource(body), (item: News) => item.id in rowSelection.Keys, x);
  }

  /** Exporting keeps the results' order: when one body's nested results are
      those of two others one after the other, so is its export. */
  lemma ExportKeepsOrder(body: Option<NewsList>, b1: Option<NewsList>, b2: Option<NewsList>, rowSelection: map<string, bool>)
    requires ExportSource(body) == ExportSource(b1) + ExportSource(b2)
    ensures ExportRows(body, rowSelection) == ExportRows(b1, rowSelection) + ExportRows(b2, rowSelection)
  {
    FilterAppend(ExportSource(b1), ExportSource(b2), (item: News) => item.id in rowSelection.Keys);
  }

  /** The export and the table read different fields: a body of the shape the
      table reads shows its rows, yet exports none of them even when every
      one is selected. */
  lemma ExportMissesTableRows(item: News)
    ensures TableRows(Some(NewsList(Some([item]), Some(1), None))) == [item]
    ensures ExportRows(Some(NewsList(Some([item]), Some(1), None)), map[item.id := true]) == []
  {
  }

  /** The body `newsApi.update` receives from the status switch: the negated status. */
  function StatusChange(item: News): (body: (string, bool))
    ensures body.0 == item.id && body.1 != item.status
  {
    (item.id, !item.status)
  }

  /** The body `newsApi.update` receives from the banner switch: the negated flag. */
  function BannerChange(item: News): (body: (string, bool))
    ensures body.0 == item.id && body.1 != item.isBanner
  {
    (item.id, !item.isBanner)
  }

  /** The ids `newsApi.deleteNews` receives from a row's delete button. */
  function DeleteIds(id: string): (ids: seq<string>)
    ensures |ids| == 1 && ids[0] == id
  {
    [id]
  }

  /** The component state the handlers change. */
  class NewsPageState {
    var filters: Option<FilterOptions>
    var options: Option<string>
    var editItem: Option<News>
    var openForm: bool

    constructor ()
      ensures filters == None && options == None && editItem == None && !openForm
    {
      filters, options, editItem, openForm := None, None, None, false;
    }

    /** The search box's `onChange`: the typed text becomes the filter title. */
    method SetTitle(title: string)
      modifies this`filters
      ensures filters == Some(FilterOptions(Some(title)))
    {
      filters := Some(FilterOptions(Some(title)));
    }

    /** `handleSearch`: the query is built from the current filters and
      applied; afterwards the reset button is enabled. */
    method HandleSearch()
      modifies this`options
      ensures options == Some(SearchQuery(filters))
      ensures !ResetDisabled(options)
    {
      var query := "";
      if filters.Some? && filters.value.title.Some? && filters.value.title.value != "" {
        query := query + TitleParam + filters.value.title.value;
        assert query == TitleParam + filters.value.title.value;
      }
      options := Some(query);
    }

    /** `handleReset`: filters and query are cleared; the reset button is disabled. */
    method HandleReset()
      modifies this`filters, this`options
      ensures filters == None && options == None
      ensures ResetDisabled(options)
    {
      filters := None;
      options := None;
    }

    /** `handleCreate`: the form opens empty. */
    method HandleCreate()
      modifies this`editItem, this`openForm
      ensures editItem == None && openForm
    {
      editItem := None;
      openForm := true;
    }

    /** `handleEdit(item)`: the form opens on `item`. */
    method HandleEdit(item: News)
      modifies this`editItem, this`openForm
      ensures editItem == Some(item) && openForm
    {
      editItem := Some(item);
      openForm := true;
    }
  }
}
