/**
  `ui/datatable`: the paging and sorting state of a data table and the rules
  that disable its buttons.

  The options object lives on the table's element; `_next`, `_previous` and
  `_sortOptions` update it in place and store the same object back. Every
  query sends parameters derived from it; the model records those parameters
  instead of sending a request.
 */
module DataTable {

  /** The JavaScript values the component inspects. */
  datatype JsValue = Undefined | Null | Bool(b: bool) | Number(n: int) | Str(s: string)

  /** JavaScript truthiness, as `!!v` computes it. */
  predicate Truthy(v: JsValue) {
    match v
    case Undefined => false
    case Null => false
    case Bool(b) => b
    case Number(n) => n != 0
    case Str(s) => s != ""
  }

  datatype Option<T> = None | Some(value: T)

  /** `_.defaults` for one option: the given value, or the default when none was given. */
  function Or<T>(given: Option<T>, fallback: T): T {
    if given.Some? then given.value else fallback
  }

  // The `defaults` record.
  const DefaultStart: int := 0
  const DefaultRows: int := 25
  const DefaultPage: int := 1
  const DefaultSortBy: string := "id"
  const DefaultSortOrder: string := "asc"

  // ---------------------------------------------------------------------------
  // Sorting

  /**
    The sort order `_sortOptions` leaves. A given direction wins: `'asc'` and
    `'desc'` as they are, any other truthy value as `'asc'`, any falsy one as
    `'desc'`. With no direction, re-sorting the column already sorted
    ascending turns it descending; anything else sorts ascending.
   */
  function SortOrderAfter(sortorder: string, sortby: string, sortBy: string, asc: JsValue): (r: string)
    ensures r == "asc" || r == "desc"
  {
    if asc != Undefined then
      if asc == Str("asc") then "asc"
      else if asc == Str("desc") then "desc"
      else if Truthy(asc) then "asc"
      else "desc"
    else if sortorder == "asc" && sortby == sortBy then "desc"
    else "asc"
  }

  /** A given direction decides the order alone: ascending exactly for `'asc'` or another truthy value but `'desc'`. */
  lemma ExplicitDirection(sortorder: string, sortby: string, sortBy: string, asc: JsValue)
    requires asc != Undefined
    ensures SortOrderAfter(sortorder, sortby, sortBy, asc) == "asc" <==> asc == Str("asc") || (asc != Str("desc") && Truthy(asc))
    ensures forall o, b :: SortOrderAfter(o, b, sortBy, asc) == SortOrderAfter(sortorder, sortby, sortBy, asc)
  {
  }

  /** With no direction, the order turns descending exactly when the same column was sorted ascending. */
  lemma ToggleRule(sortorder: string, sortby: string, sortBy: string)
    ensures SortOrderAfter(sortorder, sortby, sortBy, Undefined) == "desc" <==> sortorder == "asc" && sortby == sortBy
  {
  }

  /** Clicking the same column header twice brings its order back. */
  lemma ToggleTwice(sortorder: string, column: string)
    requires sortorder == "asc" || sortorder == "desc"
    ensures SortOrderAfter(SortOrderAfter(sortorder, column, column, Undefined), column, column, Undefined) == sortorder
  {
  }

  // ---------------------------------------------------------------------------
  // Paging and the navigation buttons

  function NextPage(page: int): int {
    page + 1
  }

  /** `_previous` moves back only from a page above the first. */
  function PreviousPage(page: int): int {
    if page > 1 then page - 1 else page
  }

  /** Paging back never leaves the pages numbered from 1, and undoes paging forward. */
  lemma PagingRoundTrip(page: int)
    requires page >= 1
    ensures PreviousPage(page) >= 1
    ensures PreviousPage(NextPage(page)) == page
    ensures page > 1 ==> NextPage(PreviousPage(page)) == page
  {
  }

  /** `_render`: the backward button is disabled on page 1. */
  predicate BackwardDisabled(page: int) {
    page == 1
  }

  /** `_render`: the forward button is disabled from the last page on. */
  predicate ForwardDisabled(page: int, total: int) {
    page >= total
  }

  /**
    The buttons are disabled exactly where they would not move, when the page
    of the rendered dataset is the page of the options (the buttons read the
    dataset; `_previous` and `_next` read the options, and the two differ when
    data is injected through `options.data` or the server answers another
    page): on a page numbered from 1, backward is disabled exactly when
    `_previous` would stay put, and forward exactly when `_next` would pass the
    last page.
   */
  lemma NavigationButtons(page: int, total: int)
    requires page >= 1
    ensures BackwardDisabled(page) <==> PreviousPage(page) == page
    ensures ForwardDisabled(page, total) <==> NextPage(page) > total
  {
  }

  // ---------------------------------------------------------------------------
  // The read-only rule

  /** One entry of `dataset.readonly`: a plain value, or an object of flags per action. */
  datatype ReadOnly = Flag(value: JsValue) | ActionFlags(flags: seq<(string, JsValue)>)

  /** An action button of a row: the row's item identifier and the action's class. */
  datatype Button = Button(item: string, action: string)

  /** The entry disables the button of `action`: `true` disables all, an object the actions it maps to `true`. */
  predicate EntryDisables(entry: ReadOnly, action: string) {
    match entry
    case Flag(v) => v == Bool(true)
    case ActionFlags(flags) => (action, Bool(true)) in flags
  }

  predicate DisabledBy(readonly: seq<(string, ReadOnly)>, b: Button) {
    exists i :: 0 <= i < |readonly| && readonly[i].0 == b.item && EntryDisables(readonly[i].1, b.action)
  }

  lemma DisabledByStep(readonly: seq<(string, ReadOnly)>, i: nat, b: Button)
    requires i < |readonly|
    ensures DisabledBy(readonly[..i + 1], b)
        <==> DisabledBy(readonly[..i], b) || (readonly[i].0 == b.item && EntryDisables(readonly[i].1, b.action))
  {
    if DisabledBy(readonly[..i + 1], b) {
      var k :| 0 <= k < i + 1 && readonly[..i + 1][k].0 == b.item && EntryDisables(readonly[..i + 1][k].1, b.action);
      if k < i {
        assert readonly[..i][k] == readonly[k];
      }
    }
    if DisabledBy(readonly[..i], b) {
      var k :| 0 <= k < i && readonly[..i][k].0 == b.item && EntryDisables(readonly[..i][k].1, b.action);
      assert readonly[..i + 1][k] == readonly[k];
    }
    if readonly[i].0 == b.item && EntryDisables(readonly[i].1, b.action) {
      assert readonly[..i + 1][i] == readonly[i];
    }
  }

  /** The loop of `_render` over `dataset.readonly`: the buttons it marks disabled. */
  method DisableReadOnly(readonly: seq<(string, ReadOnly)>, buttons: set<Button>) returns (disabled: set<Button>)
    ensures disabled == set b | b in buttons && DisabledBy(readonly, b)
  {
    disabled := {};
    for i := 0 to |readonly|
      invariant disabled == set b | b in buttons && DisabledBy(readonly[..i], b)
    {
      var id := readonly[i].0;
      ghost var before := disabled;
      match readonly[i].1
      case Flag(v) =>
        if v == Bool(true) {
          disabled := disabled + set b | b in buttons && b.item == id;
        }
      case ActionFlags(flags) =>
        for j := 0 to |flags|
          invariant disabled == before + set b | b in buttons && b.item == id && (b.action, Bool(true)) in flags[..j]
        {
          var action := flags[j].0;
          if flags[j].1 == Bool(true) {
            disabled := disabled + set b | b in buttons && b.item == id && b.action == action;
          }
          assert flags[..j + 1] == flags[..j] + [flags[j]];
        }
        assert flags[..|flags|] == flags;
      forall b | b in buttons
        ensures DisabledBy(readonly[..i + 1], b) <==> DisabledBy(readonly[..i], b) || (readonly[i].0 == b.item && EntryDisables(readonly[i].1, b.action))
      {
        DisabledByStep(readonly, i, b);
      }
    }
    assert readonly[..|readonly|] == readonly;
  }

  /** An entry of `true` disables every button of its row. */
  lemma RowFlagDisablesAll(readonly: seq<(string, ReadOnly)>, item: string, action: string)
    requires (item, Flag(Bool(true))) in readonly
    ensures DisabledBy(readonly, Button(item, action))
  {
    var i :| 0 <= i < |readonly| && readonly[i] == (item, Flag(Bool(true)));
  }

  /** Only the value `true` disables: a row without such an entry or flag keeps every button enabled. */
  lemma OnlyTrueDisables(readonly: seq<(string, ReadOnly)>, b: Button)
    requires forall i :: 0 <= i < |readonly| && readonly[i].0 == b.item ==>
               readonly[i].1 != Flag(Bool(true)) && (readonly[i].1.ActionFlags? ==> (b.action, Bool(true)) !in readonly[i].1.flags)
    ensures !DisabledBy(readonly, b)
  {
  }

  // ---------------------------------------------------------------------------
  // Query parameters

  /**
    `_.merge` of flat values into `dest`: every key of `src` overrides, except
    that an `undefined` in `src` leaves an existing value of `dest` alone.
   */
  function Merge(dest: map<string, JsValue>, src: map<string, JsValue>): (r: map<string, JsValue>)
    ensures r.Keys == dest.Keys + src.Keys
  {
    map k | k in dest.Keys + src.Keys :: if k in src && (src[k] != Undefined || k !in dest) then src[k] else dest[k]
  }

  /** `_query`: the paging and sorting options, overridden by `options.params`. */
  function QueryParameters(picked: map<string, JsValue>, params: map<string, JsValue>): map<string, JsValue> {
    Merge(Merge(map[], picked), params)
  }

  /** What a query sends: every picked option and every parameter; a defined parameter wins over an option. */
  lemma QueryParametersContents(picked: map<string, JsValue>, params: map<string, JsValue>)
    ensures QueryParameters(picked, params).Keys == picked.Keys + params.Keys
    ensures forall k :: k in params && params[k] != Undefined ==> QueryParameters(picked, params)[k] == params[k]
    ensures forall k :: k in picked && (k !in params || params[k] == Undefined) ==> QueryParameters(picked, params)[k] == picked[k]
  {
    assert Merge(map[], picked) == picked;
  }

  // ---------------------------------------------------------------------------
  // The options object and the table

  class Options {
    var start: int
    var rows: int
    var page: int
    var sortby: string
    var sortorder: string
    var model: JsValue
    var actions: JsValue
    /** `options.params`; an absent object is the empty one, as `options.params || {}` reads it. */
    var params: map<string, JsValue>

    /** `init`: the given options completed by `_.defaults` with the `defaults` record. */
    constructor (start: Option<int>, rows: Option<int>, page: Option<int>, sortby: Option<string>,
                 sortorder: Option<string>, model: JsValue, actions: JsValue, params: map<string, JsValue>)
      ensures this.start == Or(start, DefaultStart) && this.rows == Or(rows, DefaultRows)
      ensures this.page == Or(page, DefaultPage)
      ensures this.sortby == Or(sortby, DefaultSortBy) && this.sortorder == Or(sortorder, DefaultSortOrder)
      ensures this.model == (if model == Undefined then Null else model)
      ensures this.actions == (if actions == Undefined then Null else actions)
      ensures this.params == params
    {
      this.start := Or(start, DefaultStart);
      this.rows := Or(rows, DefaultRows);
      this.page := Or(page, DefaultPage);
      this.sortby := Or(sortby, DefaultSortBy);
      this.sortorder := Or(sortorder, DefaultSortOrder);
      this.model := if model == Undefined then Null else model;
      this.actions := if actions == Undefined then Null else actions;
      this.params := params;
    }

    /** `_.pick(options, ['rows', 'page', 'sortby', 'sortorder'])`. */
    function Picked(): map<string, JsValue>
      reads this
    {
      map["rows" := Number(rows), "page" := Number(page), "sortby" := Str(sortby), "sortorder" := Str(sortorder)]
    }
  }

  /** A data table bound to an element: its options object and the parameters of every query it sent. */
  class Table {
    const options: Options
    var requests: seq<map<string, JsValue>>

    /** `init` on a fresh element: render the given data, or query for it. */
    constructor (options: Options, hasData: bool)
      ensures this.options == options
      ensures requests == if hasData then [] else [QueryParameters(options.Picked(), options.params)]
    {
      this.options := options;
      requests := if hasData then [] else [QueryParameters(options.Picked(), options.params)];
    }

    /** `_query`: send the current options, overridden by `params`. */
    method Query()
      modifies this
      ensures requests == old(requests) + [QueryParameters(options.Picked(), options.params)]
    {
      requests := requests + [QueryParameters(options.Picked(), options.params)];
    }

    /** `_next`: one page forward, then query. */
    method Next()
      modifies this, options
      ensures options.page == NextPage(old(options.page))
      ensures options.sortby == old(options.sortby) && options.sortorder == old(options.sortorder)
      ensures options.rows == old(options.rows) && options.start == old(options.start)
      ensures options.params == old(options.params)
      ensures options.model == old(options.model) && options.actions == old(options.actions)
      ensures requests == old(requests) + [QueryParameters(options.Picked(), options.params)]
    {
      options.page := options.page + 1;
      Query();
    }

    /** `_previous`: one page back and a query, only from a page above the first. */
    method Previous()
      modifies this, options
      ensures options.page == PreviousPage(old(options.page))
      ensures options.sortby == old(options.sortby) && options.sortorder == old(options.sortorder)
      ensures options.rows == old(options.rows) && options.start == old(options.start)
      ensures options.params == old(options.params)
      ensures options.model == old(options.model) && options.actions == old(options.actions)
      ensures requests == if old(options.page) > 1 then old(requests) + [QueryParameters(options.Picked(), options.params)]
                          else old(requests)
    {
      if options.page > 1 {
        options.page := options.page - 1;
        Query();
      }
    }

    /** `_sortOptions`: set the sort order and the sort column; the same options object is returned. */
    method SortOptions(sortBy: string, asc: JsValue) returns (o: Options)
      modifies options
      ensures o == options
      ensures options.sortorder == SortOrderAfter(old(options.sortorder), old(options.sortby), sortBy, asc)
      ensures options.sortby == sortBy
      ensures options.page == old(options.page) && options.rows == old(options.rows) && options.start == old(options.start)
      ensures options.params == old(options.params)
      ensures options.model == old(options.model) && options.actions == old(options.actions)
    {
      if asc != Undefined {
        var order: string;
        if asc == Str("asc") {
          order := "asc";
        } else if asc == Str("desc") {
          order := "desc";
        } else {
          order := if Truthy(asc) then "asc" else "desc";
        }
        options.sortorder := order;
      } else if options.sortorder == "asc" && options.sortby == sortBy {
        options.sortorder := "desc";
      } else {
        options.sortorder := "asc";
      }
      options.sortby := sortBy;
      o := options;
    }

    /** `_sort`: set the sort options, then query. */
    method Sort(sortBy: string, asc: JsValue)
      modifies this, options
      ensures options.sortorder == SortOrderAfter(old(options.sortorder), old(options.sortby), sortBy, asc)
      ensures options.sortby == sortBy
      ensures options.page == old(options.page) && options.rows == old(options.rows) && options.start == old(options.start)
      ensures options.params == old(options.params)
      ensures options.model == old(options.model) && options.actions == old(options.actions)
      ensures requests == old(requests) + [QueryParameters(options.Picked(), options.params)]
    {
      var _ := SortOptions(sortBy, asc);
      Query();
    }
  }
}
