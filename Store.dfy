/**
 * The application's in-memory state (the `quotes` and `filters` state of
 * `App` in src/components/App.tsx) and its two updates: appending a quote
 * and shallow-merging a partial filter selection.
 */
module Store {
  import opened Wrappers
  import opened Quotes

  /** The filter selection: one value per key, "all" meaning no restriction. */
  datatype Filters = Filters(service: string, price: string, rating: string)

  /** A partial filter selection: `None` is a key the update does not carry. */
  datatype FilterUpdate = FilterUpdate(
    service: Option<string>,
    price: Option<string>,
    rating: Option<string>
  )

  const All: string := "all"
  const InitialFilters: Filters := Filters(All, All, All)

  /** Number of records generated when the application starts. */
  const InitialCount: nat := 50

  /**
   * `{ ...prev, ...upd }` over the three filter keys: each key the update
   * carries takes the carried value, each absent key keeps its previous one.
   */
  function Merge(prev: Filters, upd: FilterUpdate): (f: Filters)
    ensures upd.service.Some? ==> f.service == upd.service.value
    ensures upd.service.None? ==> f.service == prev.service
    ensures upd.price.Some? ==> f.price == upd.price.value
    ensures upd.price.None? ==> f.price == prev.price
    ensures upd.rating.Some? ==> f.rating == upd.rating.value
    ensures upd.rating.None? ==> f.rating == prev.rating
  {
    Filters(if upd.service.Some? then upd.service.value else prev.service,
            if upd.price.Some? then upd.price.value else prev.price,
            if upd.rating.Some? then upd.rating.value else prev.rating)
  }

  /** The whole selection written as an update carrying every key. */
  function AsUpdate(f: Filters): (u: FilterUpdate)
  {
    FilterUpdate(Some(f.service), Some(f.price), Some(f.rating))
  }

  /** Merging the current selection into itself, or an empty update, is a no-op. */
  lemma MergeSelfIsNoop(f: Filters)
    ensures Merge(f, AsUpdate(f)) == f
    ensures Merge(f, FilterUpdate(None, None, None)) == f
  {
  }

  /** Applying the same update twice is the same as applying it once. */
  lemma MergeIdempotent(prev: Filters, upd: FilterUpdate)
    ensures Merge(Merge(prev, upd), upd) == Merge(prev, upd)
  {
  }

  /** A later merge wins on every key it carries: merging `a` then `b` is one
      merge of `a` overridden by `b`. */
  lemma MergeSequence(prev: Filters, a: FilterUpdate, b: FilterUpdate)
    ensures Merge(Merge(prev, a), b)
            == Merge(prev, FilterUpdate(if b.service.Some? then b.service else a.service,
                                        if b.price.Some? then b.price else a.price,
                                        if b.rating.Some? then b.rating else a.rating))
  {
  }

  /** The state cells `quotes` and `filters` of the application. */
  class App {
    var quotes: seq<Quote>
    var filters: Filters

    /** The application after its start-up effect: 50 generated quotes, every
        filter at "all". */
    constructor (draws: seq<Draw>)
      requires |draws| == InitialCount
      ensures quotes == Generate(InitialCount, draws)
      ensures filters == InitialFilters
    {
      quotes := Generate(InitialCount, draws);
      filters := InitialFilters;
    }

    /** `addQuote`: appends `q` unchecked (no validation, no id deduplication),
        so a well-formed list stays well-formed exactly when `q` is. */
    method AddQuote(q: Quote)
      modifies this
      ensures |quotes| == |old(quotes)| + 1
      ensures quotes[..|old(quotes)|] == old(quotes)
      ensures quotes[|quotes| - 1] == q
      ensures filters == old(filters)
      ensures (forall x :: x in old(quotes) ==> WellFormed(x)) ==>
                ((forall x :: x in quotes ==> WellFormed(x)) <==> WellFormed(q))
    {
      quotes := quotes + [q];
    }

    /** `updateFilters`: shallow-merges `upd` into the current selection. */
    method UpdateFilters(upd: FilterUpdate)
      modifies this
      ensures filters == Merge(old(filters), upd)
      ensures quotes == old(quotes)
    {
      filters := Merge(filters, upd);
    }
  }

  /** Starting the store and choosing a service yields that service with price
      and rating still at "all". */
  method SelectServiceOnStartedApp(draws: seq<Draw>) returns (f: Filters)
    requires |draws| == InitialCount
    ensures f == Filters("Solar Installation", "all", "all")
  {
    var app := new App(draws);
    app.UpdateFilters(FilterUpdate(Some("Solar Installation"), None, None));
    f := app.filters;
  }

  /** The start-up quotes satisfy every generator bound. */
  lemma InitialQuotesWellFormed(draws: seq<Draw>)
    requires |draws| == InitialCount
    ensures |Generate(InitialCount, draws)| == InitialCount
    ensures forall q :: q in Generate(InitialCount, draws) ==> WellFormed(q)
  {
  }
}
