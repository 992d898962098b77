/**
 * The quote record and the mock-quote generator of the application
 * (`Quote` and `generateRandomQuotes` in src/components/App.tsx).
 *
 * Every `Math.floor(Math.random() * n)` of the generator is an injected
 * integer draw in [0, n), carried by a `Draw` record with one field per
 * draw; every `Date.now()` reading is the draw record's `clock`, in
 * milliseconds. The generator is then a total function of its inputs.
 */
module Quotes {

  /** The service catalog, in the order the generator indexes it. */
  const Services: seq<string> :=
    ["Hot Water Heat Pumps", "Solar Installation", "Home Battery Installations",
     "Reverse Cycle Split System Installations"]

  /** The company catalog, in the order the generator indexes it. */
  const Companies: seq<string> :=
    ["SolarTech", "EcoEnergy", "GreenPower", "SustainableSolutions", "EnergyWise"]

  /** One day in milliseconds. */
  const DayMs: int := 24 * 60 * 60 * 1000
  /** How far before the clock reading a quote's date may lie. */
  const DateWindowMs: int := 90 * DayMs
  /** How far before its date a quote's creation date may lie. */
  const CreationWindowMs: int := 30 * DayMs

  const MinPrice: int := 1000
  /** Exclusive upper bound of a generated price. */
  const PriceEnd: int := 16000
  const MaxRating: int := 10
  const MaxValidityDays: int := 30

  // Each draw `Math.floor(Math.random() * n)` lies in [0, n).
  type ServiceDraw = d: int | 0 <= d < |Services|
  type CompanyDraw = d: int | 0 <= d < |Companies|
  type PriceDraw = d: int | 0 <= d < PriceEnd - MinPrice
  type RatingDraw = d: int | 0 <= d < MaxRating
  type DateOffsetDraw = d: int | 0 <= d < DateWindowMs
  type CreationOffsetDraw = d: int | 0 <= d < CreationWindowMs
  type ValidityDraw = d: int | 0 <= d < MaxValidityDays

  /** The values the generator obtains from its environment for one record. */
  datatype Draw = Draw(
    service: ServiceDraw,
    company: CompanyDraw,
    price: PriceDraw,
    saleTeam: RatingDraw,
    installationTeam: RatingDraw,
    cleanliness: RatingDraw,
    clock: int,                       // the Date.now() reading, in ms
    dateOffset: DateOffsetDraw,
    creationOffset: CreationOffsetDraw,
    validity: ValidityDraw
  )

  /** One installation quote; dates are milliseconds since the epoch. */
  datatype Quote = Quote(
    id: int,
    service: string,
    company: string,
    price: int,
    saleTeamRating: int,
    installationTeamRating: int,
    cleanlinessRating: int,
    overallRating: real,
    date: int,
    quoteCreationDate: int,
    validityPeriod: int
  )

  /**
   * The derived rating: the mean of the three team ratings, halved. Six
   * times it gives back the ratings' sum, and ratings in [1, 10] put it in
   * [1/2, 5].
   */
  function OverallRating(sale: int, installation: int, cleanliness: int): (r: real)
    ensures 6.0 * r == (sale + installation + cleanliness) as real
    ensures InRating(sale) && InRating(installation) && InRating(cleanliness) ==> 0.5 <= r <= 5.0
  {
    ((sale + installation + cleanliness) as real / 3.0) / 2.0
  }

  /**
   * What every generated quote satisfies: catalog membership, the field
   * ranges, the derived overall rating and the creation date not after
   * the quote's date.
   */
  predicate WellFormed(q: Quote)
  {
    && q.service in Services
    && q.company in Companies
    && MinPrice <= q.price < PriceEnd
    && InRating(q.saleTeamRating)
    && InRating(q.installationTeamRating)
    && InRating(q.cleanlinessRating)
    && q.overallRating
       == OverallRating(q.saleTeamRating, q.installationTeamRating, q.cleanlinessRating)
    && q.date - CreationWindowMs < q.quoteCreationDate <= q.date
    && 1 <= q.validityPeriod <= MaxValidityDays
  }

  /** The record built for 0-based index `i` from its draws. */
  function MakeQuote(i: nat, d: Draw): (q: Quote)
    ensures q.id == i + 1
    ensures WellFormed(q)
    ensures d.clock - DateWindowMs < q.date <= d.clock
  {
    var sale := d.saleTeam + 1;
    var installation := d.installationTeam + 1;
    var cleanliness := d.cleanliness + 1;
    var date := d.clock - d.dateOffset;
    Quote(
      i + 1,
      Services[d.service],
      Companies[d.company],
      d.price + MinPrice,
      sale,
      installation,
      cleanliness,
      OverallRating(sale, installation, cleanliness),
      date,
      date - d.creationOffset,
      d.validity + 1)
  }

  /**
   * Every well-formed record with id `i + 1` and a date in the window of
   * `clock` comes out of some draw with that clock reading: the whole range
   * of every field is reachable.
   */
  lemma {:induction false} MakeQuoteOnto(i: nat, clock: int, q: Quote)
    requires WellFormed(q) && q.id == i + 1
    requires clock - DateWindowMs < q.date <= clock
    ensures exists d: Draw :: d.clock == clock && MakeQuote(i, d) == q
  {
    var s: ServiceDraw :| Services[s] == q.service;
    var c: CompanyDraw :| Companies[c] == q.company;
    var d := Draw(s, c, q.price - MinPrice, q.saleTeamRating - 1,
                  q.installationTeamRating - 1, q.cleanlinessRating - 1, clock,
                  clock - q.date, q.date - q.quoteCreationDate, q.validityPeriod - 1);
    assert MakeQuote(i, d) == q;
  }

  /** Distinct draws with the same clock reading give distinct records: every
      field is fixed by its own draw. */
  lemma MakeQuoteInjective(i: nat, d1: Draw, d2: Draw)
    requires d1.clock == d2.clock && MakeQuote(i, d1) == MakeQuote(i, d2)
    ensures d1 == d2
  {
    assert Services[d1.service] == Services[d2.service];
    assert Companies[d1.company] == Companies[d2.company];
  }

  /**
   * `generateRandomQuotes(count)`: one record per index 0 .. count-1, the
   * record at index i built from `draws[i]`.
   */
  function Generate(count: nat, draws: seq<Draw>): (qs: seq<Quote>)
    requires |draws| == count
    ensures |qs| == count
    ensures forall i :: 0 <= i < count ==> qs[i].id == i + 1
    ensures forall i :: 0 <= i < count ==> WellFormed(qs[i])
    ensures forall i :: 0 <= i < count ==>
              draws[i].clock - DateWindowMs < qs[i].date <= draws[i].clock
    decreases count
  {
    if count == 0 then []
    else Generate(count - 1, draws[..count - 1]) + [MakeQuote(count - 1, draws[count - 1])]
  }

  /** The record at index i depends only on i and on its own draws. */
  lemma {:induction false} GenerateAt(count: nat, draws: seq<Draw>, i: nat)
    requires |draws| == count && i < count
    ensures Generate(count, draws)[i] == MakeQuote(i, draws[i])
    decreases count
  {
    if i < count - 1 {
      GenerateAt(count - 1, draws[..count - 1], i);
    }
  }

  /** Generating fewer records yields a prefix of the longer run. */
  lemma {:induction false} GeneratePrefix(count: nat, draws: seq<Draw>, k: nat)
    requires |draws| == count && k <= count
    ensures Generate(k, draws[..k]) == Generate(count, draws)[..k]
    decreases count
  {
    if k < count {
      GeneratePrefix(count - 1, draws[..count - 1], k);
      assert draws[..count - 1][..k] == draws[..k];
    } else {
      assert draws[..k] == draws;
    }
  }

  /** Ids are distinct within one generated collection. */
  lemma GeneratedIdsDistinct(count: nat, draws: seq<Draw>, i: nat, j: nat)
    requires |draws| == count && i < count && j < count
    ensures Generate(count, draws)[i].id == Generate(count, draws)[j].id <==> i == j
  {
  }

  /**
   * With every clock reading between `start` and `now` (a single reading
   * when start == now), each date lies in (start - 90 days, now] and each
   * creation date is at most its date.
   */
  lemma GenerateDatesWithin(count: nat, draws: seq<Draw>, start: int, now: int)
    requires |draws| == count
    requires forall i :: 0 <= i < count ==> start <= draws[i].clock <= now
    ensures forall q :: q in Generate(count, draws) ==>
              start - DateWindowMs < q.date <= now
              && q.date - CreationWindowMs < q.quoteCreationDate <= q.date
  {
    var qs := Generate(count, draws);
    forall q | q in qs
      ensures start - DateWindowMs < q.date <= now
      ensures q.date - CreationWindowMs < q.quoteCreationDate <= q.date
    {
      var i :| 0 <= i < |qs| && qs[i] == q;
      assert draws[i].clock - DateWindowMs < qs[i].date <= draws[i].clock;
    }
  }

  predicate InRating(r: int) { 1 <= r <= MaxRating }

  /** Every generated quote's overall rating lies in [1/2, 5]. */
  lemma GeneratedOverallRatingBounds(count: nat, draws: seq<Draw>, i: nat)
    requires |draws| == count && i < count
    ensures 0.5 <= Generate(count, draws)[i].overallRating <= 5.0
  {
  }

  /** generate(0) is empty and generate(1) is a single quote with id 1. */
  lemma GenerateSmallCounts(d: Draw)
    ensures Generate(0, []) == []
    ensures |Generate(1, [d])| == 1 && Generate(1, [d])[0].id == 1
  {
  }
}
