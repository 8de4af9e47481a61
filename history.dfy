/** The data preparation step of the price-trend model: from a table of
    price records to one averaged price per day, with each day expressed
    as a whole number of days since the first one. Dates are day numbers. */
module History {
  import opened Wrappers
  import opened Stats

  /** One row of the price table. */
  datatype PriceRecord = PriceRecord(productName: string, date: int, price: real)

  /** One row of the averaged daily series. */
  datatype DailyPrice = DailyPrice(date: int, price: real)

  /** What preparation yields: the feature column (days since the first
      date), the target column (the daily average prices) and the dates. */
  datatype Prepared = Prepared(offsets: seq<int>, prices: seq<real>, dates: seq<int>)

  predicate StrictlyIncreasing(s: seq<int>)
  {
    forall i, j :: 0 <= i < j < |s| ==> s[i] < s[j]
  }

  /** The records of one product, in table order: every record of the
      product as often as the table holds it, and no other. */
  function ForProduct(df: seq<PriceRecord>, name: string): (rows: seq<PriceRecord>)
    ensures forall row :: row in rows <==> row in df && row.productName == name
    ensures forall row :: multiset(rows)[row] == if row.productName == name then multiset(df)[row] else 0
  {
    if df == [] then []
    else
      assert df == [df[0]] + df[1..];
      (if df[0].productName == name then [df[0]] else []) + ForProduct(df[1..], name)
  }

  /** The records of date `d`, in table order: every record of that date as
      often as `rows` holds it, and no other. */
  function OnDate(rows: seq<PriceRecord>, d: int): (rs: seq<PriceRecord>)
    ensures forall row :: multiset(rs)[row] == if row.date == d then multiset(rows)[row] else 0
  {
    if rows == [] then []
    else
      assert rows == [rows[0]] + rows[1..];
      if rows[0].date == d then [rows[0]] + OnDate(rows[1..], d) else OnDate(rows[1..], d)
  }

  /** Some record of `rows` is dated `d`. */
  predicate Recorded(rows: seq<PriceRecord>, d: int)
  {
    exists row :: row in rows && row.date == d
  }

  /** Adds `d` to an ascending sequence of distinct dates, keeping it so. */
  function Insert(d: int, ds: seq<int>): (r: seq<int>)
    requires StrictlyIncreasing(ds)
    ensures StrictlyIncreasing(r)
    ensures forall x :: x in r <==> x == d || x in ds
  {
    if ds == [] then [d]
    else if d < ds[0] then [d] + ds
    else if d == ds[0] then ds
    else
      var rest := Insert(d, ds[1..]);
      assert forall x :: x in rest ==> ds[0] < x;
      ConsIncreasing(ds[0], rest);
      assert forall x :: x in ds <==> x == ds[0] || x in ds[1..];
      [ds[0]] + rest
  }

  lemma ConsIncreasing(d: int, ds: seq<int>)
    requires StrictlyIncreasing(ds)
    requires forall x :: x in ds ==> d < x
    ensures StrictlyIncreasing([d] + ds)
    ensures forall x :: x in [d] + ds <==> x == d || x in ds
  {
    var r := [d] + ds;
    forall i, j | 0 <= i < j < |r|
      ensures r[i] < r[j]
    {
      assert r[j] == ds[j - 1] && ds[j - 1] in ds;
      if i > 0 {
        assert r[i] == ds[i - 1];
      }
    }
  }

  /** The distinct dates of `rows`, ascending (the keys of a group-by on
      the date column). */
  function DistinctDates(rows: seq<PriceRecord>): (ds: seq<int>)
    ensures StrictlyIncreasing(ds)
    ensures forall d :: d in ds <==> exists row :: row in rows && row.date == d
  {
    if rows == [] then []
    else
      var rest := DistinctDates(rows[1..]);
      assert forall row :: row in rows <==> row == rows[0] || row in rows[1..];
      Insert(rows[0].date, rest)
  }

  /** The prices recorded on date `d`, in table order: the price column of
      that date's records, repeated prices included. */
  function PricesOn(rows: seq<PriceRecord>, d: int): (ps: seq<real>)
    ensures forall p :: p in ps <==> exists row :: row in rows && row.date == d && row.price == p
  {
    if rows == [] then []
    else
      var rest := PricesOn(rows[1..], d);
      assert forall row :: row in rows <==> row == rows[0] || row in rows[1..];
      if rows[0].date == d then [rows[0].price] + rest else rest
  }

  /** The prices of a day are the price column of that day's records, so a
      price recorded twice counts twice in the day's mean. */
  lemma {:induction false} PricesOnIsDateColumn(rows: seq<PriceRecord>, d: int)
    ensures PricesOn(rows, d) == PriceColumn(OnDate(rows, d))
  {
    if rows != [] {
      PricesOnIsDateColumn(rows[1..], d);
      if rows[0].date == d {
        PriceColumnCons(rows[0], OnDate(rows[1..], d));
      }
    }
  }

  /** The price column of some records. */
  function PriceColumn(rs: seq<PriceRecord>): seq<real>
  {
    seq(|rs|, i requires 0 <= i < |rs| => rs[i].price)
  }

  lemma PriceColumnCons(r: PriceRecord, rs: seq<PriceRecord>)
    ensures PriceColumn([r] + rs) == [r.price] + PriceColumn(rs)
  {
  }

  /** Group by date, take the mean price of each group, sort by date: one
      entry per distinct date of `rows`, ascending. */
  function DailyAverages(rows: seq<PriceRecord>): (h: seq<DailyPrice>)
    ensures |h| == |DistinctDates(rows)|
    ensures forall i, j :: 0 <= i < j < |h| ==> h[i].date < h[j].date
  {
    var ds := DistinctDates(rows);
    seq(|ds|, i requires 0 <= i < |ds| => DailyPrice(ds[i], MeanOn(rows, ds[i])))
  }

  /** The daily series has an entry for exactly the dates of `rows`, each
      holding the mean of the (non-empty) group of that date's prices. */
  lemma DailyAveragesSpec(rows: seq<PriceRecord>)
    ensures var h := DailyAverages(rows);
            && (forall i :: 0 <= i < |h| ==> Recorded(rows, h[i].date))
            && (forall row :: row in rows ==> exists i :: 0 <= i < |h| && h[i].date == row.date)
            && (forall i :: 0 <= i < |h| ==>
                  PricesOn(rows, h[i].date) != [] && h[i].price == Mean(PricesOn(rows, h[i].date)))
  {
    var ds := DistinctDates(rows);
    var h := DailyAverages(rows);
    DatesHavePrices(rows);
    SeriesCoversDates(rows, ds, h);
    SeriesMeans(rows, ds, h);
  }

  /** A series whose dates are `ds` has an entry for exactly the dates of
      `rows` when `ds` holds exactly those dates. */
  lemma SeriesCoversDates(rows: seq<PriceRecord>, ds: seq<int>, h: seq<DailyPrice>)
    requires |h| == |ds| && forall i :: 0 <= i < |h| ==> h[i].date == ds[i]
    requires forall d :: d in ds <==> exists row :: row in rows && row.date == d
    ensures forall i :: 0 <= i < |h| ==> Recorded(rows, h[i].date)
    ensures forall row :: row in rows ==> exists i :: 0 <= i < |h| && h[i].date == row.date
  {
    forall i | 0 <= i < |h|
      ensures Recorded(rows, h[i].date)
    {
      assert ds[i] in ds;
      var row :| row in rows && row.date == ds[i];
      assert row in rows && row.date == h[i].date;
    }
    forall row | row in rows
      ensures exists i :: 0 <= i < |h| && h[i].date == row.date
    {
      assert row.date in ds;
      var i :| 0 <= i < |ds| && ds[i] == row.date;
      assert h[i].date == row.date;
    }
  }

  /** Each entry of a series built from `MeanOn` at dates that have prices
      is the mean of that date's prices. */
  lemma SeriesMeans(rows: seq<PriceRecord>, ds: seq<int>, h: seq<DailyPrice>)
    requires |h| == |ds| && forall i :: 0 <= i < |h| ==> h[i] == DailyPrice(ds[i], MeanOn(rows, ds[i]))
    requires forall d :: d in ds ==> PricesOn(rows, d) != []
    ensures forall i :: 0 <= i < |h| ==>
              PricesOn(rows, h[i].date) != [] && h[i].price == Mean(PricesOn(rows, h[i].date))
  {
    forall i | 0 <= i < |h|
      ensures PricesOn(rows, h[i].date) != [] && h[i].price == Mean(PricesOn(rows, h[i].date))
    {
      assert ds[i] in ds;
    }
  }

  /** The mean price of the records on date `d` (zero when there are none,
      which is never asked for). */
  function MeanOn(rows: seq<PriceRecord>, d: int): real
  {
    var ps := PricesOn(rows, d);
    if ps == [] then 0.0 else Mean(ps)
  }

  /** Preparation of the training data for one product: its distinct
      dates, ascending, each as a whole number of days since the first, and
      the daily average prices. `None` is the "no data found for product"
      error. */
  function Prepare(df: seq<PriceRecord>, name: string): (r: Option<Prepared>)
    ensures r.None? <==> forall row :: row in df ==> row.productName != name
    ensures r.Some? ==>
      var p := r.value;
      && |p.offsets| == |p.prices| == |p.dates| > 0
      && StrictlyIncreasing(p.dates)
      && p.offsets[0] == 0
      && StrictlyIncreasing(p.offsets)
      && (forall i :: 0 <= i < |p.dates| ==> p.offsets[i] == p.dates[i] - p.dates[0])
  {
    var rows := ForProduct(df, name);
    if rows == [] then
      None
    else
      var dates := DistinctDates(rows);
      assert rows[0] in rows;
      assert rows[0].date in dates;
      Some(Prepared(
        seq(|dates|, i requires 0 <= i < |dates| => dates[i] - dates[0]),
        seq(|dates|, i requires 0 <= i < |dates| => MeanOn(rows, dates[i])),
        dates))
  }

  /** The daily series behind a preparation: each date with its price. */
  function Series(p: Prepared): seq<DailyPrice>
    requires |p.prices| == |p.dates|
  {
    seq(|p.dates|, i requires 0 <= i < |p.dates| => DailyPrice(p.dates[i], p.prices[i]))
  }

  /** The prepared dates are exactly the dates the product was recorded on,
      and each prepared price is the mean of the (non-empty) group of that
      day's recorded prices. */
  lemma PrepareSpec(df: seq<PriceRecord>, name: string)
    requires Prepare(df, name).Some?
    ensures var p := Prepare(df, name).value;
            && (forall d :: d in p.dates <==> exists row :: row in df && row.productName == name && row.date == d)
            && (forall i :: 0 <= i < |p.dates| ==>
                  PricesOn(ForProduct(df, name), p.dates[i]) != []
                  && p.prices[i] == MeanOn(ForProduct(df, name), p.dates[i]))
  {
    ProductDates(df, name);
    DatesHavePrices(ForProduct(df, name));
  }

  lemma ProductDates(df: seq<PriceRecord>, name: string)
    ensures forall d :: d in DistinctDates(ForProduct(df, name)) <==>
      exists row :: row in df && row.productName == name && row.date == d
  {
    var rows := ForProduct(df, name);
    forall d
      ensures d in DistinctDates(rows) <==> exists row :: row in df && row.productName == name && row.date == d
    {
      if d in DistinctDates(rows) {
        var row :| row in rows && row.date == d;
      }
      if exists row :: row in df && row.productName == name && row.date == d {
        var row :| row in df && row.productName == name && row.date == d;
        assert row in rows;
      }
    }
  }

  lemma DatesHavePrices(rows: seq<PriceRecord>)
    ensures forall d :: d in DistinctDates(rows) ==> PricesOn(rows, d) != []
  {
    forall d | d in DistinctDates(rows)
      ensures PricesOn(rows, d) != []
    {
      var row :| row in rows && row.date == d;
      assert row.price in PricesOn(rows, d);
    }
  }

  /** Each daily price is the mean of that day's recorded prices, so it lies
      within their range. */
  lemma DailyPriceWithinDayRange(df: seq<PriceRecord>, name: string, i: nat, lo: real, hi: real)
    requires Prepare(df, name).Some?
    requires i < |Prepare(df, name).value.dates|
    requires forall row :: row in df && row.productName == name && row.date == Prepare(df, name).value.dates[i]
               ==> lo <= row.price <= hi
    ensures lo <= Prepare(df, name).value.prices[i] <= hi
  {
    var p := Prepare(df, name).value;
    PrepareSpec(df, name);
    var ps := PricesOn(ForProduct(df, name), p.dates[i]);
    forall k | 0 <= k < |ps|
      ensures lo <= ps[k] <= hi
    {
      assert ps[k] in ps;
    }
    assert p.dates[i] in p.dates;
    var row :| row in df && row.productName == name && row.date == p.dates[i];
    assert row in ForProduct(df, name);
    assert row.price in ps;
    MeanBounds(ps, lo, hi);
    assert p.prices[i] == Mean(ps);
  }

  /** One price per distinct date: a product recorded on one day only
      yields a single point, at offset zero. */
  lemma SingleDayGivesOnePoint(df: seq<PriceRecord>, name: string, d: int)
    requires exists row :: row in df && row.productName == name
    requires forall row :: row in df && row.productName == name ==> row.date == d
    ensures Prepare(df, name).Some?
    ensures Prepare(df, name).value.dates == [d]
    ensures Prepare(df, name).value.offsets == [0]
  {
    var rows := ForProduct(df, name);
    var row :| row in df && row.productName == name;
    assert row in rows;
    DistinctDatesOfOneDay(rows, d);
  }

  lemma {:induction false} DistinctDatesOfOneDay(rows: seq<PriceRecord>, d: int)
    requires rows != []
    requires forall row :: row in rows ==> row.date == d
    ensures DistinctDates(rows) == [d]
  {
    if |rows| > 1 {
      DistinctDatesOfOneDay(rows[1..], d);
    }
  }

  /** Repeated prices count: one day recorded at 100, 100 and 70 averages to
      90, not to the 85 of its distinct prices. */
  lemma RepeatedPricesCount(rows: seq<PriceRecord>, name: string, d: int)
    requires rows == [PriceRecord(name, d, 100.0), PriceRecord(name, d, 100.0), PriceRecord(name, d, 70.0)]
    ensures PricesOn(rows, d) == [100.0, 100.0, 70.0]
    ensures MeanOn(rows, d) == 90.0
  {
    var tail1, tail2 := rows[1..], rows[1..][1..];
    assert tail2 == [PriceRecord(name, d, 70.0)] && tail2[1..] == [];
    assert PricesOn(tail2, d) == [70.0];
    assert PricesOn(tail1, d) == [100.0, 70.0];
    assert Sum([100.0, 100.0, 70.0]) == 270.0 by {
      assert [100.0, 100.0, 70.0][1..] == [100.0, 70.0];
      assert [100.0, 70.0][1..] == [70.0];
      assert [70.0][1..] == [];
    }
  }
}
