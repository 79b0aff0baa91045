/**
 * The sentiment-distribution dashboard: each news item gets a three-way
 * sentiment from its polarity, and on every change of the sentiment
 * selector the items are filtered and counted per (formatted date,
 * sentiment) into a pivot table whose first column is the date.
 */
module SentimentDashboard {
  import opened Palette

  /** The selector value that turns filtering off. */
  const All: string := "All"

  /** Name of the date column of the table handed to the chart. */
  const FormattedDate: string := "formatted_date"

  /** Three-way sign classification of a polarity score; exact zero is neutral. */
  function DetermineSentiment(polarity: real): (sentiment: string)
    ensures sentiment == "positive" <==> polarity > 0.0
    ensures sentiment == "negative" <==> polarity < 0.0
    ensures sentiment == "neutral" <==> polarity == 0.0
  {
    if polarity > 0.0 then "positive"
    else if polarity < 0.0 then "negative"
    else "neutral"
  }

  /** Bar colour of each sentiment column. */
  const SentimentColors: map<string, Color> :=
    map["positive" := Green, "neutral" := Grey, "negative" := Red]

  /** Every label the classifier produces has a bar colour: green for a
      positive polarity, red for a negative one, grey for zero. */
  lemma ClassifiedSentimentHasColor(polarity: real)
    ensures DetermineSentiment(polarity) in SentimentColors
    ensures SentimentColors[DetermineSentiment(polarity)] ==
      if polarity > 0.0 then Green else if polarity < 0.0 then Red else Grey
  {
  }

  /** A news item, reduced to the two columns the pivot reads. */
  datatype NewsRow = NewsRow(formattedDate: string, sentiment: string)

  /** The boolean-mask selection: the rows with the given sentiment, in order. */
  function Select(rows: seq<NewsRow>, sentiment: string): (kept: seq<NewsRow>)
    ensures |kept| <= |rows|
    ensures forall r :: r in kept ==> r in rows && r.sentiment == sentiment
  {
    if rows == [] then []
    else if rows[0].sentiment == sentiment then [rows[0]] + Select(rows[1..], sentiment)
    else Select(rows[1..], sentiment)
  }

  /** The selector applied to the table: "All" keeps everything. */
  function Filter(rows: seq<NewsRow>, selected: string): (kept: seq<NewsRow>)
    ensures selected == All ==> kept == rows
    ensures selected != All ==>
      forall r :: r in kept <==> r in rows && r.sentiment == selected
  {
    if selected == All then rows
    else
      assert forall r :: r in Select(rows, selected) <==> r in rows && r.sentiment == selected by {
        forall r ensures r in Select(rows, selected) <==> r in rows && r.sentiment == selected {
          SelectMembers(rows, selected, r);
        }
      }
      Select(rows, selected)
  }

  /** The date column of a table. */
  function DateColumn(rows: seq<NewsRow>): seq<string>
  {
    seq(|rows|, i requires 0 <= i < |rows| => rows[i].formattedDate)
  }

  /** The sentiment column of a table. */
  function SentimentColumn(rows: seq<NewsRow>): seq<string>
  {
    seq(|rows|, i requires 0 <= i < |rows| => rows[i].sentiment)
  }

  /** Number of rows with the given date and sentiment (the group size):
      the multiplicity of that key among the rows. */
  function CountOf(rows: seq<NewsRow>, date: string, sentiment: string): (n: nat)
    ensures n <= |rows|
    ensures n == multiset(rows)[NewsRow(date, sentiment)]
  {
    if rows == [] then 0
    else
      assert rows == [rows[0]] + rows[1..];
      assert multiset(rows) == multiset{rows[0]} + multiset(rows[1..]);
      var hit := if rows[0].formattedDate == date && rows[0].sentiment == sentiment then 1 else 0;
      hit + CountOf(rows[1..], date, sentiment)
  }

  /** The count column of one sentiment, one entry per listed date. */
  function Column(rows: seq<NewsRow>, dates: seq<string>, sentiment: string): (col: seq<nat>)
    ensures |col| == |dates|
    ensures forall j :: 0 <= j < |dates| ==> col[j] == CountOf(rows, dates[j], sentiment)
  {
    if dates == [] then []
    else [CountOf(rows, dates[0], sentiment)] + Column(rows, dates[1..], sentiment)
  }

  /** The table handed to the chart: the date column, the count columns in
      the order they were added, and each count column by sentiment name. */
  datatype View = View(formattedDate: seq<string>, sentiments: seq<string>, counts: map<string, seq<nat>>)

  /** The column names of a view, as the chart sees them. */
  function ColumnNames(view: View): set<string>
  {
    {FormattedDate} + view.counts.Keys
  }

  predicate IsDistinct<T(==)>(s: seq<T>)
  {
    forall i, j :: 0 <= i < j < |s| ==> s[i] != s[j]
  }

  /** `view` is the date-by-sentiment pivot of `rows`, up to the order of its
      dates and of its columns: every date once, every sentiment column once,
      each cell the size of its group (zero for a missing combination). */
  ghost predicate IsPivotOf(view: View, rows: seq<NewsRow>)
  {
    && IsDistinct(view.formattedDate)
    && (forall d :: d in view.formattedDate <==> d in DateColumn(rows))
    && IsDistinct(view.sentiments)
    && (forall s :: s in view.sentiments <==> s in SentimentColumn(rows))
    && (forall s :: s in view.counts <==> s in view.sentiments)
    && forall s :: s in view.counts ==> view.counts[s] == Column(rows, view.formattedDate, s)
  }

  /** The distinct values of a column in order of first appearance. */
  method Unique<T(==)>(xs: seq<T>) returns (ys: seq<T>)
    ensures IsDistinct(ys)
    ensures forall y :: y in ys <==> y in xs
  {
    ys := [];
    for i := 0 to |xs|
      invariant IsDistinct(ys)
      invariant forall y :: y in ys <==> y in xs[..i]
    {
      if xs[i] !in ys {
        ys := ys + [xs[i]];
      }
    }
    assert xs[..|xs|] == xs;
  }

  /** Group the rows by (date, sentiment), count each group and spread the
      sentiments into columns, filling missing combinations with zero. */
  method GroupCount(rows: seq<NewsRow>) returns (table: View)
    ensures IsPivotOf(table, rows)
  {
    var dates := Unique(DateColumn(rows));
    var sentiments := Unique(SentimentColumn(rows));
    var counts := map s | s in sentiments :: Column(rows, dates, s);
    table := View(dates, sentiments, counts);
  }

  /** The selector's change handler: filter the news table, pivot it, and
      copy the date column and then each sentiment column into the table
      the chart draws from. */
  method Update(news: seq<NewsRow>, selected: string) returns (data: View)
    ensures IsPivotOf(data, Filter(news, selected))
  {
    var filtered := news;
    if selected != All {
      filtered := Select(filtered, selected);
    }
    var distribution := GroupCount(filtered);
    var uniqueSentiments := distribution.sentiments;
    var counts: map<string, seq<nat>> := map[];
    for k := 0 to |uniqueSentiments|
      invariant forall s :: s in counts <==> s in uniqueSentiments[..k]
      invariant forall s :: s in counts ==> counts[s] == distribution.counts[s]
    {
      var sentiment := uniqueSentiments[k];
      counts := counts[sentiment := distribution.counts[sentiment]];
    }
    assert uniqueSentiments[..|uniqueSentiments|] == uniqueSentiments;
    data := View(distribution.formattedDate, uniqueSentiments, counts);
  }

  // ---------------------------------------------------------------------
  // Filtering

  /** With "All" the filter keeps the table as it is. */
  lemma FilterAllKeepsEverything(rows: seq<NewsRow>)
    ensures Filter(rows, All) == rows
  {
  }

  /** A row survives a specific selection exactly when it carries that sentiment. */
  lemma {:induction false} SelectMembers(rows: seq<NewsRow>, sentiment: string, r: NewsRow)
    ensures r in Select(rows, sentiment) <==> r in rows && r.sentiment == sentiment
  {
    if rows != [] {
      SelectMembers(rows[1..], sentiment, r);
      assert r in rows <==> r == rows[0] || r in rows[1..] by {
        assert rows == [rows[0]] + rows[1..];
      }
    }
  }

  /** Selection keeps the original order: selecting from a concatenation is
      the concatenation of the selections. */
  lemma {:induction false} SelectAppend(a: seq<NewsRow>, b: seq<NewsRow>, sentiment: string)
    ensures Select(a + b, sentiment) == Select(a, sentiment) + Select(b, sentiment)
  {
    if a == [] {
      assert a + b == b;
    } else {
      assert (a + b)[0] == a[0];
      assert (a + b)[1..] == a[1..] + b;
      SelectAppend(a[1..], b, sentiment);
    }
  }

  /** Selecting from rows that all carry the sentiment keeps all of them. */
  lemma {:induction false} SelectKeepsMatching(rows: seq<NewsRow>, sentiment: string)
    requires forall r :: r in rows ==> r.sentiment == sentiment
    ensures Select(rows, sentiment) == rows
  {
    if rows != [] {
      assert rows[0] in rows;
      forall r | r in rows[1..] ensures r.sentiment == sentiment {
        assert r in rows;
      }
      SelectKeepsMatching(rows[1..], sentiment);
    }
  }

  /** Applying the same selection twice gives the same rows as applying it once. */
  lemma FilterIdempotent(rows: seq<NewsRow>, selected: string)
    ensures Filter(Filter(rows, selected), selected) == Filter(rows, selected)
  {
    if selected != All {
      SelectKeepsMatching(Select(rows, selected), selected);
    }
  }

  // ---------------------------------------------------------------------
  // Counting

  /** A cell is zero exactly when no row has that date and sentiment. */
  lemma {:induction false} CountZeroIffAbsent(rows: seq<NewsRow>, date: string, sentiment: string)
    ensures CountOf(rows, date, sentiment) == 0 <==>
      forall r :: r in rows ==> !(r.formattedDate == date && r.sentiment == sentiment)
  {
    assert NewsRow(date, sentiment) in multiset(rows) <==> NewsRow(date, sentiment) in rows;
  }

  function Sum(xs: seq<nat>): nat
  {
    if xs == [] then 0 else xs[0] + Sum(xs[1..])
  }

  /** Sum of the named columns of a count map, in the given column order. */
  function SumColumns(sentiments: seq<string>, counts: map<string, seq<nat>>): nat
  {
    if sentiments == [] then 0
    else
      var first := if sentiments[0] in counts then Sum(counts[sentiments[0]]) else 0;
      first + SumColumns(sentiments[1..], counts)
  }

  /** Sum of every cell of a view. */
  function Total(view: View): nat
  {
    SumColumns(view.sentiments, view.counts)
  }

  /** Sum of the cells of the date-by-sentiment grid of `rows`. */
  function Grid(rows: seq<NewsRow>, dates: seq<string>, sentiments: seq<string>): nat
  {
    if sentiments == [] then 0
    else Sum(Column(rows, dates, sentiments[0])) + Grid(rows, dates, sentiments[1..])
  }

  lemma {:induction false} ColumnSumCons(r: NewsRow, rest: seq<NewsRow>, dates: seq<string>, sentiment: string)
    ensures Sum(Column([r] + rest, dates, sentiment)) ==
      Sum(Column([r], dates, sentiment)) + Sum(Column(rest, dates, sentiment))
  {
    if dates != [] {
      assert ([r] + rest)[0] == r && ([r] + rest)[1..] == rest && [r][1..] == [];
      assert CountOf([r] + rest, dates[0], sentiment) ==
        CountOf([r], dates[0], sentiment) + CountOf(rest, dates[0], sentiment);
      ColumnSumCons(r, rest, dates[1..], sentiment);
      SumCons(CountOf([r] + rest, dates[0], sentiment), Column([r] + rest, dates[1..], sentiment));
      SumCons(CountOf([r], dates[0], sentiment), Column([r], dates[1..], sentiment));
      SumCons(CountOf(rest, dates[0], sentiment), Column(rest, dates[1..], sentiment));
    }
  }

  lemma SumCons(x: nat, xs: seq<nat>)
    ensures Sum([x] + xs) == x + Sum(xs)
  {
    assert ([x] + xs)[1..] == xs;
  }

  lemma {:induction false} ColumnSumSingle(r: NewsRow, dates: seq<string>, sentiment: string)
    requires IsDistinct(dates)
    ensures Sum(Column([r], dates, sentiment)) ==
      if r.formattedDate in dates && r.sentiment == sentiment then 1 else 0
  {
    if dates != [] {
      var d, later := dates[0], dates[1..];
      assert dates == [d] + later;
      assert IsDistinct(later);
      ColumnSumSingle(r, later, sentiment);
      assert [r][1..] == [];
      assert CountOf([r], d, sentiment) == if r.formattedDate == d && r.sentiment == sentiment then 1 else 0;
      assert Column([r], dates, sentiment) == [CountOf([r], d, sentiment)] + Column([r], later, sentiment);
      SumCons(CountOf([r], d, sentiment), Column([r], later, sentiment));
      assert r.formattedDate in dates <==> r.formattedDate == d || r.formattedDate in later;
      if r.formattedDate == d {
        forall k | 0 <= k < |later| ensures later[k] != d {
          assert later[k] == dates[k + 1];
        }
        assert d !in later;
      }
    }
  }

  lemma {:induction false} GridCons(r: NewsRow, rest: seq<NewsRow>, dates: seq<string>, sentiments: seq<string>)
    ensures Grid([r] + rest, dates, sentiments) == Grid([r], dates, sentiments) + Grid(rest, dates, sentiments)
  {
    if sentiments != [] {
      ColumnSumCons(r, rest, dates, sentiments[0]);
      GridCons(r, rest, dates, sentiments[1..]);
    }
  }

  lemma {:induction false} GridSingle(r: NewsRow, dates: seq<string>, sentiments: seq<string>)
    requires IsDistinct(dates) && IsDistinct(sentiments)
    ensures Grid([r], dates, sentiments) ==
      if r.formattedDate in dates && r.sentiment in sentiments then 1 else 0
  {
    if sentiments != [] {
      assert IsDistinct(sentiments[1..]);
      ColumnSumSingle(r, dates, sentiments[0]);
      GridSingle(r, dates, sentiments[1..]);
      assert r.sentiment in sentiments <==> r.sentiment == sentiments[0] || r.sentiment in sentiments[1..] by {
        assert sentiments == [sentiments[0]] + sentiments[1..];
      }
      if r.sentiment == sentiments[0] {
        assert sentiments[0] !in sentiments[1..];
      }
    }
  }

  lemma {:induction false} GridEmpty(dates: seq<string>, sentiments: seq<string>)
    ensures Grid([], dates, sentiments) == 0
  {
    if sentiments != [] {
      ColumnSumEmpty(dates, sentiments[0]);
      GridEmpty(dates, sentiments[1..]);
    }
  }

  lemma {:induction false} ColumnSumEmpty(dates: seq<string>, sentiment: string)
    ensures Sum(Column([], dates, sentiment)) == 0
  {
    if dates != [] {
      ColumnSumEmpty(dates[1..], sentiment);
      SumCons(CountOf([], dates[0], sentiment), Column([], dates[1..], sentiment));
    }
  }

  /** Every row whose date and sentiment are listed lands in exactly one cell. */
  lemma {:induction false} GridCountsEveryRow(rows: seq<NewsRow>, dates: seq<string>, sentiments: seq<string>)
    requires IsDistinct(dates) && IsDistinct(sentiments)
    requires forall r :: r in rows ==> r.formattedDate in dates && r.sentiment in sentiments
    ensures Grid(rows, dates, sentiments) == |rows|
  {
    if rows == [] {
      GridEmpty(dates, sentiments);
    } else {
      var first, rest := rows[0], rows[1..];
      assert rows == [first] + rest;
      assert first in rows;
      forall r | r in rest ensures r.formattedDate in dates && r.sentiment in sentiments {
        assert r in rows;
      }
      GridCons(first, rest, dates, sentiments);
      GridSingle(first, dates, sentiments);
      GridCountsEveryRow(rest, dates, sentiments);
    }
  }

  lemma {:induction false} SumColumnsIsGrid(rows: seq<NewsRow>, dates: seq<string>, sentiments: seq<string>,
                                            counts: map<string, seq<nat>>)
    requires forall s :: s in sentiments ==> s in counts && counts[s] == Column(rows, dates, s)
    ensures SumColumns(sentiments, counts) == Grid(rows, dates, sentiments)
  {
    if sentiments != [] {
      assert sentiments[0] in sentiments;
      SumColumnsIsGrid(rows, dates, sentiments[1..], counts);
    }
  }

  // ---------------------------------------------------------------------
  // The pivot table

  /** Each cell of the pivot is the number of rows with that date and
      sentiment, and it is zero exactly when there is no such row. */
  lemma PivotCell(view: View, rows: seq<NewsRow>, j: int, sentiment: string)
    requires IsPivotOf(view, rows)
    requires 0 <= j < |view.formattedDate| && sentiment in view.counts
    ensures |view.counts[sentiment]| == |view.formattedDate|
    ensures view.counts[sentiment][j] == multiset(rows)[NewsRow(view.formattedDate[j], sentiment)]
    ensures view.counts[sentiment][j] == 0 <==>
      forall r :: r in rows ==> !(r.formattedDate == view.formattedDate[j] && r.sentiment == sentiment)
  {
    CountZeroIffAbsent(rows, view.formattedDate[j], sentiment);
  }

  /** The cells of the pivot add up to the number of rows counted. */
  lemma PivotTotal(view: View, rows: seq<NewsRow>)
    requires IsPivotOf(view, rows)
    ensures Total(view) == |rows|
  {
    forall r | r in rows
      ensures r.formattedDate in view.formattedDate && r.sentiment in view.sentiments
    {
      var i :| 0 <= i < |rows| && rows[i] == r;
      assert DateColumn(rows)[i] == r.formattedDate;
      assert SentimentColumn(rows)[i] == r.sentiment;
    }
    SumColumnsIsGrid(rows, view.formattedDate, view.sentiments, view.counts);
    GridCountsEveryRow(rows, view.formattedDate, view.sentiments);
  }

  /** The pivot is determined by its rows up to order: two pivots of the same
      rows have the same dates and columns and agree on every cell. */
  lemma PivotDeterminedUpToOrder(view: View, view': View, rows: seq<NewsRow>,
                                 i: int, j: int, sentiment: string)
    requires IsPivotOf(view, rows) && IsPivotOf(view', rows)
    requires 0 <= i < |view.formattedDate| && 0 <= j < |view'.formattedDate|
    requires view.formattedDate[i] == view'.formattedDate[j]
    requires sentiment in view.counts
    ensures ColumnNames(view) == ColumnNames(view')
    ensures view.counts[sentiment][i] == view'.counts[sentiment][j]
  {
  }

  /** The chart's columns are the date column plus one count column per
      sentiment present after filtering; with a specific selection that is
      at most the selected sentiment, present exactly when some row has it. */
  lemma UpdateColumns(data: View, news: seq<NewsRow>, selected: string)
    requires IsPivotOf(data, Filter(news, selected))
    ensures ColumnNames(data) == {FormattedDate} + set r | r in Filter(news, selected) :: r.sentiment
    ensures selected != All ==> data.counts.Keys <= {selected}
    ensures selected != All ==>
      (selected in data.counts <==> exists r :: r in news && r.sentiment == selected)
  {
    var filtered := Filter(news, selected);
    forall s ensures s in SentimentColumn(filtered) <==> exists r :: r in filtered && r.sentiment == s {
      if s in SentimentColumn(filtered) {
        var i :| 0 <= i < |filtered| && SentimentColumn(filtered)[i] == s;
        assert filtered[i] in filtered;
      }
      if r :| r in filtered && r.sentiment == s {
        var i :| 0 <= i < |filtered| && filtered[i] == r;
        assert SentimentColumn(filtered)[i] == s;
      }
    }
    if selected != All {
      if r :| r in news && r.sentiment == selected {
        SelectMembers(news, selected, r);
      }
    }
  }

  /** One positive item on one day gives one date and a single count column
      holding 1: only sentiments that occur get a column. */
  lemma SingleItemPivot()
    ensures IsPivotOf(View(["January 01, 2021"], ["positive"], map["positive" := [1]]),
                      [NewsRow("January 01, 2021", "positive")])
  {
    var rows := [NewsRow("January 01, 2021", "positive")];
    assert DateColumn(rows) == ["January 01, 2021"];
    assert SentimentColumn(rows) == ["positive"];
    assert rows[1..] == [];
    assert Column(rows, ["January 01, 2021"], "positive") == [1];
  }

  /** With nothing left after filtering, the chart gets a well-formed empty
      table: no dates and only the date column. */
  lemma EmptySelection(data: View, news: seq<NewsRow>, selected: string)
    requires IsPivotOf(data, Filter(news, selected))
    requires Filter(news, selected) == []
    ensures data.formattedDate == [] && data.counts == map[]
    ensures ColumnNames(data) == {FormattedDate}
  {
    assert DateColumn([]) == [] && SentimentColumn([]) == [];
    forall d ensures multiset(data.formattedDate)[d] == 0 {
      assert d !in data.formattedDate;
    }
    assert multiset(data.formattedDate) == multiset{};
  }
}
