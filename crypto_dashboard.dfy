/**
 * The derived visual-encoding columns of the three-dataset dashboard:
 * the colour of each price point from the day-to-day change of its
 * High and Low, and the colour and size of each news point from its
 * sentiment label.
 */
module CryptoDashboard {
  import opened Palette

  /** One row of the price table, reduced to the two columns the colouring reads. */
  datatype PriceRow = PriceRow(high: real, low: real)

  /** Colour of a row against the row before it: a higher High wins,
      then a lower Low; otherwise the price is taken as unchanged. */
  function ChangeColor(prev: PriceRow, cur: PriceRow): (c: Color)
    ensures c == Green <==> cur.high > prev.high
    ensures c == Red <==> cur.high <= prev.high && cur.low < prev.low
    ensures c == Grey <==> cur.high <= prev.high && cur.low >= prev.low
  {
    if cur.high > prev.high then Green
    else if cur.low < prev.low then Red
    else Grey
  }

  /** `colors` is a colouring of `rows`: one colour per row, the first row
      grey, every later row coloured against its predecessor. */
  ghost predicate IsPriceColoring(rows: seq<PriceRow>, colors: seq<Color>)
  {
    && |colors| == |rows|
    && (|rows| > 0 ==> colors[0] == Grey)
    && forall i :: 0 < i < |rows| ==> colors[i] == ChangeColor(rows[i - 1], rows[i])
  }

  /** One pass over the rows in table order, appending one colour per row. */
  method MapPriceChangeToColor(rows: seq<PriceRow>) returns (colors: seq<Color>)
    ensures IsPriceColoring(rows, colors)
  {
    colors := [];
    for i := 0 to |rows|
      invariant |colors| == i
      invariant i > 0 ==> colors[0] == Grey
      invariant forall k :: 0 < k < i ==> colors[k] == ChangeColor(rows[k - 1], rows[k])
    {
      if i == 0 {
        colors := colors + [Grey];
      } else if rows[i].high > rows[i - 1].high {
        colors := colors + [Green];
      } else if rows[i].low < rows[i - 1].low {
        colors := colors + [Red];
      } else {
        colors := colors + [Grey];
      }
    }
  }

  /** For a later row: green exactly on a higher High (whatever the Low),
      red exactly on a High that did not rise and a Low that fell, grey
      exactly when neither happened. */
  lemma PriceColoringCases(rows: seq<PriceRow>, colors: seq<Color>, i: int)
    requires IsPriceColoring(rows, colors)
    requires 0 < i < |rows|
    ensures colors[i] == Green <==> rows[i].high > rows[i - 1].high
    ensures colors[i] == Red <==> rows[i].high <= rows[i - 1].high && rows[i].low < rows[i - 1].low
    ensures colors[i] == Grey <==> rows[i].high <= rows[i - 1].high && rows[i].low >= rows[i - 1].low
  {
  }

  /** The colouring of a table is determined by the table. */
  lemma PriceColoringUnique(rows: seq<PriceRow>, colors: seq<Color>, colors': seq<Color>)
    requires IsPriceColoring(rows, colors)
    requires IsPriceColoring(rows, colors')
    ensures colors == colors'
  {
    forall i | 0 <= i < |rows|
      ensures colors[i] == colors'[i]
    {
      if i > 0 {
        assert colors[i] == ChangeColor(rows[i - 1], rows[i]) == colors'[i];
      }
    }
  }

  /** The colour of row i depends only on rows i and i - 1: two tables that
      agree there give row i the same colour, whatever their other rows. */
  lemma PriceColoringLocal(rows: seq<PriceRow>, colors: seq<Color>,
                           rows': seq<PriceRow>, colors': seq<Color>, i: int)
    requires IsPriceColoring(rows, colors)
    requires IsPriceColoring(rows', colors')
    requires 0 <= i < |rows| && i < |rows'|
    requires rows[i] == rows'[i]
    requires i > 0 ==> rows[i - 1] == rows'[i - 1]
    ensures colors[i] == colors'[i]
  {
  }

  /** Colour of a news point from its sentiment label; unknown labels are grey. */
  function MapSentimentToColor(sentiment: string): (c: Color)
    ensures sentiment == "good" ==> c == Green
    ensures sentiment == "bad" ==> c == Red
    ensures sentiment != "good" && sentiment != "bad" ==> c == Grey
    ensures Name(c) == if sentiment == "good" then "green" else if sentiment == "bad" then "red" else "grey"
  {
    if sentiment == "good" then Green
    else if sentiment == "bad" then Red
    else Grey
  }

  /** Size of a news point from its sentiment label; unknown labels get 7. */
  function MapSentimentToSize(sentiment: string): (size: int)
    ensures size in {5, 7, 10}
    ensures sentiment == "good" ==> size == 10
    ensures sentiment == "bad" ==> size == 5
    ensures sentiment != "good" && sentiment != "bad" ==> size == 7
  {
    if sentiment == "good" then 10
    else if sentiment == "bad" then 5
    else 7
  }

  /** Colour and size encode the same three-way reading of the label:
      green points are the large ones, red the small ones, grey the middle. */
  lemma SizeFollowsColor(sentiment: string)
    ensures MapSentimentToColor(sentiment) == Green <==> MapSentimentToSize(sentiment) == 10
    ensures MapSentimentToColor(sentiment) == Red <==> MapSentimentToSize(sentiment) == 5
    ensures MapSentimentToColor(sentiment) == Grey <==> MapSentimentToSize(sentiment) == 7
  {
  }
}
