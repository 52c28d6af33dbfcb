/** What the two e-mail report generators share: the three-band score colour and the way a
    figure that may be missing is defaulted and printed into the report. */
module ReportCommon {
  import opened Wrappers
  import opened Json

  const Red := "#fcd9e4"
  const Yellow := "#fff7c5"
  const Green := "#caffc9"

  /** `getScoreColor`: red below 60, yellow from 60 up to 79, green from 80 on. The same
      function appears in both generators. */
  function ScoreColor(score: int): (r: string)
    ensures r == Red || r == Yellow || r == Green
    ensures r == Red <==> score < 60
    ensures r == Yellow <==> 60 <= score < 80
    ensures r == Green <==> 80 <= score
  {
    if score < 60 then Red
    else if score >= 60 && score < 80 then Yellow
    else Green
  }

  /** The bands in order of merit. */
  function Band(color: string): nat {
    if color == Red then 0 else if color == Yellow then 1 else 2
  }

  /** A higher score never gets a worse band. */
  lemma ScoreColorMonotone(a: int, b: int)
    requires a <= b
    ensures Band(ScoreColor(a)) <= Band(ScoreColor(b))
  {
  }

  /** The boundaries: 59 is red, 60 yellow, 79 yellow and 80 green. */
  lemma ScoreColorBoundaries()
    ensures ScoreColor(59) == Red && ScoreColor(60) == Yellow
    ensures ScoreColor(79) == Yellow && ScoreColor(80) == Green
  {
  }

  /** The document details the caller adds to a report; a missing one is `undefined`. */
  datatype ExtendedInputData = ExtendedInputData(
    documentName: Option<string>,
    documentOwner: Option<string>,
    documentLink: Option<string>)

  /** `x || 0` for a figure that may be missing. */
  function OrZero(x: Option<int>): (r: int)
    ensures x.Some? ==> r == x.value
    ensures x.None? ==> r == 0
  {
    if x.Some? && x.value != 0 then x.value else 0
  }

  /** `${x}` for a text that may be missing. */
  function ShowText(x: Option<string>): (r: string)
    ensures x.Some? ==> r == x.value
    ensures x.None? ==> r == "undefined"
  {
    if x.Some? then x.value else "undefined"
  }

  /** `${x}` for a number that may be missing. */
  function ShowNumber(x: Option<int>): (r: string)
    ensures x.Some? ==> r == IntToDecimal(x.value)
    ensures x.None? ==> r == "undefined"
  {
    if x.Some? then IntToDecimal(x.value) else "undefined"
  }

  /** One score tile of a report: its background colour and the number printed in it. */
  datatype Tile = Tile(color: string, shown: string)

  /** A tile whose figure defaults to 0: colour and printed number agree. */
  function DefaultedTile(x: Option<int>): (t: Tile)
    ensures x.None? ==> t == Tile(Red, "0")
    ensures x.Some? ==> t == Tile(ScoreColor(x.value), IntToDecimal(x.value))
  {
    var n := OrZero(x);
    Tile(ScoreColor(n), IntToDecimal(n))
  }

  /** The number printed in a defaulted tile reads back as the figure, or 0 when it is missing. */
  lemma DefaultedTileReadsBack(x: Option<int>)
    requires x.None? || x.value >= 0
    ensures var t := DefaultedTile(x);
      (forall i :: 0 <= i < |t.shown| ==> '0' <= t.shown[i] <= '9') && DecimalValue(t.shown) == OrZero(x)
  {
    DecimalRoundTrip(OrZero(x));
  }
}
