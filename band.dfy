/** Choosing the r-band image among the rows of the image-access metadata table. */
module Band {
  import opened Wrappers
  import Text

  /** The substring whose presence in a row's Title marks the r-band image. */
  const RBandMarker: string := "Filter r"

  /** One row of the metadata table: its descriptive Title and its image URL. */
  datatype Row = Row(title: string, url: string)

  predicate IsRBand(row: Row)
  {
    Text.Contains(row.title, RBandMarker)
  }

  /** Row `i` is an r-band row and no earlier row is. */
  predicate IsFirstMatch(rows: seq<Row>, i: int)
  {
    0 <= i < |rows| && IsRBand(rows[i]) && forall j :: 0 <= j < i ==> !IsRBand(rows[j])
  }

  /** There is at most one first match. */
  lemma FirstMatchUnique(rows: seq<Row>, i: int, k: int)
    requires IsFirstMatch(rows, i) && IsFirstMatch(rows, k)
    ensures i == k
  {
  }

  /** The row the selection settles on: the first r-band row in table order, if any. */
  function FirstBandRow(rows: seq<Row>): (r: Option<Row>)
    ensures r.None? <==> forall j :: 0 <= j < |rows| ==> !IsRBand(rows[j])
    ensures r.Some? ==> exists i :: IsFirstMatch(rows, i) && rows[i] == r.value
  {
    if rows == [] then
      None
    else if IsRBand(rows[0]) then
      assert IsFirstMatch(rows, 0);
      Some(rows[0])
    else
      var r := FirstBandRow(rows[1..]);
      assert forall j :: 1 <= j < |rows| ==> rows[j] == rows[1..][j - 1];
      assert r.Some? ==> exists i :: IsFirstMatch(rows, i) && rows[i] == r.value by {
        if r.Some? {
          var i :| IsFirstMatch(rows[1..], i) && rows[1..][i] == r.value;
          assert IsFirstMatch(rows, i + 1);
        }
      }
      r
  }

  /** Whatever the first r-band row is, the selection returns exactly that row. */
  lemma FirstBandRowIsFirstMatch(rows: seq<Row>, i: int)
    requires IsFirstMatch(rows, i)
    ensures FirstBandRow(rows) == Some(rows[i])
  {
  }

  /** The loop over the table rows that keeps the first row whose Title contains the marker. */
  method SelectRBand(table: seq<Row>) returns (rRow: Option<Row>)
    ensures rRow.None? <==> forall j :: 0 <= j < |table| ==> !IsRBand(table[j])
    ensures forall i :: IsFirstMatch(table, i) ==> rRow == Some(table[i])
  {
    rRow := None;
    for k := 0 to |table|
      invariant rRow.None?
      invariant forall j :: 0 <= j < k ==> !IsRBand(table[j])
    {
      if Text.Contains(table[k].title, RBandMarker) {
        rRow := Some(table[k]);
        assert IsFirstMatch(table, k);
        forall i | IsFirstMatch(table, i) ensures rRow == Some(table[i]) {
          FirstMatchUnique(table, i, k);
        }
        break;
      }
    }
  }
}
