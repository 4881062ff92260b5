/** What the external ensemble-prediction tool hands back for one molecule, and how
    ChempropPredictor.predict_single turns that into a prediction vector. */
module Normalisation {

  /** A floating-point value read back from the tool's output table. Nothing is computed
      on these values: they are copied, or padded with the sentinel NegInf. */
  datatype Value = Num(x: real) | NegInf | PosInf | NaN

  /** A column of the parsed output table, tagged the way a numeric-dtype selection tags
      it; a numeric column carries its first-row value, already converted to a float. */
  datatype Column = NumericColumn(name: string, first: Value) | TextColumn(name: string)

  /** Everything that can come back from one run of the external tool. */
  datatype ToolOutcome =
    | LaunchFailure                                // the subprocess could not be started
    | ExitFailure(stdout: string, stderr: string)  // nonzero exit status
    | OutputMissing                                // no file at the output path afterwards
    | OutputEmpty                                  // the output file has size 0
    | Unreadable                                   // the output file is not a readable table
    | Table(columns: seq<Column>)                  // the parsed output table

  /** The number of positions a prediction vector is padded up to. */
  const Width: nat := 3

  function Max(a: int, b: int): (m: int) { if a < b then b else a }

  /** n copies of the sentinel value. */
  function NegInfs(n: nat): (r: seq<Value>) { seq(n, _ => NegInf) }

  /** The vector returned for every failure: three negative infinities. */
  function Sentinel(): (r: seq<Value>)
    ensures |r| == Width
    ensures forall k :: 0 <= k < |r| ==> r[k] == NegInf
  {
    NegInfs(Width)
  }

  /** The first-row values of the numeric columns, front to back, as the comprehension
      over the selected row produces them. */
  function NumericValues(cols: seq<Column>): (vs: seq<Value>)
  {
    if cols == [] then []
    else (if cols[0].NumericColumn? then [cols[0].first] else []) + NumericValues(cols[1..])
  }

  /** Reference for the selection: the positions of the numeric columns, built from the
      back, strictly increasing, and covering every numeric column. */
  function NumericIndices(cols: seq<Column>): (ix: seq<nat>)
    ensures forall k :: 0 <= k < |ix| ==> ix[k] < |cols| && cols[ix[k]].NumericColumn?
    ensures forall k, l :: 0 <= k < l < |ix| ==> ix[k] < ix[l]
    ensures forall i :: 0 <= i < |cols| && cols[i].NumericColumn? ==> i in ix
  {
    if cols == [] then []
    else
      var n := |cols| - 1;
      NumericIndices(cols[..n]) + (if cols[n].NumericColumn? then [n] else [])
  }

  lemma {:induction false} NumericValuesAppend(a: seq<Column>, b: seq<Column>)
    ensures NumericValues(a + b) == NumericValues(a) + NumericValues(b)
  {
    if a == [] {
      assert a + b == b;
    } else {
      assert (a + b)[1..] == a[1..] + b;
      NumericValuesAppend(a[1..], b);
    }
  }

  /** The selected values are exactly the numeric columns' first-row values, in column
      order: the k-th value comes from the k-th numeric column, text columns are dropped. */
  lemma {:induction false} NumericValuesInColumnOrder(cols: seq<Column>)
    ensures |NumericValues(cols)| == |NumericIndices(cols)|
    ensures forall k :: 0 <= k < |NumericIndices(cols)| ==>
              NumericValues(cols)[k] == cols[NumericIndices(cols)[k]].first
  {
    if cols != [] {
      var n := |cols| - 1;
      assert cols == cols[..n] + [cols[n]];
      NumericValuesAppend(cols[..n], [cols[n]]);
      assert [cols[n]][1..] == [];
      NumericValuesInColumnOrder(cols[..n]);
    }
  }

  /** Right-pads a list of means with the sentinel up to Width; never truncates. */
  function PadToWidth(means: seq<Value>): (r: seq<Value>)
  {
    if |means| < Width then means + NegInfs(Width - |means|) else means
  }

  /** The vector predict_single returns once both temporary files exist and the tool has
      run: the sentinel for every failing outcome and for a table without numeric columns;
      otherwise the numeric first-row values in column order, padded with NegInf to at least
      Width positions and never truncated. */
  function Normalise(o: ToolOutcome): (r: seq<Value>)
    ensures |r| >= Width
    ensures !o.Table? ==> r == Sentinel()
    ensures o.Table? ==> |r| == Max(Width, |NumericIndices(o.columns)|)
    ensures o.Table? ==> forall k :: 0 <= k < |NumericIndices(o.columns)| ==>
              r[k] == o.columns[NumericIndices(o.columns)[k]].first
    ensures o.Table? ==> forall k :: |NumericIndices(o.columns)| <= k < |r| ==> r[k] == NegInf
  {
    match o
    case Table(cols) =>
      NumericValuesInColumnOrder(cols);
      var means := NumericValues(cols);
      if |means| == 0 then Sentinel() else PadToWidth(means)
    case _ => Sentinel()
  }

  /** Callers can tell a failure only by looking for negative infinity: a vector equals
      the sentinel exactly when the tool failed, or when its table held at most Width
      numeric values, all of them negative infinity. */
  lemma SentinelCharacterised(o: ToolOutcome)
    ensures Normalise(o) == Sentinel() <==>
              !o.Table? ||
              (|NumericValues(o.columns)| <= Width &&
               forall k :: 0 <= k < |NumericValues(o.columns)| ==> NumericValues(o.columns)[k] == NegInf)
  {
    if o.Table? {
      NumericValuesInColumnOrder(o.columns);
      var r := Normalise(o);
      var n := |NumericValues(o.columns)|;
      if n <= Width && forall k :: 0 <= k < n ==> NumericValues(o.columns)[k] == NegInf {
        assert |r| == Width;
        forall k | 0 <= k < Width ensures r[k] == Sentinel()[k] {
          if k < n {
            assert r[k] == NumericValues(o.columns)[k];
          }
        }
      } else if n <= Width {
        var k :| 0 <= k < n && NumericValues(o.columns)[k] != NegInf;
        assert r[k] != Sentinel()[k];
      } else {
        assert |r| != |Sentinel()|;
      }
    }
  }

  /** A table whose only columns are the echoed SMILES and three predictions gives those
      three predictions. */
  lemma ThreePredictionsKept()
    ensures Normalise(Table([TextColumn("smiles"), NumericColumn("pred1", Num(450.3)),
                             NumericColumn("pred2", Num(4.12)), NumericColumn("pred3", Num(0.67))]))
            == [Num(450.3), Num(4.12), Num(0.67)]
  {
    var cols := [TextColumn("smiles"), NumericColumn("pred1", Num(450.3)),
                 NumericColumn("pred2", Num(4.12)), NumericColumn("pred3", Num(0.67))];
    NumericValuesAppend([cols[0], cols[1]], [cols[2], cols[3]]);
    NumericValuesAppend([cols[2]], [cols[3]]);
    NumericValuesAppend([cols[0]], [cols[1]]);
    assert [cols[0], cols[1]] + [cols[2], cols[3]] == cols;
    assert NumericValues(cols) == [Num(450.3), Num(4.12), Num(0.67)];
  }

  /** A single numeric column is padded with two negative infinities. */
  lemma OnePredictionPadded()
    ensures Normalise(Table([NumericColumn("pred", Num(300.0))])) == [Num(300.0), NegInf, NegInf]
  {
  }
}
