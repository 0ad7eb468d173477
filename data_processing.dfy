/**
 * GPDataParser: turns the concatenation-layer outputs of a pretrained network
 * into scaled GP input vectors. The scaling factor is either given or computed
 * as the largest absolute entry over the training outputs, and every output
 * vector is divided by it.
 *
 * The layer outputs themselves come from the network and enter as values: a
 * training frame is its `layer_out` column, one vector per structure, and
 * `structures_to_input` receives the layer outputs of its structures.
 */
module DataProcessing {
  import opened Wrappers
  import opened Floats

  datatype ParserError =
    | MissingScalingFactor  // ValueError: neither a scaling factor nor training data
    | BothGiven             // ValueError: both a scaling factor and training data
    | NoTrainingData        // AttributeError: no training data to compute a factor from
    | EmptyTrainingSet      // ValueError from `max` of no vectors
    | EmptyVector           // ValueError from `np.amax` of an empty vector

  function Abs(x: real): (r: real)
    ensures r >= 0.0 && (r == x || r == -x)
  {
    if x < 0.0 then -x else x
  }

  /** `np.amax(np.absolute(v))` of a non-empty vector. */
  function MaxAbs(v: seq<real>): (r: real)
    requires |v| > 0
    ensures forall j :: 0 <= j < |v| ==> Abs(v[j]) <= r
    ensures exists j :: 0 <= j < |v| && Abs(v[j]) == r
  {
    if |v| == 1 then Abs(v[0])
    else
      var rest := MaxAbs(v[1..]);
      assert forall j :: 1 <= j < |v| ==> v[j] == v[1..][j - 1];
      if Abs(v[0]) >= rest then Abs(v[0]) else rest
  }

  /** Every vector has an entry for `np.amax` to reduce. */
  predicate AllNonEmpty(rows: seq<seq<real>>) {
    forall i :: 0 <= i < |rows| ==> |rows[i]| > 0
  }

  /** `max(map(np.amax, map(np.absolute, rows)))` over non-empty vectors. */
  function MaxAbsOfRows(rows: seq<seq<real>>): (r: real)
    requires |rows| > 0 && AllNonEmpty(rows)
    ensures forall i, j :: 0 <= i < |rows| && 0 <= j < |rows[i]| ==> Abs(rows[i][j]) <= r
    ensures exists i, j :: 0 <= i < |rows| && 0 <= j < |rows[i]| && Abs(rows[i][j]) == r
  {
    if |rows| == 1 then MaxAbs(rows[0])
    else
      var first, rest := MaxAbs(rows[0]), MaxAbsOfRows(rows[1..]);
      assert forall i :: 1 <= i < |rows| ==> rows[i] == rows[1..][i - 1];
      if first >= rest then first else rest
  }

  /**
   * `_calc_scaling_factor`: the largest absolute entry across the training
   * outputs. Without training data it raises; an empty frame or an empty
   * vector make the reductions raise.
   */
  function ScalingFactor(rows: Option<seq<seq<real>>>): (r: Result<real, ParserError>)
    ensures rows.None? ==> r == Failure(NoTrainingData)
    ensures rows.Some? && |rows.value| == 0 ==> r == Failure(EmptyTrainingSet)
    ensures rows.Some? && |rows.value| > 0 && !AllNonEmpty(rows.value) ==> r == Failure(EmptyVector)
    ensures r.Success? <==> rows.Some? && |rows.value| > 0 && AllNonEmpty(rows.value)
    ensures r.Success? ==> r.value >= 0.0 && IsScalingFactor(rows.value, r.value)
  {
    if rows.None? then Failure(NoTrainingData)
    else if |rows.value| == 0 then Failure(EmptyTrainingSet)
    else if !AllNonEmpty(rows.value) then Failure(EmptyVector)
    else Success(MaxAbsOfRows(rows.value))
  }

  /** What a scaling factor of the rows is: it bounds every absolute entry and one entry reaches it. */
  ghost predicate IsScalingFactor(rows: seq<seq<real>>, sf: real) {
    (forall i, j :: 0 <= i < |rows| && 0 <= j < |rows[i]| ==> Abs(rows[i][j]) <= sf) &&
    (exists i, j :: 0 <= i < |rows| && 0 <= j < |rows[i]| && Abs(rows[i][j]) == sf)
  }

  /** `out / sf` with numpy's float division. */
  function Scale(out: seq<real>, sf: real): (r: seq<Float>)
    ensures |r| == |out|
    ensures forall j :: 0 <= j < |r| ==> r[j] == Div(Num(out[j]), Num(sf))
  {
    seq(|out|, j requires 0 <= j < |out| => Div(Num(out[j]), Num(sf)))
  }

  /** Every vector of a list divided by the factor, in order. */
  function ScaleAll(outs: seq<seq<real>>, sf: real): (r: seq<seq<Float>>)
    ensures |r| == |outs|
    ensures forall i :: 0 <= i < |r| ==> r[i] == Scale(outs[i], sf)
  {
    seq(|outs|, i requires 0 <= i < |outs| => Scale(outs[i], sf))
  }

  /** With `x == q * sf` and `sf > 0`, `q` lies in [-1, 1] exactly when `x` lies in [-sf, sf]. */
  lemma QuotientBound(x: real, sf: real, q: real)
    requires sf > 0.0 && x == q * sf
    ensures -1.0 <= q <= 1.0 <==> Abs(x) <= sf
    ensures Abs(x) == sf ==> Abs(q) == 1.0
  {
    if q > 1.0 {
      PositiveProduct(q - 1.0, sf);
    } else if q < -1.0 {
      PositiveProduct(-1.0 - q, sf);
    } else {
      if q < 1.0 {
        PositiveProduct(1.0 - q, sf);
      }
      if q > -1.0 {
        PositiveProduct(q + 1.0, sf);
      }
    }
  }

  /** Dividing by a positive factor keeps an entry within [-1, 1] exactly when it is within [-sf, sf]. */
  lemma ScaledEntryBound(x: real, sf: real)
    requires sf > 0.0
    ensures Div(Num(x), Num(sf)).Num?
    ensures -1.0 <= Div(Num(x), Num(sf)).v <= 1.0 <==> Abs(x) <= sf
    ensures Abs(x) == sf ==> Abs(Div(Num(x), Num(sf)).v) == 1.0
  {
    var q := x / sf;
    assert Div(Num(x), Num(sf)) == Num(q);
    QuotientBound(x, sf, q);
  }

  /** A GPDataParser: its training frame's scaled `layer_out` column, if any, and its scaling factor. */
  class DataParser {
    var trainingData: Option<seq<seq<Float>>>
    var sf: real

    constructor (trainingData: Option<seq<seq<Float>>>, sf: real)
      ensures this.trainingData == trainingData && this.sf == sf
    {
      this.trainingData := trainingData;
      this.sf := sf;
    }

    /**
     * `GPDataParser(model, sf, training_df)`: exactly one of the scaling factor
     * and the training outputs must be given. With the factor alone there is no
     * training data; with the outputs alone the factor is computed from them and
     * the stored column is divided by it.
     */
    static method Create(sf: Option<real>, layerOuts: Option<seq<seq<real>>>) returns (r: Result<DataParser, ParserError>)
      ensures layerOuts.None? && sf.None? ==> r == Failure(MissingScalingFactor)
      ensures layerOuts.Some? && sf.Some? ==> r == Failure(BothGiven)
      ensures layerOuts.None? && sf.Some? ==>
        r.Success? && r.value.trainingData.None? && r.value.sf == sf.value
      ensures layerOuts.Some? && sf.None? ==>
        match ScalingFactor(layerOuts)
        case Failure(e) => r == Failure(e)
        case Success(f) =>
          r.Success? && r.value.sf == f && r.value.trainingData == Some(ScaleAll(layerOuts.value, f))
      ensures r.Success? ==> fresh(r.value)
    {
      if layerOuts.None? {
        if sf.None? {
          return Failure(MissingScalingFactor);
        }
        var p := new DataParser(None, sf.value);
        return Success(p);
      }
      if sf.Some? {
        return Failure(BothGiven);
      }
      var f := ScalingFactor(layerOuts);
      if f.Failure? {
        return Failure(f.error);
      }
      var p := new DataParser(None, f.value);
      p.trainingData := Some(ScaleAll(layerOuts.value, p.sf));
      return Success(p);
    }

    /** `structures_to_input`: each structure's layer output divided by the stored factor, in order. */
    function ToInput(outs: seq<seq<real>>): (r: seq<seq<Float>>)
      reads this
      ensures |r| == |outs|
      ensures forall i :: 0 <= i < |r| ==> |r[i]| == |outs[i]|
      ensures forall i, j :: 0 <= i < |r| && 0 <= j < |r[i]| ==> r[i][j] == Div(Num(outs[i][j]), Num(sf))
    {
      ScaleAll(outs, sf)
    }
  }

  /**
   * A parser built from training outputs whose largest absolute entry is
   * non-zero stores every entry within [-1, 1], with some entry at -1 or 1.
   */
  lemma TrainingColumnInUnitRange(rows: seq<seq<real>>, sf: real)
    requires ScalingFactor(Some(rows)) == Success(sf) && sf != 0.0
    ensures forall i, j :: 0 <= i < |rows| && 0 <= j < |rows[i]| ==>
      ScaleAll(rows, sf)[i][j].Num? && -1.0 <= ScaleAll(rows, sf)[i][j].v <= 1.0
    ensures exists i, j ::
      (0 <= i < |rows| && 0 <= j < |rows[i]| &&
       ScaleAll(rows, sf)[i][j].Num? && Abs(ScaleAll(rows, sf)[i][j].v) == 1.0)
  {
    var s: seq<seq<Float>> := ScaleAll(rows, sf);
    forall i, j | 0 <= i < |rows| && 0 <= j < |rows[i]|
      ensures s[i][j].Num? && -1.0 <= s[i][j].v <= 1.0
    {
      ScaledEntryBound(rows[i][j], sf);
    }
    var i, j :| 0 <= i < |rows| && 0 <= j < |rows[i]| && Abs(rows[i][j]) == sf;
    ScaledEntryBound(rows[i][j], sf);
  }

  /** Training outputs that are all zero give a factor of 0, and every stored entry is 0 / 0 = NaN. */
  lemma ZeroFactorGivesNaN(rows: seq<seq<real>>)
    requires ScalingFactor(Some(rows)) == Success(0.0)
    ensures forall i, j :: 0 <= i < |rows| && 0 <= j < |rows[i]| ==> ScaleAll(rows, 0.0)[i][j].NaN?
  {
    forall i, j | 0 <= i < |rows| && 0 <= j < |rows[i]|
      ensures ScaleAll(rows, 0.0)[i][j].NaN?
    {
      assert Abs(rows[i][j]) <= 0.0;
    }
  }
}
