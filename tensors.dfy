/** Two-dimensional tensors as sequences of rows, and the min/max normalisation
    bounds that both `convertToTensor` routines either reuse or compute.

    Numbers are compared as reals; the min-max scaling `(t - min) / (max - min)`
    is kept symbolic: a `Scaled` tensor records the rows and the two bounds it
    is scaled with, not the quotients. */
module Tensors {
  import opened Wrappers

  /** Width of an input row: 21 hand landmarks of 3 coordinates each. */
  const InputWidth: nat := 63
  /** Width of a label row: one value per gesture class. */
  const LabelWidth: nat := 2

  type Row = seq<real>

  /** The exception `tf.tensor2d` raises, with its shape-consistency check on,
      when a row does not have the declared width. */
  datatype ConvertError = InputShapeMismatch | LabelShapeMismatch

  /** A scalar tensor: a number, or the non-number a reduction over no element yields. */
  datatype Scalar = Num(v: real) | NaN

  /** The bounds object `{inputMax, inputMin, labelMax, labelMin}`. */
  datatype NormalizationData = NormalizationData(inputMax: Scalar, inputMin: Scalar, labelMax: Scalar, labelMin: Scalar)

  /** The tensor `(rows - min) / (max - min)`, kept symbolic. */
  datatype Scaled = Scaled(rows: seq<Row>, min: Scalar, max: Scalar)

  /** The `{inputs, labels}` object of normalised tensors. */
  datatype TensorPair = TensorPair(inputs: Scaled, labels: Scaled)

  /** `tf.tensor2d(rows, [rows.length, width])` accepts `rows`, with its
      shape-consistency check on. */
  predicate RowsHaveWidth(rows: seq<Row>, width: nat) {
    forall row | row in rows :: |row| == width
  }

  /** The tensor holds no value at all. */
  predicate HasNoValues(rows: seq<Row>) {
    forall row | row in rows :: row == []
  }

  /** `m` is what `tensor.max()` yields: the greatest value over the whole tensor,
      one scalar for all features, or NaN when there is no value. */
  ghost predicate IsMaxOf(m: Scalar, rows: seq<Row>) {
    if HasNoValues(rows) then m == NaN
    else
      && m.Num?
      && (exists row | row in rows :: m.v in row)
      && (forall row, x | row in rows && x in row :: x <= m.v)
  }

  /** `m` is what `tensor.min()` yields. */
  ghost predicate IsMinOf(m: Scalar, rows: seq<Row>) {
    if HasNoValues(rows) then m == NaN
    else
      && m.Num?
      && (exists row | row in rows :: m.v in row)
      && (forall row, x | row in rows && x in row :: m.v <= x)
  }

  /** The values of the tensor in row-major order. */
  function Flatten(rows: seq<Row>): (values: seq<real>)
    ensures forall x :: x in values <==> exists row | row in rows :: x in row
    ensures values == [] <==> HasNoValues(rows)
  {
    if rows == [] then []
    else
      var rest := Flatten(rows[1..]);
      assert forall row | row in rows :: row == rows[0] || row in rows[1..];
      assert rows[0] in rows && forall row | row in rows[1..] :: row in rows;
      assert HasNoValues(rows) ==> rows[0] == [] && HasNoValues(rows[1..]);
      assert !HasNoValues(rows) ==> rows[0] != [] || !HasNoValues(rows[1..]);
      rows[0] + rest
  }

  function MaxValue(values: seq<real>): (m: real)
    requires values != []
    ensures m in values
    ensures forall x | x in values :: x <= m
  {
    if |values| == 1 then values[0]
    else
      var rest := MaxValue(values[1..]);
      assert forall x | x in values :: x == values[0] || x in values[1..];
      if values[0] >= rest then values[0] else rest
  }

  function MinValue(values: seq<real>): (m: real)
    requires values != []
    ensures m in values
    ensures forall x | x in values :: m <= x
  {
    if |values| == 1 then values[0]
    else
      var rest := MinValue(values[1..]);
      assert forall x | x in values :: x == values[0] || x in values[1..];
      if values[0] <= rest then values[0] else rest
  }

  /** `tensor.max()`. */
  function TensorMax(rows: seq<Row>): (m: Scalar)
    ensures IsMaxOf(m, rows)
  {
    var values := Flatten(rows);
    assert forall row, x | row in rows && x in row :: x in values;
    if values == [] then NaN else Num(MaxValue(values))
  }

  /** `tensor.min()`. */
  function TensorMin(rows: seq<Row>): (m: Scalar)
    ensures IsMinOf(m, rows)
  {
    var values := Flatten(rows);
    assert forall row, x | row in rows && x in row :: x in values;
    if values == [] then NaN else Num(MinValue(values))
  }

  /** The bounds computed afresh from an input and a label tensor. */
  function GlobalBounds(inputs: seq<Row>, labels: seq<Row>): NormalizationData {
    NormalizationData(TensorMax(inputs), TensorMin(inputs), TensorMax(labels), TensorMin(labels))
  }

  /** Both tensors normalised with the bounds `b`. */
  function ScaleWith(inputs: seq<Row>, labels: seq<Row>, b: NormalizationData): TensorPair {
    TensorPair(Scaled(inputs, b.inputMin, b.inputMax), Scaled(labels, b.labelMin, b.labelMax))
  }

  /** Freshly computed bounds enclose every value: inputMin <= x <= inputMax for
      each input value and labelMin <= y <= labelMax for each label value. */
  lemma GlobalBoundsEnclose(inputs: seq<Row>, labels: seq<Row>)
    ensures var b := GlobalBounds(inputs, labels);
      && (forall row, x | row in inputs && x in row :: b.inputMin.Num? && b.inputMax.Num? && b.inputMin.v <= x <= b.inputMax.v)
      && (forall row, y | row in labels && y in row :: b.labelMin.Num? && b.labelMax.Num? && b.labelMin.v <= y <= b.labelMax.v)
  {
  }

  /** The maximum of a tensor depends only on which rows it holds: two tensors
      with the same rows, in whatever order or multiplicity, have the same one. */
  lemma MaxOfIsUnique(m: Scalar, rows: seq<Row>, m': Scalar, rows': seq<Row>)
    requires IsMaxOf(m, rows) && IsMaxOf(m', rows')
    requires forall row :: row in rows <==> row in rows'
    ensures m == m'
  {
  }

  /** The minimum of a tensor depends only on which rows it holds. */
  lemma MinOfIsUnique(m: Scalar, rows: seq<Row>, m': Scalar, rows': seq<Row>)
    requires IsMinOf(m, rows) && IsMinOf(m', rows')
    requires forall row :: row in rows <==> row in rows'
    ensures m == m'
  {
  }

  /** Reordering the rows of both tensors (a shuffle) leaves the computed bounds unchanged. */
  lemma GlobalBoundsIgnoreOrder(inputs: seq<Row>, labels: seq<Row>, inputs': seq<Row>, labels': seq<Row>)
    requires forall row :: row in inputs <==> row in inputs'
    requires forall row :: row in labels <==> row in labels'
    ensures GlobalBounds(inputs, labels) == GlobalBounds(inputs', labels')
  {
  }

  /** The branch of `convertToTensor` that picks the bounds: supplied bounds are
      reused field by field; otherwise each is a reduction over its whole tensor. */
  method SelectBounds(inputs: seq<Row>, labels: seq<Row>, normalizationData: Option<NormalizationData>)
    returns (b: NormalizationData)
    ensures normalizationData.Some? ==> b == normalizationData.value
    ensures normalizationData.None? ==>
      && IsMaxOf(b.inputMax, inputs) && IsMinOf(b.inputMin, inputs)
      && IsMaxOf(b.labelMax, labels) && IsMinOf(b.labelMin, labels)
    ensures normalizationData.None? ==> b == GlobalBounds(inputs, labels)
  {
    var inputMax, inputMin, labelMax, labelMin;
    if normalizationData.Some? {
      inputMax := normalizationData.value.inputMax;
      inputMin := normalizationData.value.inputMin;
      labelMax := normalizationData.value.labelMax;
      labelMin := normalizationData.value.labelMin;
    } else {
      inputMax := TensorMax(inputs);
      inputMin := TensorMin(inputs);
      labelMax := TensorMax(labels);
      labelMin := TensorMin(labels);
    }
    b := NormalizationData(inputMax, inputMin, labelMax, labelMin);
  }
}
