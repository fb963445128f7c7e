/** The data preparation of `src/script.js`: the cleaning of the fetched car
    records, the `pad_array` helper, and `convertToTensor`, which shuffles its
    samples in place unless bounds are supplied and then builds the normalised
    input and label tensors. */
module Script {
  import opened Wrappers
  import opened Tensors

  // ---------------------------------------------------------------- pad_array

  /** `arr.concat(Array(len).fill(fill)).slice(0, len)`: exactly `len` elements,
      the prefix of `arr` first and `fill` after it. */
  function PadArray<T>(arr: seq<T>, len: nat, fill: T): (r: seq<T>)
    ensures |r| == len
    ensures forall i | 0 <= i < len && i < |arr| :: r[i] == arr[i]
    ensures forall i | |arr| <= i < len :: r[i] == fill
  {
    (arr + seq(len, _ => fill))[..len]
  }

  /** The two cases of padding: a long row is truncated to its first `len`
      elements, a short one is extended with `len - |arr|` copies of `fill`. */
  lemma PadArrayCases<T>(arr: seq<T>, len: nat, fill: T)
    ensures |arr| >= len ==> PadArray(arr, len, fill) == arr[..len]
    ensures |arr| <= len ==> PadArray(arr, len, fill) == arr + seq(len - |arr|, _ => fill)
  {
  }

  /** Padding an already padded row changes nothing. */
  lemma PadArrayIdempotent<T>(arr: seq<T>, len: nat, fill: T)
    ensures PadArray(PadArray(arr, len, fill), len, fill) == PadArray(arr, len, fill)
  {
  }

  // ----------------------------------------------------------- getData cleaning

  /** A JSON value as read from a record property; a missing property reads as `Undefined`. */
  datatype JsValue = Undefined | Null | Number(n: real) | Text(s: string) | Bool(b: bool)

  /** A record of the fetched `carsData.json`, property name to value. */
  type RawCar = map<string, JsValue>

  /** The four properties the cleaning keeps, under their new names. */
  datatype Car = Car(mpg: JsValue, cylinders: JsValue, weight: JsValue, horsepower: JsValue)

  /** `car.key` */
  function Prop(car: RawCar, key: string): JsValue {
    if key in car then car[key] else Undefined
  }

  /** `v != null`, the loose comparison, is false exactly for `null` and `undefined`. */
  predicate IsNullish(v: JsValue) {
    v.Null? || v.Undefined?
  }

  /** The `map` callback of `getData`. */
  function Project(car: RawCar): Car {
    Car(Prop(car, "Miles_per_Gallon"), Prop(car, "Cylinders"), Prop(car, "Weight_in_lbs"), Prop(car, "Horsepower"))
  }

  /** The `filter` callback of `getData`. */
  predicate Complete(car: Car) {
    !IsNullish(car.mpg) && !IsNullish(car.horsepower) && !IsNullish(car.weight) && !IsNullish(car.cylinders)
  }

  /** `carsData.map(Project).filter(Complete)`: every record kept has all four
      fields, every complete projection is kept, and nothing else appears. */
  function CleanCars(carsData: seq<RawCar>): (cleaned: seq<Car>)
    ensures |cleaned| <= |carsData|
    ensures forall car | car in cleaned :: Complete(car)
    ensures forall raw | raw in carsData && Complete(Project(raw)) :: Project(raw) in cleaned
    ensures forall car | car in cleaned :: exists raw | raw in carsData :: Project(raw) == car
  {
    if carsData == [] then []
    else
      var rest := CleanCars(carsData[1..]);
      assert forall raw | raw in carsData :: raw == carsData[0] || raw in carsData[1..];
      var car := Project(carsData[0]);
      if Complete(car) then [car] + rest else rest
  }

  /** Cleaning works record by record and keeps the input order. */
  lemma {:induction false} CleanCarsAppend(a: seq<RawCar>, b: seq<RawCar>)
    ensures CleanCars(a + b) == CleanCars(a) + CleanCars(b)
  {
    if a == [] {
      assert a + b == b;
    } else {
      assert (a + b)[1..] == a[1..] + b;
      CleanCarsAppend(a[1..], b);
    }
  }

  /** Why the cleaning throws: reading a property of a `null` element of `carsData`. */
  datatype CleanError = NullRecord

  /** The records of a `carsData` array that holds no `null` element. */
  function Records(carsData: seq<Option<RawCar>>): (records: seq<RawCar>)
    requires None !in carsData
    ensures |records| == |carsData|
    ensures forall i | 0 <= i < |carsData| :: carsData[i] == Some(records[i])
  {
    assert forall i | 0 <= i < |carsData| :: carsData[i] in carsData && carsData[i] != None;
    var records := seq(|carsData|, i requires 0 <= i < |carsData| => carsData[i].value);
    assert forall i | 0 <= i < |carsData| :: records[i] == carsData[i].value;
    records
  }

  /** The cleaning of `getData` on the decoded JSON array, whose elements may be
      `null` (`None`). The `map` callback reads a property of every element, so
      a `null` anywhere throws before the `filter` runs; otherwise the result is
      the cleaning of the records. A number, string or boolean element has no
      such property and reads like a record without properties. */
  function CleanData(carsData: seq<Option<RawCar>>): (r: Result<seq<Car>, CleanError>)
    ensures r.Failure? <==> None in carsData
    ensures r.Failure? ==> r.error == NullRecord
    ensures r.Success? ==> r.value == CleanCars(Records(carsData))
  {
    if carsData == [] then Success([])
    else if carsData[0].None? then Failure(NullRecord)
    else
      match CleanData(carsData[1..])
      case Failure(e) =>
        assert None in carsData[1..];
        Failure(e)
      case Success(rest) =>
        assert Records(carsData)[1..] == Records(carsData[1..]);
        var car := Project(carsData[0].value);
        Success(if Complete(car) then [car] + rest else rest)
  }

  /** A record is dropped exactly when one of the four properties is `null` or
      `undefined`; otherwise it is kept with the properties renamed. */
  lemma CleanCarsDropsExactlyNullish(raw: RawCar)
    ensures CleanCars([raw]) == [] <==>
      || IsNullish(Prop(raw, "Miles_per_Gallon")) || IsNullish(Prop(raw, "Cylinders"))
      || IsNullish(Prop(raw, "Weight_in_lbs")) || IsNullish(Prop(raw, "Horsepower"))
    ensures CleanCars([raw]) != [] ==>
      CleanCars([raw]) == [Car(Prop(raw, "Miles_per_Gallon"), Prop(raw, "Cylinders"), Prop(raw, "Weight_in_lbs"), Prop(raw, "Horsepower"))]
  {
  }

  // --------------------------------------------------------- convertToTensor

  /** One element of `data`: `{inputs, labels}`. */
  datatype Sample = Sample(inputs: seq<real>, labels: seq<real>)

  /** `data.map(d => pad_array(d.inputs, 63, 0))`: every row has the input width. */
  function InputRows(data: seq<Sample>): (rows: seq<Row>)
    ensures |rows| == |data|
    ensures RowsHaveWidth(rows, InputWidth)
  {
    seq(|data|, i requires 0 <= i < |data| => PadArray(data[i].inputs, InputWidth, 0.0))
  }

  /** `data.map(d => d.labels)`. */
  function LabelRows(data: seq<Sample>): (rows: seq<Row>)
    ensures |rows| == |data|
  {
    seq(|data|, i requires 0 <= i < |data| => data[i].labels)
  }

  /** Two sample sequences holding the same samples yield tensors holding the same rows. */
  lemma SameSamplesSameRows(data: seq<Sample>, data': seq<Sample>)
    requires forall d :: d in data <==> d in data'
    ensures forall row :: row in InputRows(data) <==> row in InputRows(data')
    ensures forall row :: row in LabelRows(data) <==> row in LabelRows(data')
  {
    forall row | row in InputRows(data) ensures row in InputRows(data') {
      var i :| 0 <= i < |data| && InputRows(data)[i] == row;
      assert data[i] in data';
      var j :| 0 <= j < |data'| && data'[j] == data[i];
      assert InputRows(data')[j] == row;
    }
    forall row | row in InputRows(data') ensures row in InputRows(data) {
      var j :| 0 <= j < |data'| && InputRows(data')[j] == row;
      assert data'[j] in data;
      var i :| 0 <= i < |data| && data[i] == data'[j];
      assert InputRows(data)[i] == row;
    }
    forall row | row in LabelRows(data) ensures row in LabelRows(data') {
      var i :| 0 <= i < |data| && LabelRows(data)[i] == row;
      assert data[i] in data';
      var j :| 0 <= j < |data'| && data'[j] == data[i];
      assert LabelRows(data')[j] == row;
    }
    forall row | row in LabelRows(data') ensures row in LabelRows(data) {
      var j :| 0 <= j < |data'| && LabelRows(data')[j] == row;
      assert data'[j] in data;
      var i :| 0 <= i < |data| && data[i] == data'[j];
      assert LabelRows(data)[i] == row;
    }
  }

  /** Shuffling the samples before the tensors are built does not change the
      bounds computed from them. */
  lemma ShuffleKeepsBounds(data: seq<Sample>, shuffled: seq<Sample>)
    requires multiset(shuffled) == multiset(data)
    ensures GlobalBounds(InputRows(shuffled), LabelRows(shuffled)) == GlobalBounds(InputRows(data), LabelRows(data))
  {
    assert forall d :: d in data <==> d in multiset(data);
    assert forall d :: d in shuffled <==> d in multiset(shuffled);
    SameSamplesSameRows(shuffled, data);
    GlobalBoundsIgnoreOrder(InputRows(shuffled), LabelRows(shuffled), InputRows(data), LabelRows(data));
  }

  /** `tf.util.shuffle(data)`: walks a counter down from the length and swaps
      the element at the counter with one at a random index below it. The
      random index is any index the draw can give. */
  method Shuffle(data: array<Sample>)
    modifies data
    ensures multiset(data[..]) == multiset(old(data[..]))
  {
    var counter := data.Length;
    while counter > 0
      invariant 0 <= counter <= data.Length
      invariant multiset(data[..]) == multiset(old(data[..]))
    {
      var index :| 0 <= index < counter;
      counter := counter - 1;
      data[counter], data[index] := data[index], data[counter];
    }
  }

  /** `convertToTensor(data, normalizationData)`. Without bounds the samples are
      shuffled in place and the bounds are the global extremes of each tensor,
      which the shuffle does not affect; supplied bounds are reused and the
      samples keep their order. Only the label tensor can have the wrong shape,
      since every input row is padded to 63 values. */
  method ConvertToTensor(data: array<Sample>, normalizationData: Option<NormalizationData>)
    returns (r: Result<(TensorPair, NormalizationData), ConvertError>)
    modifies data
    ensures normalizationData.Some? ==> data[..] == old(data[..])
    ensures multiset(data[..]) == multiset(old(data[..]))
    ensures r.Success? <==> RowsHaveWidth(LabelRows(data[..]), LabelWidth)
    ensures r.Failure? ==> r.error == LabelShapeMismatch
    ensures r.Success? ==> r.value.0 == ScaleWith(InputRows(data[..]), LabelRows(data[..]), r.value.1)
    ensures r.Success? ==> |r.value.0.inputs.rows| == data.Length && RowsHaveWidth(r.value.0.inputs.rows, InputWidth)
    ensures r.Success? && normalizationData.Some? ==> r.value.1 == normalizationData.value
    ensures r.Success? && normalizationData.None? ==>
      r.value.1 == GlobalBounds(InputRows(old(data[..])), LabelRows(old(data[..])))
  {
    if normalizationData.None? {
      Shuffle(data);
    }
    var inputs := InputRows(data[..]);
    var labels := LabelRows(data[..]);
    if !RowsHaveWidth(labels, LabelWidth) {
      return Failure(LabelShapeMismatch);
    }
    var bounds := SelectBounds(inputs, labels, normalizationData);
    if normalizationData.None? {
      ShuffleKeepsBounds(old(data[..]), data[..]);
    }
    r := Success((ScaleWith(inputs, labels, bounds), bounds));
  }
}
