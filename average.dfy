/** `calculate_average_temp(data, failed)`: the mean reported at the end of a
    run, computed on exact reals (the final `round(..., 2)` is not modelled). */
module Average {
  import opened Python
  import opened Json
  import opened Seqs

  /** The text returned when there is no reading at all. */
  const COLLECTION_FAILED: string := "Data collection failed"

  /** What `calculate_average_temp` returns or raises. */
  datatype AverageResult =
    | Sentinel(message: string)
    | Average(value: real)
    | Raised(exc: PyException)

  /** `float(v)` on a collected reading. A number is itself, a boolean is 1.0
      or 0.0, a string is handed to Python's float parser (`parseFloat`,
      `None` when the parser raises `ValueError`), and `None`, a list or a
      dict raise `TypeError`. */
  function ToFloat(v: Json, parseFloat: string -> Option<real>): (r: Outcome<real>)
    ensures v.JNumber? ==> r == Ok(v.n)
    ensures r.Raise? && r.exc == TypeError <==> v.JNull? || v.JArray? || v.JObject?
  {
    match v
    case JNumber(n) => Ok(n)
    case JBool(b) => Ok(if b then 1.0 else 0.0)
    case JString(s) =>
      (match parseFloat(s)
       case Some(x) => Ok(x)
       case None => Raise(ValueError))
    case _ => Raise(TypeError)
  }

  /** Every reading survives `float()`. */
  predicate Convertible(data: seq<Json>, parseFloat: string -> Option<real>) {
    forall v :: v in data ==> ToFloat(v, parseFloat).Ok?
  }

  /** The value of `total_temp_number` after the loop over `data`, or the
      exception raised by the first reading `float()` rejects. */
  function Total(data: seq<Json>, parseFloat: string -> Option<real>): Outcome<real>
    decreases |data|
  {
    if data == [] then Ok(0.0)
    else
      match Total(data[..|data| - 1], parseFloat)
      case Raise(e) => Raise(e)
      case Ok(t) =>
        match ToFloat(data[|data| - 1], parseFloat)
        case Raise(e) => Raise(e)
        case Ok(x) => Ok(t + x)
  }

  /** The sum succeeds exactly when every reading converts. */
  lemma {:induction false} TotalOkIffConvertible(data: seq<Json>, parseFloat: string -> Option<real>)
    ensures Total(data, parseFloat).Ok? <==> Convertible(data, parseFloat)
    decreases |data|
  {
    if data != [] {
      var init := data[..|data| - 1];
      TotalOkIffConvertible(init, parseFloat);
      assert data == init + [data[|data| - 1]];
    }
  }

  /** Once a prefix of the loop has raised, the whole loop raises the same. */
  lemma {:induction false} TotalRaiseIsFinal(data: seq<Json>, i: nat, parseFloat: string -> Option<real>)
    requires i <= |data|
    requires Total(data[..i], parseFloat).Raise?
    ensures Total(data, parseFloat) == Total(data[..i], parseFloat)
    decreases |data|
  {
    if i < |data| {
      var init := data[..|data| - 1];
      assert init[..i] == data[..i];
      TotalRaiseIsFinal(init, i, parseFloat);
    } else {
      assert data[..i] == data;
    }
  }

  /** Summing with one reading taken out and added last gives the same total. */
  lemma {:induction false} TotalRemove(data: seq<Json>, k: nat, parseFloat: string -> Option<real>)
    requires k < |data|
    requires Convertible(data, parseFloat)
    ensures Total(data, parseFloat).Ok?
    ensures Total(data[..k] + data[k + 1..], parseFloat).Ok?
    ensures Total(data, parseFloat).value
      == Total(data[..k] + data[k + 1..], parseFloat).value + ToFloat(data[k], parseFloat).value
    decreases |data|
  {
    var n := |data|;
    var init := data[..n - 1];
    var without := data[..k] + data[k + 1..];
    assert Convertible(init, parseFloat) by {
      forall v | v in init ensures ToFloat(v, parseFloat).Ok? { assert v in data; }
    }
    assert Convertible(without, parseFloat) by {
      forall v | v in without ensures ToFloat(v, parseFloat).Ok? {
        assert v in data[..k] || v in data[k + 1..];
      }
    }
    TotalOkIffConvertible(data, parseFloat);
    TotalOkIffConvertible(without, parseFloat);
    TotalOkIffConvertible(init, parseFloat);
    if k == n - 1 {
      assert without == init;
    } else {
      var initWithout := init[..k] + init[k + 1..];
      assert without == initWithout + [data[n - 1]];
      assert without[..|without| - 1] == initWithout;
      TotalRemove(init, k, parseFloat);
      TotalOkIffConvertible(initWithout, parseFloat);
    }
  }

  /** The sum does not depend on the order of the readings. */
  lemma {:induction false} TotalPermutation(d1: seq<Json>, d2: seq<Json>, parseFloat: string -> Option<real>)
    requires multiset(d1) == multiset(d2)
    requires Convertible(d1, parseFloat)
    ensures Convertible(d2, parseFloat)
    ensures Total(d1, parseFloat) == Total(d2, parseFloat)
    decreases |d1|
  {
    assert Convertible(d2, parseFloat) by {
      forall v | v in d2 ensures ToFloat(v, parseFloat).Ok? {
        assert v in multiset(d2);
      }
    }
    if d1 == [] {
      assert d2 == [] by { assert |d2| == |multiset(d2)| == 0; }
    } else {
      var init := d1[..|d1| - 1];
      var k := MatchLast(d1, d2);
      var without := d2[..k] + d2[k + 1..];
      assert Convertible(init, parseFloat) by {
        forall v | v in init ensures ToFloat(v, parseFloat).Ok? { assert v in d1; }
      }
      TotalPermutation(init, without, parseFloat);
      TotalOkIffConvertible(init, parseFloat);
      TotalRemove(d2, k, parseFloat);
    }
  }

  /** `calculate_average_temp(data, failed)` as written: the sentinel for no
      data, otherwise the sum divided by `len(data) - failed`. */
  function AverageTempAsWritten(data: seq<Json>, failed: int, parseFloat: string -> Option<real>): AverageResult {
    if |data| == 0 then Sentinel(COLLECTION_FAILED)
    else
      match Total(data, parseFloat)
      case Raise(e) => Raised(e)
      case Ok(t) =>
        if |data| - failed == 0 then Raised(ZeroDivisionError)
        else Average(t / (|data| - failed) as real)
  }

  /** The loop of `calculate_average_temp`. */
  method CalculateAverageTemp(data: seq<Json>, failed: int, parseFloat: string -> Option<real>)
    returns (r: AverageResult)
    ensures r == AverageTempAsWritten(data, failed, parseFloat)
    ensures r.Sentinel? <==> |data| == 0
    ensures r == Raised(ZeroDivisionError) <==> |data| > 0 && failed == |data| && Convertible(data, parseFloat)
  {
    TotalOkIffConvertible(data, parseFloat);
    var amount := |data|;
    if amount == 0 {
      return Sentinel(COLLECTION_FAILED);
    }
    var total := 0.0;
    var i := 0;
    while i < amount
      invariant 0 <= i <= amount
      invariant Total(data[..i], parseFloat) == Ok(total)
    {
      assert data[..i + 1][..i] == data[..i];
      var x := ToFloat(data[i], parseFloat);
      if x.Raise? {
        assert data[..i + 1][i] == data[i];
        TotalRaiseIsFinal(data, i + 1, parseFloat);
        return Raised(x.exc);
      }
      total := total + x.value;
      i := i + 1;
    }
    assert data[..amount] == data;
    if amount - failed == 0 {
      return Raised(ZeroDivisionError);
    }
    r := Average(total / (amount - failed) as real);
  }

  /** The mean the report evidently means: the sum of the readings divided by
      how many there are. */
  function MeanTemp(data: seq<Json>, parseFloat: string -> Option<real>): AverageResult {
    if |data| == 0 then Sentinel(COLLECTION_FAILED)
    else
      match Total(data, parseFloat)
      case Raise(e) => Raised(e)
      case Ok(t) => Average(t / |data| as real)
  }

  /** Every reading converts to a value in `[lo, hi]`. */
  predicate WithinBounds(data: seq<Json>, lo: real, hi: real, parseFloat: string -> Option<real>) {
    forall v :: v in data ==> ToFloat(v, parseFloat).Ok? && lo <= ToFloat(v, parseFloat).value <= hi
  }

  /** Readings that all lie in `[lo, hi]` sum to between `n * lo` and `n * hi`. */
  lemma {:induction false} TotalBounds(data: seq<Json>, lo: real, hi: real, parseFloat: string -> Option<real>)
    requires WithinBounds(data, lo, hi, parseFloat)
    ensures Total(data, parseFloat).Ok?
    ensures |data| as real * lo <= Total(data, parseFloat).value <= |data| as real * hi
    decreases |data|
  {
    if data != [] {
      var init := data[..|data| - 1];
      var last := data[|data| - 1];
      assert WithinBounds(init, lo, hi, parseFloat) by {
        forall v | v in init ensures v in data { }
      }
      TotalBounds(init, lo, hi, parseFloat);
      assert last in data;
      var m := |init| as real;
      var t := Total(init, parseFloat).value;
      var x := ToFloat(last, parseFloat).value;
      assert Total(data, parseFloat).value == t + x;
      assert |data| as real * lo == m * lo + lo;
      assert |data| as real * hi == m * hi + hi;
    }
  }

  /** The corrected mean of readings that all lie in `[lo, hi]` lies in
      `[lo, hi]` too. */
  lemma MeanTempWithinBounds(data: seq<Json>, lo: real, hi: real, parseFloat: string -> Option<real>)
    requires |data| > 0
    requires WithinBounds(data, lo, hi, parseFloat)
    ensures MeanTemp(data, parseFloat).Average?
    ensures lo <= MeanTemp(data, parseFloat).value <= hi
  {
    TotalBounds(data, lo, hi, parseFloat);
    var n := |data| as real;
    var t := Total(data, parseFloat).value;
    assert n * lo <= t <= n * hi;
    assert t / n >= lo by { assert t >= n * lo; }
    assert t / n <= hi by { assert t <= n * hi; }
  }

  /** Neither mean depends on the order of the readings, as long as every
      reading converts. */
  lemma AverageOrderIndependent(d1: seq<Json>, d2: seq<Json>, failed: int, parseFloat: string -> Option<real>)
    requires multiset(d1) == multiset(d2)
    requires Convertible(d1, parseFloat)
    ensures AverageTempAsWritten(d1, failed, parseFloat) == AverageTempAsWritten(d2, failed, parseFloat)
    ensures MeanTemp(d1, parseFloat) == MeanTemp(d2, parseFloat)
  {
    TotalPermutation(d1, d2, parseFloat);
    assert |d1| == |multiset(d1)| == |multiset(d2)| == |d2|;
  }

  /** With no failed attempts the code as written computes the mean. */
  lemma AsWrittenIsMeanWithoutFailures(data: seq<Json>, parseFloat: string -> Option<real>)
    ensures AverageTempAsWritten(data, 0, parseFloat) == MeanTemp(data, parseFloat)
  {
  }

  /** Two readings, 10 and 20, with one failed attempt elsewhere: the code
      reports 30, outside the range of the readings; the mean is 15. */
  lemma AsWrittenOvershoots(parseFloat: string -> Option<real>)
    ensures AverageTempAsWritten([JNumber(10.0), JNumber(20.0)], 1, parseFloat) == Average(30.0)
    ensures MeanTemp([JNumber(10.0), JNumber(20.0)], parseFloat) == Average(15.0)
  {
    var d := [JNumber(10.0), JNumber(20.0)];
    assert d[..1] == [JNumber(10.0)];
    assert d[..1][..0] == [];
    assert Total(d[..1], parseFloat) == Ok(10.0);
    assert Total(d, parseFloat) == Ok(30.0);
  }

  /** One reading and one failed attempt: the code divides by zero. */
  lemma AsWrittenDividesByZero(parseFloat: string -> Option<real>)
    ensures AverageTempAsWritten([JNumber(10.0)], 1, parseFloat) == Raised(ZeroDivisionError)
    ensures MeanTemp([JNumber(10.0)], parseFloat) == Average(10.0)
  {
    assert [JNumber(10.0)][..0] == [];
  }

  /** A `None` reading makes the code raise `TypeError`. */
  lemma NoneReadingRaises(failed: int, parseFloat: string -> Option<real>)
    ensures AverageTempAsWritten([JNull], failed, parseFloat) == Raised(TypeError)
  {
    assert [JNull][..0] == [];
  }
}
