/**
 * The plugin half (src/main.rs): turning the shell's loosely typed pipeline
 * input into an ordered sequence of samples, and overlaying the optional
 * call flags onto the default plot options.
 *
 * The shell's values are reduced to the kinds the normaliser tells apart;
 * `Bool`, `String` and `Nothing` stand for every other kind of value, all of
 * which fall into the same catch-all arm.
 */
module PluginMain {
  import opened Wrappers
  import opened PlotLib

  /** A shell value, as far as the normaliser looks at it. */
  datatype Value =
    | Int(i: int)
    | Float(f: real)
    | Bool(b: bool)
    | String(s: string)
    | Nothing
    | Record(fields: map<string, Value>)
    | List(vals: seq<Value>)

  /** The shape tracker: undetermined, a list of bare numbers, or a table of records. */
  datatype InputParse = Start | NumberList | Table

  /** The normaliser's failures, each carrying what its message names. */
  datatype InputError =
    | MixedShapes
    | MissingX(index: nat)
    | MissingY(index: nat)
    | IncorrectType(value: Value)
    | IncorrectInputType

  /** The label each failure is reported under; the label alone tells the failures apart. */
  function Label(e: InputError): (r: string)
    ensures r == "Input contains a mix of numbers and records" <==> e.MixedShapes?
    ensures r == "Missing x value" <==> e.MissingX?
    ensures r == "Missing y value" <==> e.MissingY?
    ensures r == "Incorrect type" <==> e.IncorrectType?
    ensures r == "Incorrect input type" <==> e.IncorrectInputType?
  {
    match e
    case MixedShapes => "Input contains a mix of numbers and records"
    case MissingX(_) => "Missing x value"
    case MissingY(_) => "Missing y value"
    case IncorrectType(_) => "Incorrect type"
    case IncorrectInputType => "Incorrect input type"
  }

  predicate IsNumber(v: Value)
  {
    v.Int? || v.Float?
  }

  /** `get_number`: integers and floats are numbers, every other kind is "Incorrect type". */
  function GetNumber(v: Value): (r: Result<real, InputError>)
    ensures r.Ok? <==> IsNumber(v)
    ensures v.Int? ==> r == Ok(v.i as real)
    ensures v.Float? ==> r == Ok(v.f)
    ensures !IsNumber(v) ==> r == Err(IncorrectType(v))
  {
    match v
    case Int(i) => Ok(i as real)
    case Float(f) => Ok(f)
    case _ => Err(IncorrectType(v))
  }

  // ---------------------------------------------------------------------------
  // The normaliser as a fold
  // ---------------------------------------------------------------------------

  /** The shape an element fixes when it is the first one: numbers a list, records a table. */
  function ShapeOf(v: Value): InputParse
  {
    if IsNumber(v) then NumberList else if v.Record? then Table else Start
  }

  /** The shape tracker after looking at `v`: only an undetermined shape changes. */
  function Advance(state: InputParse, v: Value): InputParse
  {
    if state == Start then ShapeOf(v) else state
  }

  /** The record arm: `x` is looked up and checked before `y` is looked at. */
  function RecordSample(i: nat, fields: map<string, Value>): Result<Sample, InputError>
  {
    if "x" !in fields then Err(MissingX(i))
    else
      var x :- GetNumber(fields["x"]);
      if "y" !in fields then Err(MissingY(i))
      else
        var y :- GetNumber(fields["y"]);
        Ok(Sample(x, y))
  }

  /** What the closure yields for element `i` when the tracker is in `state`. */
  function Step(state: InputParse, i: nat, v: Value): Result<Sample, InputError>
  {
    if IsNumber(v) then
      if state == Table then Err(MixedShapes)
      else Ok(Sample(i as real, GetNumber(v).value))
    else if v.Record? then
      if state == NumberList then Err(MixedShapes)
      else RecordSample(i, v.fields)
    else Err(IncorrectInputType)
  }

  /** Collecting the closure's results from element `i` on: all samples, or the first error. */
  function CollectFrom(vals: seq<Value>, i: nat, state: InputParse): (r: Result<seq<Sample>, InputError>)
    requires i <= |vals|
    ensures r.Ok? ==> |r.value| == |vals| - i
    decreases |vals| - i
  {
    if i == |vals| then Ok([])
    else
      var p :- Step(state, i, vals[i]);
      var ps :- CollectFrom(vals, i + 1, Advance(state, vals[i]));
      Ok([p] + ps)
  }

  /** The normaliser: a list is folded from an undetermined shape; anything else is refused. */
  function Normalize(input: Value): (r: Result<seq<Sample>, InputError>)
    ensures !input.List? ==> r == Err(IncorrectInputType)
    ensures input.List? && r.Ok? ==> |r.value| == |input.vals|
    ensures input == List([]) ==> r == Ok([])
  {
    match input
    case List(vals) => CollectFrom(vals, 0, Start)
    case _ => Err(IncorrectInputType)
  }

  /** `samples` in front of a successful result; an error stays as it is. */
  function Prefixed(samples: seq<Sample>, r: Result<seq<Sample>, InputError>): Result<seq<Sample>, InputError>
  {
    match r
    case Ok(rest) => Ok(samples + rest)
    case Err(e) => Err(e)
  }

  lemma CollectStep(vals: seq<Value>, i: nat, state: InputParse)
    requires i < |vals|
    ensures CollectFrom(vals, i, state) ==
      match Step(state, i, vals[i])
      case Err(e) => Err(e)
      case Ok(p) => Prefixed([p], CollectFrom(vals, i + 1, Advance(state, vals[i])))
  {
  }

  lemma PrefixedTwice(samples: seq<Sample>, p: Sample, r: Result<seq<Sample>, InputError>)
    ensures Prefixed(samples, Prefixed([p], r)) == Prefixed(samples + [p], r)
  {
    if r.Ok? {
      assert samples + ([p] + r.value) == (samples + [p]) + r.value;
    }
  }

  /**
   * The input section of `Plot::run`: walk the list with a mutable shape
   * tracker, return at the first bad element, otherwise gather one sample
   * per element.
   */
  method NormalizeInput(input: Value) returns (r: Result<seq<Sample>, InputError>)
    ensures r == Normalize(input)
  {
    var inputParse := Start;
    match input {
      case List(vals) =>
        var samples: seq<Sample> := [];
        var i := 0;
        assert Normalize(input) == Prefixed(samples, CollectFrom(vals, i, inputParse)) by {
          if CollectFrom(vals, 0, Start).Ok? {
            assert [] + CollectFrom(vals, 0, Start).value == CollectFrom(vals, 0, Start).value;
          }
        }
        while i < |vals|
          invariant 0 <= i <= |vals|
          invariant Normalize(input) == Prefixed(samples, CollectFrom(vals, i, inputParse))
        {
          ghost var before := inputParse;
          var value := vals[i];
          CollectStep(vals, i, before);
          if IsNumber(value) {
            match inputParse {
              case Start => inputParse := NumberList;
              case Table => return Err(MixedShapes);
              case NumberList =>
            }
            // The `?` after `get_number` cannot fire here: the value is a number.
            var y := GetNumber(value).value;
            PrefixedTwice(samples, Sample(i as real, y), CollectFrom(vals, i + 1, Advance(before, value)));
            samples := samples + [Sample(i as real, y)];
          } else if value.Record? {
            match inputParse {
              case Start => inputParse := Table;
              case NumberList => return Err(MixedShapes);
              case Table =>
            }
            var fields := value.fields;
            if "x" !in fields {
              return Err(MissingX(i));
            }
            var x :- GetNumber(fields["x"]);
            if "y" !in fields {
              return Err(MissingY(i));
            }
            var y :- GetNumber(fields["y"]);
            PrefixedTwice(samples, Sample(x, y), CollectFrom(vals, i + 1, Advance(before, value)));
            samples := samples + [Sample(x, y)];
          } else {
            return Err(IncorrectInputType);
          }
          assert inputParse == Advance(before, value);
          i := i + 1;
        }
        assert samples + [] == samples;
        r := Ok(samples);
      case _ =>
        r := Err(IncorrectInputType);
    }
  }

  // ---------------------------------------------------------------------------
  // What the fold computes, element by element
  // ---------------------------------------------------------------------------

  /** The tracker's state just before element `n` is looked at. */
  function ShapeAfter(vals: seq<Value>, n: nat): InputParse
    requires n <= |vals|
  {
    if n == 0 then Start else Advance(ShapeAfter(vals, n - 1), vals[n - 1])
  }

  /** Once the first element has fixed the shape, the tracker never changes again. */
  lemma {:induction false} ShapeFixedByFirst(vals: seq<Value>, n: nat)
    requires 0 < n <= |vals| && ShapeOf(vals[0]) != Start
    ensures ShapeAfter(vals, n) == ShapeOf(vals[0])
  {
    if n > 1 {
      ShapeFixedByFirst(vals, n - 1);
    }
  }

  /** What element `k` yields, given the tracker the elements before it left. */
  function ElementResult(vals: seq<Value>, k: nat): Result<Sample, InputError>
    requires k < |vals|
  {
    Step(ShapeAfter(vals, k), k, vals[k])
  }

  /** None of the first `k` elements is faulty. */
  predicate NoFailureBefore(vals: seq<Value>, k: nat)
    requires k <= |vals|
  {
    forall j | 0 <= j < k :: ElementResult(vals, j).Ok?
  }

  /** Element `k` is the earliest faulty one, and its fault is `e`. */
  predicate FailsFirstAt(vals: seq<Value>, k: nat, e: InputError)
  {
    k < |vals| && ElementResult(vals, k) == Err(e) && NoFailureBefore(vals, k)
  }

  lemma {:induction false} CollectFromElements(vals: seq<Value>, i: nat)
    requires i <= |vals|
    ensures var r := CollectFrom(vals, i, ShapeAfter(vals, i));
      && (r.Ok? <==> forall k | i <= k < |vals| :: ElementResult(vals, k).Ok?)
      && (r.Ok? ==> forall k | i <= k < |vals| :: r.value[k - i] == ElementResult(vals, k).value)
      && (r.Err? ==> exists k | i <= k < |vals| ::
            ElementResult(vals, k) == Err(r.error) && forall j | i <= j < k :: ElementResult(vals, j).Ok?)
    decreases |vals| - i
  {
    if i < |vals| {
      var state := ShapeAfter(vals, i);
      CollectFromElements(vals, i + 1);
      CollectStep(vals, i, state);
      assert ShapeAfter(vals, i + 1) == Advance(state, vals[i]);
      var r := CollectFrom(vals, i, state);
      var rest := CollectFrom(vals, i + 1, Advance(state, vals[i]));
      if ElementResult(vals, i).Err? {
        assert r == Err(ElementResult(vals, i).error);
      } else if rest.Err? {
        var k :| i + 1 <= k < |vals| && ElementResult(vals, k) == Err(rest.error) &&
          forall j | i + 1 <= j < k :: ElementResult(vals, j).Ok?;
        assert r == Err(rest.error);
        assert forall j | i <= j < k :: ElementResult(vals, j).Ok?;
      } else {
        assert r == Ok([ElementResult(vals, i).value] + rest.value);
      }
    } else {
      assert CollectFrom(vals, i, ShapeAfter(vals, i)) == Ok([]);
    }
  }

  /**
   * A list normalises to samples exactly when no element is faulty, and then
   * sample `k` is what element `k` yields: one sample per element, in input order.
   */
  lemma NormalizeSucceeds(vals: seq<Value>)
    ensures Normalize(List(vals)).Ok? <==> NoFailureBefore(vals, |vals|)
    ensures Normalize(List(vals)).Ok? ==>
      |Normalize(List(vals)).value| == |vals| &&
      forall k | 0 <= k < |vals| :: Normalize(List(vals)).value[k] == ElementResult(vals, k).value
  {
    CollectFromElements(vals, 0);
  }

  /**
   * A list fails exactly with the fault of its earliest faulty element: no
   * partial result, and no later fault is ever reported.
   */
  lemma NormalizeReportsFirstFailure(vals: seq<Value>, e: InputError)
    ensures Normalize(List(vals)) == Err(e) <==> exists k: nat :: FailsFirstAt(vals, k, e)
  {
    CollectFromElements(vals, 0);
    var r := Normalize(List(vals));
    if k: nat :| FailsFirstAt(vals, k, e) {
      assert !NoFailureBefore(vals, |vals|) by {
        assert ElementResult(vals, k).Err?;
      }
      var k' :| 0 <= k' < |vals| && ElementResult(vals, k') == Err(r.error) &&
        forall j | 0 <= j < k' :: ElementResult(vals, j).Ok?;
      assert ElementResult(vals, k) == Err(e) && NoFailureBefore(vals, k);
      assert k == k';
      assert r == Err(e);
    } else if r == Err(e) {
      var k :| 0 <= k < |vals| && ElementResult(vals, k) == Err(r.error) &&
        forall j | 0 <= j < k :: ElementResult(vals, j).Ok?;
      assert FailsFirstAt(vals, k, e);
    }
  }

  /** Element `k` is judged against the shape the first element fixed. */
  lemma ElementUnderFirstShape(vals: seq<Value>, k: nat)
    requires k < |vals| && NoFailureBefore(vals, k)
    ensures k > 0 ==> ShapeOf(vals[0]) != Start
    ensures ElementResult(vals, k) == Step(if k == 0 then Start else ShapeOf(vals[0]), k, vals[k])
  {
    if k > 0 {
      assert ElementResult(vals, 0).Ok?;
      ShapeFixedByFirst(vals, k);
    }
  }

  /** A list of bare numbers becomes `(i, v_i)` for each position `i`. */
  lemma NumbersAreIndexed(vals: seq<Value>)
    requires forall k | 0 <= k < |vals| :: IsNumber(vals[k])
    ensures var r := Normalize(List(vals));
      && r.Ok? && |r.value| == |vals|
      && forall k | 0 <= k < |vals| :: r.value[k] == Sample(k as real, GetNumber(vals[k]).value)
  {
    forall k | 0 <= k < |vals|
      ensures ElementResult(vals, k) == Ok(Sample(k as real, GetNumber(vals[k]).value))
    {
      if k > 0 {
        ShapeFixedByFirst(vals, k);
      }
    }
    NormalizeSucceeds(vals);
  }

  /** A record carrying numeric `x` and `y`. */
  predicate IsPoint(v: Value)
  {
    v.Record? && "x" in v.fields && IsNumber(v.fields["x"]) && "y" in v.fields && IsNumber(v.fields["y"])
  }

  /** A table of points becomes their `(x, y)` pairs in input order, unsorted. */
  lemma RecordsKeepOrder(vals: seq<Value>)
    requires forall k | 0 <= k < |vals| :: IsPoint(vals[k])
    ensures var r := Normalize(List(vals));
      && r.Ok? && |r.value| == |vals|
      && forall k | 0 <= k < |vals| :: IsPoint(vals[k]) &&
           r.value[k] == Sample(GetNumber(vals[k].fields["x"]).value, GetNumber(vals[k].fields["y"]).value)
  {
    forall k | 0 <= k < |vals|
      ensures ElementResult(vals, k) ==
        Ok(Sample(GetNumber(vals[k].fields["x"]).value, GetNumber(vals[k].fields["y"]).value))
    {
      if k > 0 {
        ShapeFixedByFirst(vals, k);
      }
    }
    NormalizeSucceeds(vals);
  }

  /**
   * A number where the first element was a record, or a record where it was a
   * number, is reported as mixed shapes unless an earlier element failed.
   */
  lemma MixedShapesRejected(vals: seq<Value>, k: nat)
    requires 0 < k < |vals| && NoFailureBefore(vals, k)
    requires (IsNumber(vals[0]) && vals[k].Record?) || (vals[0].Record? && IsNumber(vals[k]))
    ensures Normalize(List(vals)) == Err(MixedShapes)
  {
    ElementUnderFirstShape(vals, k);
    assert FailsFirstAt(vals, k, MixedShapes);
    NormalizeReportsFirstFailure(vals, MixedShapes);
  }

  /**
   * The first faulty record of a table is reported by its first fault in the
   * order: `x` missing, `x` not a number, `y` missing, `y` not a number.
   */
  lemma RecordFaultsReported(vals: seq<Value>, k: nat)
    requires k < |vals| && NoFailureBefore(vals, k)
    requires vals[0].Record? && vals[k].Record?
    ensures var f := vals[k].fields;
      && ("x" !in f ==> Normalize(List(vals)) == Err(MissingX(k)))
      && ("x" in f && !IsNumber(f["x"]) ==> Normalize(List(vals)) == Err(IncorrectType(f["x"])))
      && ("x" in f && IsNumber(f["x"]) && "y" !in f ==> Normalize(List(vals)) == Err(MissingY(k)))
      && ("x" in f && IsNumber(f["x"]) && "y" in f && !IsNumber(f["y"]) ==>
            Normalize(List(vals)) == Err(IncorrectType(f["y"])))
  {
    ElementUnderFirstShape(vals, k);
    if ElementResult(vals, k).Err? {
      assert FailsFirstAt(vals, k, ElementResult(vals, k).error);
      NormalizeReportsFirstFailure(vals, ElementResult(vals, k).error);
    }
  }

  /** An element that is neither a number nor a record is refused, unless an earlier one failed. */
  lemma UnsupportedElementRejected(vals: seq<Value>, k: nat)
    requires k < |vals| && NoFailureBefore(vals, k)
    requires !IsNumber(vals[k]) && !vals[k].Record?
    ensures Normalize(List(vals)) == Err(IncorrectInputType)
  {
    assert FailsFirstAt(vals, k, IncorrectInputType);
    NormalizeReportsFirstFailure(vals, IncorrectInputType);
  }

  // ---------------------------------------------------------------------------
  // Call options
  // ---------------------------------------------------------------------------

  /** The plot options the call flags are overlaid on. */
  datatype PlotOptions = PlotOptions(width: nat, height: nat, title: string)

  /** `PlotOptions::new()`: 640 by 480 pixels, empty title. */
  function DefaultOptions(): PlotOptions
  {
    PlotOptions(640, 480, "")
  }

  /** A flag lookup the shell could not satisfy (a flag of the wrong type, say). */
  datatype FlagError = FlagError(description: string)

  const U32_MODULUS: int := 0x1_0000_0000

  /** Rust's `as u32` on an `i64`: keep the low 32 bits. */
  function AsU32(w: int): (r: nat)
    ensures r < U32_MODULUS
    ensures 0 <= w < U32_MODULUS ==> r == w
    ensures (w - r) % U32_MODULUS == 0
  {
    w % U32_MODULUS
  }

  /**
   * `parse_call_opts`: start from the defaults and let each flag that is
   * present overwrite its own field. A failed lookup ends the parse, checked
   * in the order width, height, title.
   */
  method ParseCallOpts(width: Result<Option<int>, FlagError>,
                       height: Result<Option<int>, FlagError>,
                       title: Result<Option<string>, FlagError>)
    returns (r: Result<PlotOptions, FlagError>)
    ensures r.Ok? <==> width.Ok? && height.Ok? && title.Ok?
    ensures width.Err? ==> r == Err(width.error)
    ensures width.Ok? && height.Err? ==> r == Err(height.error)
    ensures width.Ok? && height.Ok? && title.Err? ==> r == Err(title.error)
    ensures r.Ok? ==>
              r.value.width == (match width.value case Some(w) => AsU32(w) case None => DefaultOptions().width)
    ensures r.Ok? ==>
              r.value.height == (match height.value case Some(h) => AsU32(h) case None => DefaultOptions().height)
    ensures r.Ok? ==>
              r.value.title == (match title.value case Some(t) => t case None => DefaultOptions().title)
  {
    var options := DefaultOptions();

    var w :- width;
    match w {
      case Some(w) => options := options.(width := AsU32(w));
      case None =>
    }

    var h :- height;
    match h {
      case Some(h) => options := options.(height := AsU32(h));
      case None =>
    }

    var t :- title;
    match t {
      case Some(t) => options := options.(title := t);
      case None =>
    }

    r := Ok(options);
  }
}
