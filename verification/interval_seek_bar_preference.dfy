/**
 * org.mokee.mkparts.widget.IntervalSeekBarPreference: an integer preference
 * edited with a seek bar whose position is offset by the minimum and whose
 * value snaps to a multiple of a configured interval.
 *
 * `Math.round((float) v / k)` is modelled by exact rational half-up
 * rounding, `floor((2v + k) / (2k))`; single-precision rounding of large
 * values is not modelled.
 */
module IntervalSeekBarPreference {
  import opened Wrappers
  import opened JavaText

  /** The default an XML attribute without a value yields. */
  const DEFAULT_VALUE: int := 50

  /** The bound seek bar and status text; absent until `onBindViewHolder`. */
  datatype View = View(barMax: int, barProgress: int, statusText: string)

  datatype Pref = Pref(
    maxValue: int,
    minValue: int,
    interval: int,
    current: int,
    persisted: Option<int>,   // the stored int, when there is one
    view: Option<View>)

  /** The field initialisers: range 0..100, interval 1, nothing stored, not bound. */
  const Unbound := Pref(100, 0, 1, 0, None, None)

  /** The seek bar's range always spans max - min. */
  predicate ViewInSync(p: Pref) {
    p.view.Some? ==> p.view.value.barMax == p.maxValue - p.minValue
  }

  /** `floor(v / k + 1/2)` for `k != 0`: the nearest integer to `v / k`, halves rounded up. */
  function RoundHalfUp(v: int, k: int): (q: int)
    requires k != 0
    ensures k > 0 ==> -k <= 2 * (v - k * q) < k
    ensures k < 0 ==> k < 2 * (v - k * q) <= -k
  {
    if k > 0 then
      var a, b := 2 * v + k, 2 * k;
      var q := a / b;
      assert a == b * q + a % b && 0 <= a % b < b;
      assert b * q == 2 * (k * q);
      q
    else
      var a, b := -(2 * v + k), -2 * k;
      var q := a / b;
      assert a == b * q + a % b && 0 <= a % b < b;
      assert b * q == -2 * (k * q);
      q
  }

  function Abs(x: int): nat { if x < 0 then -x else x }

  lemma AbsOfProduct(e: int, k: int)
    ensures Abs(e * k) == Abs(e) * Abs(k)
  {
    if e < 0 && k < 0 {
      assert e * k == (-e) * (-k);
    } else if e < 0 {
      assert -(e * k) == (-e) * k;
    } else if k < 0 {
      assert -(e * k) == e * (-k);
    }
  }

  /** A non-zero multiple of `k` is at least as large as `k` in magnitude. */
  lemma NonzeroMultipleAtLeast(e: int, k: int)
    ensures e == 0 || Abs(e * k) >= Abs(k)
  {
    AbsOfProduct(e, k);
    if e != 0 {
      var a: nat, b: nat := Abs(e) - 1, Abs(k);
      assert (a + 1) * b == a * b + b;
      assert a * b >= 0;
    }
  }

  /** A multiple of `k` leaves no remainder. */
  lemma MultipleHasNoRemainder(q: int, k: int)
    requires k != 0
    ensures (q * k) % k == 0
  {
    var d, m := (q * k) / k, (q * k) % k;
    assert q * k == k * d + m;
    assert m == (q - d) * k;
    NonzeroMultipleAtLeast(q - d, k);
  }

  /**
   * The value a seek-bar position stands for: `progress + min`, clamped into
   * [min, max], and an in-range value off the interval grid replaced by the
   * nearest multiple of the interval. `None` is the ArithmeticException of
   * `newValue % 0` when the interval is 0.
   */
  function Normalise(progress: int, minValue: int, maxValue: int, interval: int): (r: Option<int>)
    ensures var v := progress + minValue;
            && (v > maxValue ==> r == Some(maxValue))
            && (v <= maxValue && v < minValue ==> r == Some(minValue))
            && ((minValue <= v <= maxValue && (interval == 1 || (interval != 0 && v % interval == 0)))
                  ==> r == Some(v))
            && (minValue <= v <= maxValue && interval == 0 ==> r == None)
            && (minValue <= v <= maxValue && interval != 0 ==> r.Some? && r.value % interval == 0)
            && (minValue <= v <= maxValue && interval > 0 ==>
                  -interval <= 2 * (v - r.value) < interval)
            && (minValue <= v <= maxValue && interval < 0 ==>
                  interval < 2 * (v - r.value) <= -interval)
  {
    var newValue := progress + minValue;
    if newValue > maxValue then Some(maxValue)
    else if newValue < minValue then Some(minValue)
    else if interval == 1 then Some(newValue)
    else if interval == 0 then None
    else if newValue % interval != 0 then
      var q := RoundHalfUp(newValue, interval);
      MultipleHasNoRemainder(q, interval);
      assert q * interval == interval * q;
      Some(q * interval)
    else Some(newValue)
  }

  /** Snapping happens after clamping, so the stored value can leave the range. */
  lemma SnapMayExceedMax()
    ensures Normalise(100, 0, 100, 40) == Some(120)
  {
    assert RoundHalfUp(100, 40) == 3;
  }

  /**
   * `onProgressChanged` after the user moved the bar to `progress`, with
   * `accepted` the answer of the change listener. An accepted value becomes
   * current, is shown and persisted; a rejected one puts the bar back on the
   * current value. `None` is the exception of a zero interval.
   */
  function OnProgressChanged(p: Pref, progress: int, accepted: bool): (r: Option<Pref>)
    requires p.view.Some?
    ensures r.None? <==> Normalise(progress, p.minValue, p.maxValue, p.interval).None?
    ensures r.Some? ==>
              && r.value.view.Some? && r.value.maxValue == p.maxValue
              && r.value.minValue == p.minValue && r.value.interval == p.interval
    ensures r.Some? && !accepted ==>
              r.value.current == p.current && r.value.persisted == p.persisted
              && r.value.view.value.barProgress == p.current - p.minValue
    ensures r.Some? && accepted ==>
              var v := Normalise(progress, p.minValue, p.maxValue, p.interval).value;
              && r.value.current == v && r.value.persisted == Some(v)
              && r.value.view.value.barProgress == progress
              && r.value.view.value.statusText == DecimalString(v)
    ensures r.Some? && ViewInSync(p) ==> ViewInSync(r.value)
  {
    var moved := p.view.value.(barProgress := progress);
    match Normalise(progress, p.minValue, p.maxValue, p.interval)
    case None => None
    case Some(v) =>
      if !accepted then
        Some(p.(view := Some(moved.(barProgress := p.current - p.minValue))))
      else
        Some(p.(current := v, persisted := Some(v), view := Some(moved.(statusText := DecimalString(v)))))
  }

  /** `onBindViewHolder`: the bar spans max - min and sits on the current value. */
  function Bind(p: Pref): (r: Pref)
    ensures ViewInSync(r)
    ensures r.view.Some? && r.view.value.barProgress == p.current - p.minValue
    ensures r.view.value.statusText == DecimalString(p.current)
    ensures r.(view := p.view) == p
  {
    p.(view := Some(View(p.maxValue - p.minValue, p.current - p.minValue, DecimalString(p.current))))
  }

  /** `setMaxValue`. */
  function SetMaxValue(p: Pref, value: int): (r: Pref)
    ensures r.maxValue == value && r.minValue == p.minValue && r.current == p.current
    ensures r.interval == p.interval && r.persisted == p.persisted
    ensures r.view.Some? <==> p.view.Some?
    ensures p.view.Some? ==> r.view.value == p.view.value.(barMax := r.maxValue - r.minValue)
    ensures ViewInSync(r)
  {
    var q := p.(maxValue := value);
    if p.view.Some? then q.(view := Some(p.view.value.(barMax := value - p.minValue))) else q
  }

  /** `setMinValue`. */
  function SetMinValue(p: Pref, value: int): (r: Pref)
    ensures r.minValue == value && r.maxValue == p.maxValue && r.current == p.current
    ensures r.interval == p.interval && r.persisted == p.persisted
    ensures r.view.Some? <==> p.view.Some?
    ensures p.view.Some? ==> r.view.value == p.view.value.(barMax := r.maxValue - r.minValue)
    ensures ViewInSync(r)
  {
    var q := p.(minValue := value);
    if p.view.Some? then q.(view := Some(p.view.value.(barMax := p.maxValue - value))) else q
  }

  /** `setValue`: only the current value changes (nothing is persisted or shown). */
  function SetValue(p: Pref, value: int): (r: Pref)
    ensures r.current == value && r.(current := p.current) == p
  {
    p.(current := value)
  }

  /** `onGetDefaultValue`: the XML default, or 50 when the attribute has no integer. */
  function OnGetDefaultValue(attribute: Option<int>): (r: int)
    ensures attribute.Some? ==> r == attribute.value
    ensures attribute.None? ==> r == DEFAULT_VALUE
  {
    attribute.GetOr(DEFAULT_VALUE)
  }

  /** The default object handed to `onSetInitialValue`: an Integer or something else. */
  datatype DefaultArg = IntegerDefault(n: int) | OtherDefault

  /**
   * `onSetInitialValue`: restoring reads the stored value (keeping the current
   * one when nothing is stored); otherwise the default, or 0 when it is not
   * an Integer, becomes current and is persisted.
   */
  function OnSetInitialValue(p: Pref, restore: bool, default: DefaultArg): (r: Pref)
    ensures restore ==> r.current == p.persisted.GetOr(p.current) && r.persisted == p.persisted
    ensures !restore ==> r.current == (if default.IntegerDefault? then default.n else 0)
    ensures !restore ==> r.persisted == Some(r.current)
    ensures r.view == p.view && r.maxValue == p.maxValue && r.minValue == p.minValue
  {
    if restore then
      p.(current := p.persisted.GetOr(p.current))
    else
      var temp := if default.IntegerDefault? then default.n else 0;
      p.(persisted := Some(temp), current := temp)
  }

  /** A value the listener accepted is what a later restore brings back. */
  lemma AcceptedValueIsRestored(p: Pref, progress: int)
    requires p.view.Some?
    requires OnProgressChanged(p, progress, true).Some?
    ensures var q := OnProgressChanged(p, progress, true).value;
            OnSetInitialValue(q, true, OtherDefault).current
            == Normalise(progress, p.minValue, p.maxValue, p.interval).value
  {
  }

  /** One operation on the preference. */
  datatype Op =
    | BindOp
    | ProgressOp(progress: int, accepted: bool)
    | SetMaxOp(value: int)
    | SetMinOp(value: int)
    | SetValueOp(value: int)
    | InitialOp(restore: bool, default: DefaultArg)

  /** Applies an operation; a progress event before binding, or one that throws, leaves the preference as it is. */
  function Apply(p: Pref, op: Op): (r: Pref)
    ensures ViewInSync(p) ==> ViewInSync(r)
  {
    match op
    case BindOp => Bind(p)
    case ProgressOp(progress, accepted) =>
      if p.view.None? then p else OnProgressChanged(p, progress, accepted).GetOr(p)
    case SetMaxOp(v) => SetMaxValue(p, v)
    case SetMinOp(v) => SetMinValue(p, v)
    case SetValueOp(v) => SetValue(p, v)
    case InitialOp(restore, default) => OnSetInitialValue(p, restore, default)
  }

  function ApplyAll(p: Pref, ops: seq<Op>): Pref
    decreases |ops|
  {
    if ops == [] then p else ApplyAll(Apply(p, ops[0]), ops[1..])
  }

  /** After any sequence of operations a bound seek bar still spans max - min. */
  lemma {:induction false} BarRangeAlwaysInSync(ops: seq<Op>)
    ensures ViewInSync(ApplyAll(Unbound, ops))
  {
    InSyncPreserved(Unbound, ops);
  }

  lemma {:induction false} InSyncPreserved(p: Pref, ops: seq<Op>)
    requires ViewInSync(p)
    ensures ViewInSync(ApplyAll(p, ops))
    decreases |ops|
  {
    if ops != [] {
      InSyncPreserved(Apply(p, ops[0]), ops[1..]);
    }
  }
}
