/** Values shared by the dashboard and the backend services: candles, support
    levels, an optional value, and the two-decimal rounding both sides apply
    to percentages. */
module Domain {

  datatype Option<T> = None | Some(value: T)

  /** One OHLCV candle; `timestamp` is an integer clock reading
      (milliseconds in the browser, microseconds in the backend). */
  datatype Candle = Candle(timestamp: int, open: real, high: real, low: real, close: real, volume: real)

  /** A support level record as the backend produces it and the browser
      augments it. `lastTest` is None when the level was never tested;
      `distance` is None until a distance has been computed (undefined in
      the browser, absent from the backend's dict); an absent `isActive`
      is falsy in every place that reads it, so it is modelled as false. */
  datatype Level = Level(
    price: real,
    strength: real,
    touches: int,
    lastTest: Option<int>,
    distance: Option<real>,
    isActive: bool)

  function Abs(x: real): (r: real)
    ensures r >= 0.0 && (r == x || r == -x)
  {
    if x < 0.0 then -x else x
  }

  /** Rounding to two decimals, halves away from zero (the rule of
      `Number.prototype.toFixed(2)`, which both sides' rounding is modelled by). */
  function Round2(x: real): (r: real)
    ensures Abs(r - x) <= 1.0 / 200.0
    ensures x >= 0.0 ==> r >= 0.0
    ensures x <= 0.0 ==> r <= 0.0
  {
    if x >= 0.0 then ((x * 100.0 + 0.5).Floor as real) / 100.0
    else -(((-x) * 100.0 + 0.5).Floor as real) / 100.0
  }

  /** Rounding is symmetric around zero. */
  lemma Round2Odd(x: real)
    ensures Round2(-x) == -Round2(x)
  {
    if x == 0.0 {
    } else if x > 0.0 {
      assert -x < 0.0;
      assert -(-x) == x;
    } else {
      assert -x > 0.0;
    }
  }

  /** A value that already has at most two decimals is left as it is. */
  lemma Round2OfCents(n: int)
    ensures Round2((n as real) / 100.0) == (n as real) / 100.0
  {
    var x := (n as real) / 100.0;
    if n >= 0 {
      assert x * 100.0 + 0.5 == (n as real) + 0.5;
      assert (x * 100.0 + 0.5).Floor == n;
    } else {
      assert (-x) * 100.0 + 0.5 == ((-n) as real) + 0.5;
      assert ((-x) * 100.0 + 0.5).Floor == -n;
    }
  }

  lemma FloorMonotone(a: real, b: real)
    requires a <= b
    ensures a.Floor <= b.Floor
  {
  }

  /** Rounding never reverses the order of two values. */
  lemma Round2Monotone(a: real, b: real)
    requires a <= b
    ensures Round2(a) <= Round2(b)
  {
    if a >= 0.0 {
      FloorMonotone(a * 100.0 + 0.5, b * 100.0 + 0.5);
    } else if b < 0.0 {
      FloorMonotone((-b) * 100.0 + 0.5, (-a) * 100.0 + 0.5);
    } else {
      assert Round2(a) <= 0.0 <= Round2(b);
    }
  }

  /** A value inside a band whose ends have at most two decimals stays inside
      it after rounding. */
  lemma Round2Within(x: real, lo: int, hi: int)
    requires (lo as real) / 100.0 <= x <= (hi as real) / 100.0
    ensures (lo as real) / 100.0 <= Round2(x) <= (hi as real) / 100.0
  {
    Round2Monotone((lo as real) / 100.0, x);
    Round2Monotone(x, (hi as real) / 100.0);
    Round2OfCents(lo);
    Round2OfCents(hi);
  }

  /** Ascending sort key that orders levels by descending strength. */
  function StrengthKey(l: Level): real
  {
    -l.strength
  }

  /** Truthiness of an optional price, in JavaScript and in Python alike:
      present and not zero. */
  predicate Truthy(price: Option<real>)
  {
    price.Some? && price.value != 0.0
  }
}
