/**
 * Fixed-point money: `Price` of src/data_types.rs, an i64 scaled by 10000.
 * Rust's checked arithmetic is written out as explicit i64 range tests.
 */
module Money {
  import opened Wrappers

  /** Four decimal digits: one unit of currency is 10000 raw units. */
  const PriceScalar: int := 10000

  const I64Min: int := -0x8000_0000_0000_0000
  const I64Max: int := 0x7FFF_FFFF_FFFF_FFFF

  predicate IsI64(v: int) {
    I64Min <= v <= I64Max
  }

  /** The raw scaled value held by `Price(pub i64)`. */
  type Price = v: int | I64Min <= v <= I64Max

  function Abs(v: int): nat {
    if v < 0 then -v else v
  }

  /** `i64::checked_add`: the sum, or nothing when it leaves the i64 range. */
  function CheckedAdd(a: Price, b: Price): Option<Price> {
    if IsI64(a + b) then Some(a + b) else None
  }

  /** `i64::checked_sub`: the difference, or nothing when it leaves the i64 range. */
  function CheckedSub(a: Price, b: Price): Option<Price> {
    if IsI64(a - b) then Some(a - b) else None
  }

  /** The value `try_add` leaves in place (the ledger ignores its boolean). */
  function AddOrKeep(price: Price, other: Price): Price {
    match CheckedAdd(price, other)
    case Some(v) => v
    case None => price
  }

  /** The value `try_sub` leaves in place (the ledger ignores its boolean). */
  function SubOrKeep(price: Price, other: Price): Price {
    match CheckedSub(price, other)
    case Some(v) => v
    case None => price
  }

  /**
   * `Price::try_add(&mut self, other) -> bool`: `self` is passed in and its
   * new value handed back. Either the exact sum is stored and true returned,
   * or nothing changes and false is returned.
   */
  method TryAdd(price: Price, other: Price) returns (ok: bool, updated: Price)
    ensures ok <==> IsI64(price + other)
    ensures ok ==> updated == price + other
    ensures !ok ==> updated == price
  {
    match CheckedAdd(price, other)
    case None =>
      return false, price;
    case Some(v) =>
      return true, v;
  }

  /** `Price::try_sub(&mut self, other) -> bool`, in the same in-out form. */
  method TrySub(price: Price, other: Price) returns (ok: bool, updated: Price)
    ensures ok <==> IsI64(price - other)
    ensures ok ==> updated == price - other
    ensures !ok ==> updated == price
  {
    match CheckedSub(price, other)
    case None =>
      return false, price;
    case Some(v) =>
      return true, v;
  }

  /**
   * `Price::make_absolute(&mut self)`. `i64::abs` overflows on `i64::MIN`
   * (a panic in a debug build), so that value is excluded.
   */
  method MakeAbsolute(price: Price) returns (updated: Price)
    requires price != I64Min
    ensures updated >= 0
    ensures updated == Abs(price)
  {
    updated := price;
    if updated < 0 {
      updated := -updated;
    }
  }

  /** Rust's `/` on i64: the quotient truncated toward zero. */
  function TruncDiv(a: int, b: int): int
    requires b > 0
  {
    if a >= 0 then a / b else -((-a) / b)
  }

  /**
   * The two numbers `Display for Price` prints: `self.0 / PRICE_SCALAR`
   * (truncated) and `self.0.abs() % PRICE_SCALAR`. Together they rebuild the
   * value, the fraction carrying the sign of the value. `abs` overflows on
   * `i64::MIN` (a panic in a debug build), so that value is excluded.
   */
  function DisplayParts(p: Price): (parts: (int, int))
    requires p != I64Min
    ensures 0 <= parts.1 < PriceScalar
    ensures p >= 0 ==> parts.0 >= 0 && parts.0 * PriceScalar + parts.1 == p
    ensures p < 0 ==> parts.0 <= 0 && parts.0 * PriceScalar - parts.1 == p
  {
    (TruncDiv(p, PriceScalar), Abs(p) % PriceScalar)
  }
}
