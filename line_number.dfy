/** Line numbers and line counts of a text view (`line_number.rs`), both
    wrapping a `usize`, taken here as 64 bits wide. */
module LineNumber {

  const USIZE_MAX: int := 0xFFFF_FFFF_FFFF_FFFF
  const I32_MAX: int := 0x7FFF_FFFF

  type Usize = x: int | 0 <= x <= USIZE_MAX

  /** Built from any `usize`, which it keeps unchanged. */
  datatype LineNumber = LineNumber(value: Usize)

  datatype LineCount = LineCount(value: Usize)

  /** The line `count` lines further down. An overflowing sum panics when
      overflow checks are on (debug builds) and wraps around otherwise; the
      precondition rules out both. */
  function Add(number: LineNumber, count: LineCount): (r: LineNumber)
    requires number.value + count.value <= USIZE_MAX
    ensures r.value == number.value + count.value
    ensures r.value >= number.value
  {
    LineNumber(number.value + count.value)
  }

  /** `+=`: moves the number `rhs` lines further down; overflow as in `Add`. */
  method AddAssign(number: LineNumber, rhs: Usize) returns (r: LineNumber)
    requires number.value + rhs <= USIZE_MAX
    ensures r.value == number.value + rhs
  {
    var value := number.value;
    value := value + rhs;
    r := LineNumber(value);
  }

  /** The number as an `i32`; a number above the `i32` range panics, which
      the precondition rules out. */
  function ToI32(number: LineNumber): (r: int)
    requires number.value <= I32_MAX
    ensures 0 <= r <= I32_MAX && r == number.value
  {
    number.value
  }

  /** Adding counts one after the other adds their sum. */
  lemma AddTwice(number: LineNumber, a: LineCount, b: LineCount)
    requires number.value + a.value + b.value <= USIZE_MAX
    ensures Add(Add(number, a), b) == Add(number, LineCount(a.value + b.value))
  {
  }
}
