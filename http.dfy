/**
 * What a handler ends with: a response, or an error handed to `next` (and from there to the
 * application's error handler, which is not part of this model). Store errors are named by
 * the constraint that raised them.
 */
module Http {
  import opened Text
  import opened Schema

  datatype Fault =
    /** A value outside the `integer` range. */
    | OutOfRange
    /** Text that is not a valid `integer` literal, such as "1.5" or "NaN". */
    | InvalidInput
    /** A row referencing a row that does not exist. */
    | ForeignKeyViolation
    /** A value longer than its `varchar` column. */
    | ValueTooLong
    /** A null written to a not-null column. */
    | NotNull
    /** A negative LIMIT or OFFSET. */
    | NegativeRowCount

  /** `res.status(status).json(body)` (or `sendStatus`), or `next(fault)`. */
  datatype Outcome<T> = Reply(status: int, body: T) | Next(fault: Fault)

  /** What a middleware decides: call `next()` once, or send a response and stop. */
  datatype Gate<B> = Proceed | Halt(status: int, body: B)

  datatype Checked<T> = Ok(value: T) | Err(fault: Fault)

  predicate Integral(x: real)
  {
    x == x.Floor as real
  }

  /** A JavaScript number bound to an `integer` parameter: it must be a whole number in range. */
  function IntegerParam(x: real): (r: Checked<int>)
    ensures r.Ok? <==> Integral(x) && InInt32(x.Floor)
    ensures r.Ok? ==> r.value as real == x
  {
    if !Integral(x) then Err(InvalidInput)
    else if !InInt32(x.Floor) then Err(OutOfRange)
    else Ok(x.Floor)
  }

  /** How the store reads a text value into an `integer` column: an optional sign, then decimal digits, in range. */
  function IntegerText(s: string): (r: Checked<int>)
    ensures r.Ok? ==> InInt32(r.value)
  {
    var negative := s != [] && s[0] == '-';
    var digits := if s != [] && (s[0] == '-' || s[0] == '+') then s[1..] else s;
    if digits == [] || !AllDigits(digits) then Err(InvalidInput)
    else
      var v: int := if negative then -(DigitsValue(digits) as int) else DigitsValue(digits);
      if InInt32(v) then Ok(v) else Err(OutOfRange)
  }

  /** A number written in decimal reads back as itself, when it fits the column. */
  lemma IntegerTextRoundTrip(n: nat)
    requires n <= Int32Max
    ensures IntegerText(DecimalString(n)) == Ok(n)
  {
    DecimalRoundTrip(n);
  }
}
