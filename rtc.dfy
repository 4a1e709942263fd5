/**
 * The clock-skew rule isTimeOff() and the time-string length constant of
 * src/rtc.h. The clock's validity and its current time are parameters. On
 * the boards `long` is 32 bits wide: `(long)(now - time)` reinterprets the
 * wrapped unsigned difference as a signed value, and abs() of the most
 * negative long has no positive counterpart (GCC returns it unchanged).
 */
module Rtc {
  import opened Basics

  /** How far the clock may be from a time before it counts as off: 5 * 60 seconds. */
  const AllowedSkew: nat := 5 * 60

  const LongMin: int := -0x8000_0000

  /** `(long)x` for a uint32_t x on a 32-bit long: values from 2^31 up become negative. */
  function ToLong(x: uint32): (r: int)
    ensures LongMin <= r < -LongMin
    ensures r % Uint32Modulus == x
  {
    if x < 0x8000_0000 then x else x - Uint32Modulus
  }

  /** abs() on a 32-bit long, as the compiler evaluates it: abs(LONG_MIN) stays LONG_MIN. */
  function AbsLong(x: int): int
    requires LongMin <= x < -LongMin
  {
    if x == LongMin then LongMin else if x < 0 then -x else x
  }

  /** The distance between two uint32 times around the 2^32 circle: the smaller of the two wrapped differences. */
  function Distance(now: uint32, time: uint32): (d: nat)
    ensures d <= 0x8000_0000
    ensures d == 0 <==> now == time
  {
    Min(Sub32(now, time), Sub32(time, now))
  }

  /** isTimeOff(time) as written. */
  function IsTimeOffAsWritten(clockValid: bool, now: uint32, time: uint32): (r: bool)
    ensures !clockValid ==> !r
    ensures clockValid && time == 0 ==> r
    ensures r && time != 0 ==> now != time
  {
    if !clockValid then false
    else if time == 0 then true
    else AbsLong(ToLong(Sub32(now, time))) > AllowedSkew
  }

  /** isTimeOff(time) with the absolute difference taken without overflow. */
  function IsTimeOff(clockValid: bool, now: uint32, time: uint32): (r: bool)
    ensures !clockValid ==> !r
    ensures clockValid && time == 0 ==> r
    ensures r && time != 0 ==> now != time
  {
    if !clockValid then false
    else if time == 0 then true
    else Distance(now, time) > AllowedSkew
  }

  /** The signed reading of the wrapped difference has, away from LONG_MIN, the circular distance as its size. */
  lemma AbsOfDifference(now: uint32, time: uint32)
    ensures Sub32(now, time) != 0x8000_0000 ==> AbsLong(ToLong(Sub32(now, time))) == Distance(now, time)
    ensures Sub32(now, time) == 0x8000_0000 ==> AbsLong(ToLong(Sub32(now, time))) == LongMin
  {
    var d := Sub32(now, time);
    if d != 0 {
      assert Sub32(time, now) == Uint32Modulus - d;
    }
  }

  /**
   * The rule: an invalid clock never reports a time as off; with a valid
   * clock a zero time always is, and any other time is off exactly when it
   * is more than five minutes from now in either direction, the difference
   * taken modulo 2^32.
   */
  lemma IsTimeOffRule(clockValid: bool, now: uint32, time: uint32)
    ensures !clockValid ==> !IsTimeOff(clockValid, now, time)
    ensures clockValid && time == 0 ==> IsTimeOff(clockValid, now, time)
    ensures clockValid && time != 0 ==>
      (IsTimeOff(clockValid, now, time) <==> (Sub32(now, time) > AllowedSkew && Sub32(time, now) > AllowedSkew))
    ensures clockValid && time != 0 && time <= now && now - time <= 0x8000_0000 ==>
      (IsTimeOff(clockValid, now, time) <==> now - time > AllowedSkew)
  {
  }

  /**
   * The code as written agrees with the rule everywhere except where the
   * difference is exactly 2^31, which it reports as not off.
   */
  lemma AsWrittenDiffersOnlyAtHalfRange(clockValid: bool, now: uint32, time: uint32)
    ensures IsTimeOffAsWritten(clockValid, now, time) != IsTimeOff(clockValid, now, time) <==>
      clockValid && time != 0 && Sub32(now, time) == 0x8000_0000
  {
    AbsOfDifference(now, time);
  }

  /** A time 2^31 seconds (about 68 years) from now is reported as not off. */
  lemma HalfRangeIsNotOff()
    ensures !IsTimeOffAsWritten(true, 0x8000_0001, 1)
    ensures IsTimeOff(true, 0x8000_0001, 1)
  {
    assert Sub32(0x8000_0001, 1) == 0x8000_0000;
    assert Sub32(1, 0x8000_0001) == 0x8000_0000;
  }

  /** length(s) for a char array of N elements, its literal's terminating NUL included: N - 1. */
  function Length(chars: seq<char>): nat
    requires chars != []
  {
    |chars| - 1
  }

  /** The longest time string is "0000/00/00 00:00:00". */
  const MaximumLengthOfTimeString: nat := Length("0000/00/00 00:00:00" + [0 as char])

  /** Nineteen characters: FormattedTime's buffer of one more holds the string and its NUL. */
  lemma MaximumLengthOfTimeStringValue()
    ensures MaximumLengthOfTimeString == 19
    ensures MaximumLengthOfTimeString + 1 == |"0000/00/00 00:00:00" + [0 as char]|
  {
  }
}
