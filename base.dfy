/**
 * The `VeryBigInt` column type and the database URI of `create_db_session`.
 * SQLite stores a signed 64-bit INTEGER, so a larger balance is written as
 * Python's `hex(value)` string and parsed back with `int(value, 16)`.
 */
module Base {
  import opened Wrappers
  import opened Strings

  /** The largest value an SQLite INTEGER holds: 2^63 - 1. */
  const MaxSqliteInt: int := 0x7FFF_FFFF_FFFF_FFFF

  /** What travels between the column and SQLite: an integer or a text value. */
  datatype ColumnValue = IntValue(i: int) | StrValue(s: string)

  datatype ValueError = InvalidLiteral

  /** Python's `hex(v)`: an optional minus sign, `0x`, lower-case digits. */
  function PyHex(v: int): (r: string)
    ensures v >= 0 ==> StartsWith(r, "0x")
  {
    if v < 0 then "-0x" + NatToString(-v, 16) else "0x" + NatToString(v, 16)
  }

  /** Python's `int(s, 16)`: an optional sign, an optional `0x`/`0X`, hex digits. */
  function ParseHexInt(s: string): Option<int>
  {
    var negative := s != [] && s[0] == '-';
    var unsigned := if s != [] && (s[0] == '-' || s[0] == '+') then s[1..] else s;
    var digits :=
      if |unsigned| >= 2 && unsigned[0] == '0' && (unsigned[1] == 'x' || unsigned[1] == 'X')
      then unsigned[2..] else unsigned;
    match ParseDigits(digits, 16)
    case Some(n) => Some(if negative then -(n as int) else n as int)
    case None => None
  }

  /** `VeryBigInt.process_bind_param`: values above MaxSqliteInt become hex text. */
  function ProcessBindParam(value: int): (r: ColumnValue)
    ensures r.IntValue? <==> value <= MaxSqliteInt
    ensures r.IntValue? ==> r.i == value && r.i <= MaxSqliteInt
    ensures r.StrValue? ==> StartsWith(r.s, "0x")
  {
    if value > MaxSqliteInt then StrValue(PyHex(value)) else IntValue(value)
  }

  /** `VeryBigInt.process_result_value`: text is parsed as base 16, integers pass. */
  function ProcessResultValue(value: ColumnValue): (r: Result<int, ValueError>)
    ensures value.IntValue? ==> r == Ok(value.i)
  {
    match value
    case IntValue(i) => Ok(i)
    case StrValue(s) =>
      match ParseHexInt(s)
      case Some(n) => Ok(n)
      case None => Err(InvalidLiteral)
  }

  /** Hex text reads back as its base-16 value, with or without a `0x` or `0X` prefix. */
  lemma ProcessResultHexText(digits: string)
    requires digits != [] && AllDigits(digits, 16)
    ensures ProcessResultValue(StrValue(digits)) == Ok(DigitsValue(digits, 16) as int)
    ensures ProcessResultValue(StrValue("0x" + digits)) == Ok(DigitsValue(digits, 16) as int)
    ensures ProcessResultValue(StrValue("0X" + digits)) == Ok(DigitsValue(digits, 16) as int)
    ensures ProcessResultValue(StrValue("-0x" + digits)) == Ok(-(DigitsValue(digits, 16) as int))
  {
    ParseHexPlain(digits);
    ParseHexPrefixed(digits, 'x');
    ParseHexPrefixed(digits, 'X');
    ParseHexNegative(digits);
  }

  lemma ParseHexPlain(digits: string)
    requires digits != [] && AllDigits(digits, 16)
    ensures ParseHexInt(digits) == Some(DigitsValue(digits, 16) as int)
  {
    assert DigitValue(digits[0]) < 16;
    if |digits| >= 2 {
      assert DigitValue(digits[1]) < 16;
    }
  }

  lemma ParseHexPrefixed(digits: string, x: char)
    requires digits != [] && AllDigits(digits, 16)
    requires x == 'x' || x == 'X'
    ensures ParseHexInt(['0', x] + digits) == Some(DigitsValue(digits, 16) as int)
  {
    var s := ['0', x] + digits;
    assert s[2..] == digits;
  }

  lemma ParseHexNegative(digits: string)
    requires digits != [] && AllDigits(digits, 16)
    ensures ParseHexInt("-0x" + digits) == Some(-(DigitsValue(digits, 16) as int))
  {
    var s := "-0x" + digits;
    assert s[1..] == "0x" + digits;
    assert s[1..][2..] == digits;
  }

  /** Every integer survives a write and a read of the column unchanged. */
  lemma BindResultRoundTrip(v: int)
    ensures ProcessResultValue(ProcessBindParam(v)) == Ok(v)
  {
    if v > MaxSqliteInt {
      var digits := NatToString(v, 16);
      var s := "0x" + digits;
      assert s[1..] == "x" + digits;
      assert s[2..] == digits;
      DigitsValueOfNatToString(v, 16);
    }
  }

  /** The sqlite3 driver binds text, and integers only within a signed 64-bit range; it raises `OverflowError` otherwise. */
  predicate DriverAccepts(value: ColumnValue)
  {
    value.StrValue? || -MaxSqliteInt - 1 <= value.i <= MaxSqliteInt
  }

  /**
   * Only values below -2^63 fail to be written: large positive values become
   * text, while large negative ones reach the driver as integers.
   */
  lemma BindAccepted(v: int)
    ensures DriverAccepts(ProcessBindParam(v)) <==> v >= -MaxSqliteInt - 1
  {
  }

  /** The engine URI `create_db_session` builds from its settings. */
  function DatabaseUri(dialect: string, name: string, user: string, password: string, host: string): (r: string)
    ensures StartsWith(r, dialect + "://")
    ensures StartsWith(dialect, "sqlite") ==> r == dialect + ":///" + name
    ensures !StartsWith(dialect, "sqlite") ==> r == dialect + "://" + user + ":" + password + "@" + host + "/" + name
  {
    if StartsWith(dialect, "sqlite") then dialect + ":///" + name
    else dialect + "://" + user + ":" + password + "@" + host + "/" + name
  }

  /** An SQLite URI names only the file: user, password and host play no part. */
  lemma SqliteUriIgnoresCredentials(dialect: string, name: string, user1: string, password1: string,
                                    host1: string, user2: string, password2: string, host2: string)
    requires StartsWith(dialect, "sqlite")
    ensures DatabaseUri(dialect, name, user1, password1, host1) == DatabaseUri(dialect, name, user2, password2, host2)
    ensures DatabaseUri(dialect, name, user1, password1, host1) == dialect + ":///" + name
  {
  }
}
