/**
 * The input validators: price and quantity bounds, the symbol format, the timeframe format
 * (a number parsed the way Python's `int` parses text, then a unit letter) and the ordered
 * checks on a dictionary of trade parameters.
 */
module Validators {
  import opened Wrappers

  // ---------------------------------------------------------------- prices and quantities

  /**
   * `validate_price`: above the minimum, and below the maximum when one is given; a maximum
   * of 0 is falsy in Python and so means no upper bound, like no maximum at all.
   */
  function ValidatePrice(price: real, minPrice: real, maxPrice: Option<real>): (r: bool)
    ensures price <= minPrice ==> !r
    ensures maxPrice.Some? && maxPrice.value != 0.0 && price >= maxPrice.value ==> !r
    ensures r <==> price > minPrice && (maxPrice.None? || maxPrice.value == 0.0 || price < maxPrice.value)
  {
    if price <= minPrice then false
    else if maxPrice.Some? && maxPrice.value != 0.0 && price >= maxPrice.value then false
    else true
  }

  /** Python's `%` on floats: the remainder takes the sign of the divisor. */
  function PyMod(x: real, y: real): real
    requires y != 0.0
  {
    x - y * ((x / y).Floor as real)
  }

  /** The remainder lies between 0 and the divisor, on the divisor's side. */
  lemma {:induction false} PyModRange(x: real, y: real)
    requires y != 0.0
    ensures y > 0.0 ==> 0.0 <= PyMod(x, y) < y
    ensures y < 0.0 ==> y < PyMod(x, y) <= 0.0
  {
    var q := x / y;
    var f := q.Floor as real;
    var d := q - f;
    assert 0.0 <= d < 1.0;
    assert x == y * q;
    assert PyMod(x, y) == y * d;
    if y > 0.0 {
      assert y * d < y * 1.0;
    } else {
      assert y * 1.0 < y * d;
    }
  }

  /** A zero remainder means an integer number of steps, and every integer number of steps has one. */
  lemma {:induction false} PyModZeroIffMultiple(x: real, step: real, k: int)
    requires step != 0.0
    ensures PyMod(x, step) == 0.0 ==> x == ((x / step).Floor as real) * step
    ensures PyMod(k as real * step, step) == 0.0
  {
    var y := k as real * step;
    assert y / step == k as real;
  }

  /**
   * `validate_quantity`: inside the inclusive range and an exact multiple of the step size;
   * a zero step size divides by zero, which the validator turns into false.
   */
  function ValidateQuantity(quantity: real, minQty: real, maxQty: real, stepSize: real): (r: bool)
    ensures quantity < minQty || quantity > maxQty ==> !r
    ensures stepSize == 0.0 ==> !r
    ensures r ==> quantity == ((quantity / stepSize).Floor as real) * stepSize
  {
    if quantity < minQty || quantity > maxQty then false
    else if stepSize == 0.0 then false
    else
      PyModZeroIffMultiple(quantity, stepSize, 0);
      PyMod(quantity, stepSize) == 0.0
  }

  /** Every multiple of a non-zero step inside the range is accepted. */
  lemma {:induction false} MultiplesAreValidQuantities(k: int, minQty: real, maxQty: real, stepSize: real)
    requires stepSize != 0.0 && minQty <= k as real * stepSize <= maxQty
    ensures ValidateQuantity(k as real * stepSize, minQty, maxQty, stepSize)
  {
    PyModZeroIffMultiple(0.0, stepSize, k);
  }

  // ---------------------------------------------------------------- symbols

  predicate IsSymbolChar(c: char) {
    'A' <= c <= 'Z' || '0' <= c <= '9'
  }

  /** Between 2 and 20 characters, each an upper-case letter or a digit. */
  predicate SymbolBody(s: string) {
    2 <= |s| <= 20 && forall i :: 0 <= i < |s| ==> IsSymbolChar(s[i])
  }

  /**
   * `validate_symbol` as written: `re.match` with `^[A-Z0-9]{2,20}$`, where Python's `$`
   * also matches just before a newline that ends the string.
   */
  predicate ValidateSymbolAsWritten(s: string) {
    SymbolBody(s) || (|s| >= 1 && s[|s| - 1] == '\n' && SymbolBody(s[..|s| - 1]))
  }

  /** The symbol check as intended: the whole string is 2 to 20 upper-case letters or digits. */
  predicate ValidateSymbol(s: string) {
    SymbolBody(s)
  }

  /** The check as written lets a symbol with a trailing newline through. */
  lemma {:induction false} TrailingNewlineSymbolAccepted()
    ensures ValidateSymbolAsWritten("BTCUSDT\n") && !ValidateSymbol("BTCUSDT\n")
  {
    assert "BTCUSDT\n"[..7] == "BTCUSDT";
    assert !IsSymbolChar("BTCUSDT\n"[7]);
  }

  /**
   * The intended check accepts exactly what the written one accepts minus the strings with
   * a newline in them: the newline-terminated symbols are the only difference.
   */
  lemma {:induction false} ValidateSymbolCorrected(s: string)
    ensures ValidateSymbol(s) <==> ValidateSymbolAsWritten(s) && '\n' !in s
    ensures ValidateSymbolAsWritten(s) && !ValidateSymbol(s) ==> s[|s| - 1] == '\n' && ValidateSymbol(s[..|s| - 1])
  {
    if ValidateSymbol(s) {
      assert forall i :: 0 <= i < |s| ==> s[i] != '\n' by {
        forall i | 0 <= i < |s| ensures s[i] != '\n' {
          assert IsSymbolChar(s[i]);
        }
      }
    }
    if ValidateSymbolAsWritten(s) && !ValidateSymbol(s) {
      assert s[|s| - 1] in s;
    }
  }

  // ---------------------------------------------------------------- timeframes

  predicate IsDigit(c: char) {
    '0' <= c <= '9'
  }

  function DigitValue(c: char): nat
    requires IsDigit(c)
  {
    c as int - '0' as int
  }

  function DigitChar(d: nat): char
    requires d < 10
  {
    (d + '0' as int) as char
  }

  /** The whitespace `int` ignores around its argument (the ASCII part of it). */
  predicate IsSpace(c: char) {
    c == ' ' || 9 <= c as int <= 13 || 28 <= c as int <= 31
  }

  function StripLeft(s: string): (r: string)
    ensures |r| <= |s|
    ensures r != [] ==> !IsSpace(r[0])
    ensures r == s[|s| - |r|..]
  {
    if s != [] && IsSpace(s[0]) then StripLeft(s[1..]) else s
  }

  function StripRight(s: string): (r: string)
    ensures |r| <= |s|
    ensures r != [] ==> !IsSpace(r[|r| - 1])
    ensures r == s[..|r|]
  {
    if s != [] && IsSpace(s[|s| - 1]) then StripRight(s[..|s| - 1]) else s
  }

  /** Decimal digits, with single underscores allowed between digits. */
  predicate DigitsWellFormed(d: string) {
    |d| >= 1 && IsDigit(d[0])
    && forall i :: 0 <= i < |d| ==> IsDigit(d[i]) || (d[i] == '_' && i + 1 < |d| && IsDigit(d[i + 1]))
  }

  /** The number the digits spell, underscores (and anything else that is not a digit) skipped. */
  function DigitsValue(d: string): nat {
    if d == [] then 0
    else if !IsDigit(d[|d| - 1]) then DigitsValue(d[..|d| - 1])
    else DigitsValue(d[..|d| - 1]) * 10 + DigitValue(d[|d| - 1])
  }

  /** `int(text)` on text: surrounding whitespace, an optional sign, then digits; `None` where `int` raises. */
  function ParseInt(s: string): (r: Option<int>)
    ensures r.Some? ==> StripRight(StripLeft(s)) != []
  {
    ParseSignedDigits(StripRight(StripLeft(s)))
  }

  /** An optional sign, then digits. */
  function ParseSignedDigits(t: string): (r: Option<int>)
    ensures r.Some? ==> t != []
  {
    if t == [] then None
    else
      var negative := t[0] == '-';
      var digits := if t[0] == '+' || t[0] == '-' then t[1..] else t;
      if DigitsWellFormed(digits) then
        var magnitude: int := DigitsValue(digits);
        Some(if negative then -magnitude else magnitude)
      else None
  }

  /** The canonical decimal rendering of a natural number. */
  function Show(n: nat): (s: string)
    ensures |s| >= 1
    ensures forall i :: 0 <= i < |s| ==> IsDigit(s[i])
  {
    if n < 10 then [DigitChar(n)] else Show(n / 10) + [DigitChar(n % 10)]
  }

  /** Parsing the canonical rendering gives the number back. */
  lemma {:induction false} ShowDigitsValue(n: nat)
    ensures DigitsValue(Show(n)) == n
  {
    if n >= 10 {
      ShowDigitsValue(n / 10);
      var s := Show(n);
      assert s[..|s| - 1] == Show(n / 10);
    }
  }

  /** A digit is not whitespace. */
  lemma {:induction false} DigitNotSpace(c: char)
    requires IsDigit(c)
    ensures !IsSpace(c)
  {
  }

  /** A run of plain digits, with no sign in front, reads as the number it spells. */
  lemma {:induction false} ParseDigits(t: string)
    requires |t| >= 1 && forall i :: 0 <= i < |t| ==> IsDigit(t[i])
    ensures ParseSignedDigits(t) == Some(DigitsValue(t) as int)
  {
    assert DigitsWellFormed(t);
    assert t[0] != '+' && t[0] != '-';
  }

  lemma {:induction false} ParseShow(n: nat)
    ensures ParseInt(Show(n)) == Some(n)
  {
    var s := Show(n);
    DigitNotSpace(s[0]);
    DigitNotSpace(s[|s| - 1]);
    assert StripLeft(s) == s;
    assert StripRight(s) == s;
    ParseDigits(s);
    ShowDigitsValue(n);
  }

  /** Leading whitespace is stripped away. */
  lemma {:induction false} StripLeftPadding(pad: string, s: string)
    requires forall i :: 0 <= i < |pad| ==> IsSpace(pad[i])
    requires s != [] && !IsSpace(s[0])
    ensures StripLeft(pad + s) == s
  {
    if pad != [] {
      assert (pad + s)[1..] == pad[1..] + s;
      StripLeftPadding(pad[1..], s);
    }
  }

  /** Text that starts with no whitespace and ends in a digit is stripped to itself. */
  lemma {:induction false} StripDecimal(pad: string, t: string)
    requires forall i :: 0 <= i < |pad| ==> IsSpace(pad[i])
    requires |t| >= 1 && !IsSpace(t[0]) && IsDigit(t[|t| - 1])
    ensures StripRight(StripLeft(pad + t)) == t
  {
    StripLeftPadding(pad, t);
    DigitNotSpace(t[|t| - 1]);
    assert StripRight(t) == t;
  }

  /** Like Python's `int`, the parser takes whitespace before a decimal number. */
  lemma {:induction false} ParsePadded(pad: string, n: nat)
    requires forall i :: 0 <= i < |pad| ==> IsSpace(pad[i])
    ensures ParseInt(pad + Show(n)) == Some(n)
  {
    var s := Show(n);
    DigitNotSpace(s[0]);
    StripDecimal(pad, s);
    ParseShow(n);
  }

  /** Like Python's `int`, the parser takes an explicit sign after the whitespace. */
  lemma {:induction false} ParseSigned(pad: string, n: nat)
    requires forall i :: 0 <= i < |pad| ==> IsSpace(pad[i])
    ensures ParseInt(pad + ("+" + Show(n))) == Some(n)
    ensures ParseInt(pad + ("-" + Show(n))) == Some(-(n as int))
  {
    var s := Show(n);
    assert ("+" + s)[|"+" + s| - 1] == s[|s| - 1];
    assert ("-" + s)[|"-" + s| - 1] == s[|s| - 1];
    StripDecimal(pad, "+" + s);
    StripDecimal(pad, "-" + s);
    ParseSignedShow(n);
  }

  lemma {:induction false} ParseSignedShow(n: nat)
    ensures ParseSignedDigits("+" + Show(n)) == Some(n)
    ensures ParseSignedDigits("-" + Show(n)) == Some(-(n as int))
  {
    var s := Show(n);
    ShowDigitsValue(n);
    assert DigitsWellFormed(s);
    assert ("+" + s)[1..] == s;
    assert ("-" + s)[1..] == s;
  }

  /** Two underscores in a row are not a number to Python's `int`. */
  lemma {:induction false} DoubleUnderscoreRefused()
    ensures !DigitsWellFormed("1__5")
  {
    assert !IsDigit("1__5"[1]) && !IsDigit("1__5"[2]);
  }

  /** The units a timeframe may end with. */
  predicate IsUnit(u: char) {
    u == 'm' || u == 'h' || u == 'd' || u == 'w' || u == 'M'
  }

  /** The largest count each unit allows: 59 minutes, 23 hours, 30 days, 52 weeks, 12 months. */
  function UnitMax(u: char): nat
    requires IsUnit(u)
  {
    match u
    case 'm' => 59
    case 'h' => 23
    case 'd' => 30
    case 'w' => 52
    case _ => 12
  }

  /**
   * `validate_timeframe`: at least two characters, the last a unit and the rest a number
   * `int` accepts within that unit's range; text `int` rejects makes it false.
   */
  function ValidateTimeframe(tf: string): (r: bool)
    ensures |tf| < 2 ==> !r
    ensures r ==>
      (IsUnit(tf[|tf| - 1]) && ParseInt(tf[..|tf| - 1]).Some?
       && 1 <= ParseInt(tf[..|tf| - 1]).value <= UnitMax(tf[|tf| - 1]))
  {
    if |tf| < 2 then false
    else
      match ParseInt(tf[..|tf| - 1])
      case None => false
      case Some(value) =>
        var unit := tf[|tf| - 1];
        IsUnit(unit) && 1 <= value <= UnitMax(unit)
  }

  /** Every count within a unit's range, written out in decimal and followed by the unit, is accepted. */
  lemma {:induction false} CanonicalTimeframeAccepted(value: nat, unit: char)
    requires IsUnit(unit) && 1 <= value <= UnitMax(unit)
    ensures ValidateTimeframe(Show(value) + [unit])
  {
    var tf := Show(value) + [unit];
    assert tf[..|tf| - 1] == Show(value);
    ParseShow(value);
  }

  /** An accepted timeframe means the same as its canonical form, which is accepted as well. */
  lemma {:induction false} AcceptedTimeframeNormalizes(tf: string)
    requires ValidateTimeframe(tf)
    ensures var value := ParseInt(tf[..|tf| - 1]).value;
      value >= 1 && ValidateTimeframe(Show(value) + [tf[|tf| - 1]])
  {
    CanonicalTimeframeAccepted(ParseInt(tf[..|tf| - 1]).value, tf[|tf| - 1]);
  }

  /** A count of zero or one past the unit's range, written out in decimal, is rejected: "0d", "60m", "24h". */
  lemma {:induction false} OutOfRangeTimeframeRejected(value: nat, unit: char)
    requires IsUnit(unit) && (value == 0 || value > UnitMax(unit))
    ensures !ValidateTimeframe(Show(value) + [unit])
  {
    var tf := Show(value) + [unit];
    assert tf[..|tf| - 1] == Show(value);
    ParseShow(value);
  }

  // ---------------------------------------------------------------- trade parameters

  /** A parameter value; `Other` stands for every other Python value (None, lists, ...). */
  datatype Value = Str(s: string) | Float(f: real) | Int(i: int) | Bool(b: bool) | Other(typeName: string)

  /** The three types the required fields are checked against. */
  datatype Kind = StrKind | FloatKind | IntKind

  /** `isinstance`: a bool is an int in Python, an int is not a float. */
  predicate HasKind(v: Value, k: Kind) {
    match k
    case StrKind => v.Str?
    case FloatKind => v.Float?
    case IntKind => v.Int? || v.Bool?
  }

  predicate IsNumber(v: Value) {
    v.Float? || v.Int? || v.Bool?
  }

  function NumberValue(v: Value): real
    requires IsNumber(v)
  {
    match v
    case Float(f) => f
    case Int(i) => i as real
    case Bool(b) => if b then 1.0 else 0.0
  }

  function TypeName(v: Value): string {
    match v
    case Str(_) => "str"
    case Float(_) => "float"
    case Int(_) => "int"
    case Bool(_) => "bool"
    case Other(name) => name
  }

  /** Why `validate_trade_parameters` rejects a dictionary. */
  datatype ParamError =
    | MissingField(field: string)
    | InvalidType(field: string)
    | InvalidSide
    | InvalidOrderType
    | InvalidQuantity
    | InvalidLeverage
    | MissingPrice
    | InvalidPrice
    | PriceNotComparable(typeName: string)

  /** The error text the validator returns next to `False`. */
  function Message(e: ParamError): string {
    match e
    case MissingField(f) => "Missing required field: " + f
    case InvalidType(f) => "Invalid type for " + f
    case InvalidSide => "Invalid side"
    case InvalidOrderType => "Invalid order type"
    case InvalidQuantity => "Invalid quantity"
    case InvalidLeverage => "Invalid leverage"
    case MissingPrice => "Missing price for LIMIT order"
    case InvalidPrice => "Invalid price"
    case PriceNotComparable(t) => "'<=' not supported between instances of '" + t + "' and 'int'"
  }

  /** The required fields, in the order they are checked. */
  const RequiredFields: seq<(string, Kind)> :=
    [("symbol", StrKind), ("side", StrKind), ("type", StrKind), ("quantity", FloatKind), ("leverage", IntKind)]

  predicate FieldFails(params: map<string, Value>, field: (string, Kind)) {
    field.0 !in params || !HasKind(params[field.0], field.1)
  }

  /** A missing field is reported as missing, a present one of the wrong type as ill-typed. */
  function FieldErrorOf(params: map<string, Value>, field: (string, Kind)): ParamError {
    if field.0 !in params then MissingField(field.0) else InvalidType(field.0)
  }

  /**
   * The loop over the required fields: the first field that is missing or of the wrong
   * type decides the error, and there is none exactly when every field is present and typed.
   */
  function FieldError(params: map<string, Value>, fields: seq<(string, Kind)>): (r: Option<ParamError>)
    ensures r.None? <==> forall i :: 0 <= i < |fields| ==> !FieldFails(params, fields[i])
    ensures r.Some? ==>
      exists i :: (0 <= i < |fields| && FieldFails(params, fields[i])
        && (forall j :: 0 <= j < i ==> !FieldFails(params, fields[j])) && r.value == FieldErrorOf(params, fields[i]))
  {
    if fields == [] then None
    else if FieldFails(params, fields[0]) then Some(FieldErrorOf(params, fields[0]))
    else
      var rest := FieldError(params, fields[1..]);
      assert forall i :: 1 <= i < |fields| ==> fields[i] == fields[1..][i - 1];
      if rest.Some? then
        assert exists i :: (0 <= i < |fields| && FieldFails(params, fields[i])
          && (forall j :: 0 <= j < i ==> !FieldFails(params, fields[j])) && rest.value == FieldErrorOf(params, fields[i])) by {
          var k :| 0 <= k < |fields[1..]| && FieldFails(params, fields[1..][k])
            && (forall j :: 0 <= j < k ==> !FieldFails(params, fields[1..][j])) && rest.value == FieldErrorOf(params, fields[1..][k]);
          assert fields[k + 1] == fields[1..][k];
          assert forall j :: 0 <= j < k + 1 ==> !FieldFails(params, fields[j]) by {
            forall j | 0 <= j < k + 1 ensures !FieldFails(params, fields[j]) {
              if j > 0 {
                assert fields[j] == fields[1..][j - 1];
              }
            }
          }
        }
        rest
      else rest
  }

  /** The loop over the required fields, returning at the first one that is missing or of the wrong type. */
  method CheckRequiredFields(params: map<string, Value>, fields: seq<(string, Kind)>) returns (r: Option<ParamError>)
    ensures r == FieldError(params, fields)
  {
    assert fields[0..] == fields;
    var i := 0;
    while i < |fields|
      invariant 0 <= i <= |fields|
      invariant FieldError(params, fields[i..]) == FieldError(params, fields)
    {
      assert fields[i..][1..] == fields[i + 1..];
      if FieldFails(params, fields[i]) {
        return Some(FieldErrorOf(params, fields[i]));
      }
      i := i + 1;
    }
    return None;
  }

  /**
   * `validate_trade_parameters`: the field checks, then side, order type, quantity and
   * leverage in that order, then a LIMIT order's price; `None` is `(True, None)`. A price
   * that cannot be compared with 0 raises inside the validator, which returns the message.
   */
  function ValidateTradeParameters(params: map<string, Value>): Option<ParamError> {
    match FieldError(params, RequiredFields)
    case Some(e) => Some(e)
    case None =>
      assert !FieldFails(params, RequiredFields[1]) && !FieldFails(params, RequiredFields[2]);
      assert !FieldFails(params, RequiredFields[3]) && !FieldFails(params, RequiredFields[4]);
      var side := params["side"].s;
      var orderType := params["type"].s;
      var quantity := params["quantity"].f;
      var leverage := match params["leverage"] case Int(i) => i case Bool(b) => if b then 1 else 0 case _ => 0;
      if side != "BUY" && side != "SELL" then Some(InvalidSide)
      else if orderType != "MARKET" && orderType != "LIMIT" then Some(InvalidOrderType)
      else if quantity <= 0.0 then Some(InvalidQuantity)
      else if leverage < 1 || leverage > 125 then Some(InvalidLeverage)
      else if orderType == "LIMIT" then
        if "price" !in params then Some(MissingPrice)
        else if !IsNumber(params["price"]) then Some(PriceNotComparable(TypeName(params["price"])))
        else if NumberValue(params["price"]) <= 0.0 then Some(InvalidPrice)
        else None
      else None
  }

  /** An acceptable trade: every field present and typed and within its allowed values. */
  predicate WellFormedTrade(params: map<string, Value>) {
    "symbol" in params && params["symbol"].Str?
    && "side" in params && (params["side"] == Str("BUY") || params["side"] == Str("SELL"))
    && "type" in params && (params["type"] == Str("MARKET") || params["type"] == Str("LIMIT"))
    && "quantity" in params && params["quantity"].Float? && params["quantity"].f > 0.0
    && "leverage" in params
    && ((params["leverage"].Int? && 1 <= params["leverage"].i <= 125) || params["leverage"] == Bool(true))
    && (params["type"] == Str("LIMIT") ==>
          "price" in params && IsNumber(params["price"]) && NumberValue(params["price"]) > 0.0)
  }

  /** The validator accepts exactly the well-formed trades. */
  lemma {:induction false} ValidateTradeParametersIff(params: map<string, Value>)
    ensures ValidateTradeParameters(params).None? <==> WellFormedTrade(params)
  {
    if WellFormedTrade(params) {
      assert forall i :: 0 <= i < |RequiredFields| ==> !FieldFails(params, RequiredFields[i]);
    } else if FieldError(params, RequiredFields).None? {
      assert !FieldFails(params, RequiredFields[0]);
      assert !FieldFails(params, RequiredFields[1]) && !FieldFails(params, RequiredFields[2]);
      assert !FieldFails(params, RequiredFields[3]) && !FieldFails(params, RequiredFields[4]);
    }
  }

  /**
   * A missing or ill-typed required field is reported before anything else is looked at,
   * and it is the first such field in the order symbol, side, type, quantity, leverage.
   */
  lemma {:induction false} FieldErrorsComeFirst(params: map<string, Value>, i: int)
    requires 0 <= i < |RequiredFields| && FieldFails(params, RequiredFields[i])
    requires forall j :: 0 <= j < i ==> !FieldFails(params, RequiredFields[j])
    ensures ValidateTradeParameters(params) == Some(FieldErrorOf(params, RequiredFields[i]))
  {
    var r := FieldError(params, RequiredFields);
    var k :| 0 <= k < |RequiredFields| && FieldFails(params, RequiredFields[k])
      && (forall j :: 0 <= j < k ==> !FieldFails(params, RequiredFields[j])) && r.value == FieldErrorOf(params, RequiredFields[k]);
    assert k == i;
  }

  /** A trade that is well formed except for its side gets "Invalid side", whatever else is wrong after it. */
  lemma {:induction false} SideCheckedBeforeRest(params: map<string, Value>)
    requires forall i :: 0 <= i < |RequiredFields| ==> !FieldFails(params, RequiredFields[i])
    requires "side" in params && params["side"] != Str("BUY") && params["side"] != Str("SELL")
    ensures ValidateTradeParameters(params) == Some(InvalidSide)
    ensures Message(ValidateTradeParameters(params).value) == "Invalid side"
  {
    assert !FieldFails(params, RequiredFields[1]);
  }
}
