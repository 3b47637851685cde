/**
 * The rules a create-payment request body must satisfy, checked with every failure
 * collected: amount a safe integer of at least 1, currency one of the listed ISO 4217
 * alphabetic codes, receipt a string that is non-empty once trimmed, and no other keys.
 */
module PaymentValidation {
  import opened Wrappers

  /** A field of the JSON body, as far as the rules tell values apart. */
  datatype Value = Absent | Number(n: real) | Text(s: string) | OtherValue

  /** A request body: the three declared keys, then the names of any other keys in order. */
  datatype RequestBody = RequestBody(amount: Value, currency: Value, receipt: Value, otherKeys: seq<string>)

  /** A body a JSON object can be: no other key occurs twice, and none is a declared key. */
  predicate WellFormedBody(b: RequestBody) {
    && (forall i, j :: 0 <= i < j < |b.otherKeys| ==> b.otherKeys[i] != b.otherKeys[j])
    && (forall k :: k in b.otherKeys ==> k != "amount" && k != "currency" && k != "receipt")
  }

  /** `CreatePaymentDTO`: the validated (and trimmed) request. */
  datatype CreatePaymentDto = CreatePaymentDto(amount: int, currency: string, receipt: string)

  datatype Field = AmountField | CurrencyField | ReceiptField | UnknownKey(key: string)

  /** Which rule a field broke. */
  datatype Rule = Required | WrongType | Unsafe | NotInteger | BelowMinimum | NotListed | Empty | NotAllowed

  /** `Number.MAX_SAFE_INTEGER`: a number beyond it, either way, is not a safe number. */
  const MaxSafeInteger: int := 0x1F_FFFF_FFFF_FFFF

  datatype FieldError = FieldError(field: Field, rule: Rule)

  /** The accepted ISO 4217 codes, in the order of the source table, ten to a line. */
  const IsoLine01: seq<string> := ["AED", "AFN", "ALL", "AMD", "ANG", "AOA", "ARS", "AUD", "AWG", "AZN"]
  const IsoLine02: seq<string> := ["BAM", "BBD", "BDT", "BGN", "BHD", "BIF", "BMD", "BND", "BOB", "BRL"]
  const IsoLine03: seq<string> := ["BSD", "BTN", "BWP", "BYN", "BZD", "CAD", "CDF", "CHF", "CLP", "CNY"]
  const IsoLine04: seq<string> := ["COP", "CRC", "CUP", "CVE", "CZK", "DJF", "DKK", "DOP", "DZD", "EGP"]
  const IsoLine05: seq<string> := ["ERN", "ETB", "EUR", "FJD", "FKP", "GBP", "GEL", "GHS", "GIP", "GMD"]
  const IsoLine06: seq<string> := ["GNF", "GTQ", "GYD", "HKD", "HNL", "HRK", "HTG", "HUF", "IDR", "ILS"]
  const IsoLine07: seq<string> := ["INR", "IQD", "IRR", "ISK", "JMD", "JOD", "JPY", "KES", "KGS", "KHR"]
  const IsoLine08: seq<string> := ["KMF", "KPW", "KRW", "KWD", "KYD", "KZT", "LAK", "LBP", "LKR", "LRD"]
  const IsoLine09: seq<string> := ["LSL", "LYD", "MAD", "MDL", "MGA", "MKD", "MMK", "MNT", "MOP", "MRU"]
  const IsoLine10: seq<string> := ["MUR", "MVR", "MWK", "MXN", "MYR", "MZN", "NAD", "NGN", "NIO", "NOK"]
  const IsoLine11: seq<string> := ["NPR", "NZD", "OMR", "PAB", "PEN", "PGK", "PHP", "PKR", "PLN", "PYG"]
  const IsoLine12: seq<string> := ["QAR", "RON", "RSD", "RUB", "RWF", "SAR", "SBD", "SCR", "SDG", "SEK"]
  const IsoLine13: seq<string> := ["SGD", "SHP", "SLL", "SOS", "SRD", "SSP", "STN", "SYP", "SZL", "THB"]
  const IsoLine14: seq<string> := ["TJS", "TMT", "TND", "TOP", "TRY", "TTD", "TWD", "TZS", "UAH", "UGX"]
  const IsoLine15: seq<string> := ["USD", "UYU", "UZS", "VES", "VND", "VUV", "WST", "XAF", "XCD", "XOF"]
  const IsoLine16: seq<string> := ["XPF", "YER", "ZAR", "ZMW", "ZWL"]

  const ISO4217: seq<string> :=
    IsoLine01 + IsoLine02 + IsoLine03 + IsoLine04 + IsoLine05 + IsoLine06 + IsoLine07 + IsoLine08
    + IsoLine09 + IsoLine10 + IsoLine11 + IsoLine12 + IsoLine13 + IsoLine14 + IsoLine15 + IsoLine16

  predicate IsInteger(x: real) {
    x.Floor as real == x
  }

  /** ECMAScript white space and line terminators, which `String.prototype.trim` removes. */
  const WhiteSpace: set<char> :=
    {'\t', '\n', '\U{000B}', '\U{000C}', '\r', ' ', '\U{00A0}', '\U{1680}',
     '\U{2000}', '\U{2001}', '\U{2002}', '\U{2003}', '\U{2004}', '\U{2005}',
     '\U{2006}', '\U{2007}', '\U{2008}', '\U{2009}', '\U{200A}', '\U{2028}',
     '\U{2029}', '\U{202F}', '\U{205F}', '\U{3000}', '\U{FEFF}'}

  predicate IsWhiteSpace(c: char) {
    c in WhiteSpace
  }

  /** Drops leading white space: what is dropped is all white space, what is kept is a suffix. */
  function TrimStart(s: string): (r: string)
    ensures |r| <= |s| && r == s[|s| - |r|..]
    ensures r == "" || !IsWhiteSpace(r[0])
    ensures forall i :: 0 <= i < |s| - |r| ==> IsWhiteSpace(s[i])
  {
    if s == "" || !IsWhiteSpace(s[0]) then s else TrimStart(s[1..])
  }

  /** Drops trailing white space: what is dropped is all white space, what is kept is a prefix. */
  function TrimEnd(s: string): (r: string)
    ensures |r| <= |s| && r == s[..|r|]
    ensures r == "" || !IsWhiteSpace(r[|r| - 1])
    ensures forall i :: |r| <= i < |s| ==> IsWhiteSpace(s[i])
  {
    if s == "" || !IsWhiteSpace(s[|s| - 1]) then s else TrimEnd(s[..|s| - 1])
  }

  /**
   * `String.prototype.trim`: a slice of `s` with white space neither at its start nor
   * at its end, obtained by dropping white space only; empty exactly when `s` is all
   * white space.
   */
  function Trim(s: string): (r: string)
    ensures exists i, j :: 0 <= i <= j <= |s| && r == s[i..j]
                           && (forall k :: 0 <= k < i ==> IsWhiteSpace(s[k]))
                           && (forall k :: j <= k < |s| ==> IsWhiteSpace(s[k]))
    ensures r == "" || (!IsWhiteSpace(r[0]) && !IsWhiteSpace(r[|r| - 1]))
    ensures r == "" <==> forall k :: 0 <= k < |s| ==> IsWhiteSpace(s[k])
  {
    var t := TrimStart(s);
    var r := TrimEnd(t);
    TrimDropsOnlyWhiteSpace(s, t, r);
    r
  }

  /**
   * Dropping leading, then trailing, white space keeps a slice and drops white space only:
   * `t` is what `TrimStart` keeps of `s`, and `r` what `TrimEnd` keeps of `t`.
   */
  lemma TrimDropsOnlyWhiteSpace(s: string, t: string, r: string)
    requires |t| <= |s| && t == s[|s| - |t|..]
    requires t == "" || !IsWhiteSpace(t[0])
    requires forall i :: 0 <= i < |s| - |t| ==> IsWhiteSpace(s[i])
    requires |r| <= |t| && r == t[..|r|]
    requires forall i :: |r| <= i < |t| ==> IsWhiteSpace(t[i])
    ensures exists i, j :: 0 <= i <= j <= |s| && r == s[i..j]
                           && (forall k :: 0 <= k < i ==> IsWhiteSpace(s[k]))
                           && (forall k :: j <= k < |s| ==> IsWhiteSpace(s[k]))
    ensures r == "" <==> forall k :: 0 <= k < |s| ==> IsWhiteSpace(s[k])
  {
    var i := |s| - |t|;
    var j := i + |r|;
    assert r == s[i..j];
    forall k | j <= k < |s|
      ensures IsWhiteSpace(s[k])
    {
      assert s[k] == t[k - i];
    }
    assert r != "" ==> s[i] == t[0] && !IsWhiteSpace(s[i]);
  }

  /** A string with no white space at either end is its own trim. */
  lemma TrimFixesTrimmed(s: string)
    requires s == "" || (!IsWhiteSpace(s[0]) && !IsWhiteSpace(s[|s| - 1]))
    ensures Trim(s) == s
  {
    assert TrimStart(s) == s;
    assert TrimEnd(s) == s;
  }

  /** Trimming twice is trimming once. */
  lemma TrimIdempotent(s: string)
    ensures Trim(Trim(s)) == Trim(s)
  {
    TrimFixesTrimmed(Trim(s));
  }

  /**
   * `Joi.number().integer().min(1).required()`: the first rule the value breaks, if any.
   * The number type itself refuses a number outside the safe-integer range before the
   * integer and minimum rules are looked at.
   */
  function CheckAmount(v: Value): (broken: Option<Rule>)
    ensures broken.None? <==> v.Number? && IsInteger(v.n) && 1.0 <= v.n <= MaxSafeInteger as real
    ensures v.Absent? <==> broken == Some(Required)
    ensures broken == Some(Unsafe) <==> v.Number? && (v.n > MaxSafeInteger as real || v.n < -MaxSafeInteger as real)
    ensures v.Number? && -MaxSafeInteger as real <= v.n <= MaxSafeInteger as real && !IsInteger(v.n) ==>
      broken == Some(NotInteger)
    ensures v.Number? && -MaxSafeInteger as real <= v.n <= MaxSafeInteger as real && IsInteger(v.n) && v.n < 1.0 ==>
      broken == Some(BelowMinimum)
    ensures !v.Absent? && !v.Number? ==> broken == Some(WrongType)
  {
    match v
    case Absent => Some(Required)
    case Number(n) =>
      if n > MaxSafeInteger as real || n < -MaxSafeInteger as real then Some(Unsafe)
      else if !IsInteger(n) then Some(NotInteger)
      else if n < 1.0 then Some(BelowMinimum)
      else None
    case _ => Some(WrongType)
  }

  /**
   * `Joi.string().valid(...ISO4217).required()`. The listed values are looked at before
   * the string type, so any present value outside the table, a non-string included,
   * first breaks the listed-values rule.
   */
  function CheckCurrency(v: Value): (broken: Option<Rule>)
    ensures broken.None? <==> v.Text? && v.s in ISO4217
    ensures v.Absent? <==> broken == Some(Required)
    ensures broken == Some(NotListed) <==> !v.Absent? && !(v.Text? && v.s in ISO4217)
  {
    match v
    case Absent => Some(Required)
    case Text(s) => if s in ISO4217 then None else Some(NotListed)
    case _ => Some(NotListed)
  }

  /** `Joi.string().trim().min(1).required()`: checked on the trimmed string. */
  function CheckReceipt(v: Value): (broken: Option<Rule>)
    ensures broken.None? <==> v.Text? && exists k :: 0 <= k < |v.s| && !IsWhiteSpace(v.s[k])
    ensures v.Absent? <==> broken == Some(Required)
    ensures broken == Some(Empty) <==> v.Text? && forall k :: 0 <= k < |v.s| ==> IsWhiteSpace(v.s[k])
    ensures broken == Some(WrongType) <==> !v.Absent? && !v.Text?
  {
    match v
    case Absent => Some(Required)
    case Text(s) => if Trim(s) == "" then Some(Empty) else None
    case _ => Some(WrongType)
  }

  /** The error a check contributes for `field`: none, or one. */
  function ErrorOf(field: Field, broken: Option<Rule>): seq<FieldError> {
    if broken.Some? then [FieldError(field, broken.value)] else []
  }

  /** One error per key that is not declared by the schema. */
  function UnknownKeyErrors(keys: seq<string>): (errs: seq<FieldError>)
    ensures |errs| == |keys|
    ensures forall i :: 0 <= i < |keys| ==> errs[i] == FieldError(UnknownKey(keys[i]), NotAllowed)
  {
    if keys == [] then [] else [FieldError(UnknownKey(keys[0]), NotAllowed)] + UnknownKeyErrors(keys[1..])
  }

  /** The position of a field in the order errors are reported: the declared keys, then the others. */
  function Rank(f: Field): nat {
    match f
    case AmountField => 0
    case CurrencyField => 1
    case ReceiptField => 2
    case UnknownKey(_) => 3
  }

  /** Whether the body fails on `field`. */
  predicate Fails(b: RequestBody, field: Field) {
    match field
    case AmountField => CheckAmount(b.amount).Some?
    case CurrencyField => CheckCurrency(b.currency).Some?
    case ReceiptField => CheckReceipt(b.receipt).Some?
    case UnknownKey(k) => k in b.otherKeys
  }

  /**
   * Validation with `abortEarly: false`: every error is collected, in schema order
   * (amount, currency, receipt, then keys the schema does not declare), one for each
   * failing field and none for a passing one.
   */
  function Errors(b: RequestBody): (errs: seq<FieldError>)
    ensures forall e :: e in errs ==> Fails(b, e.field)
    ensures forall f :: Fails(b, f) ==> exists e :: e in errs && e.field == f
    // each error carries the rule its field's check found broken
    ensures forall e :: e in errs && e.field == AmountField ==> CheckAmount(b.amount) == Some(e.rule)
    ensures forall e :: e in errs && e.field == CurrencyField ==> CheckCurrency(b.currency) == Some(e.rule)
    ensures forall e :: e in errs && e.field == ReceiptField ==> CheckReceipt(b.receipt) == Some(e.rule)
    ensures forall e :: e in errs && e.field.UnknownKey? ==> e.rule == NotAllowed
    // in schema order
    ensures forall i, j :: 0 <= i < j < |errs| ==> Rank(errs[i].field) <= Rank(errs[j].field)
    ensures |errs| == |ErrorOf(AmountField, CheckAmount(b.amount))| + |ErrorOf(CurrencyField, CheckCurrency(b.currency))|
                      + |ErrorOf(ReceiptField, CheckReceipt(b.receipt))| + |b.otherKeys|
  {
    var errs := ErrorOf(AmountField, CheckAmount(b.amount)) + ErrorOf(CurrencyField, CheckCurrency(b.currency))
                + ErrorOf(ReceiptField, CheckReceipt(b.receipt)) + UnknownKeyErrors(b.otherKeys);
    ErrorsCollected(b, errs);
    ErrorsCarryRules(CheckAmount(b.amount), CheckCurrency(b.currency), CheckReceipt(b.receipt), b.otherKeys);
    ErrorsInSchemaOrder(CheckAmount(b.amount), CheckCurrency(b.currency), CheckReceipt(b.receipt), b.otherKeys);
    errs
  }

  /** The collected errors name exactly the failing fields. */
  lemma ErrorsCollected(b: RequestBody, errs: seq<FieldError>)
    requires errs == ErrorOf(AmountField, CheckAmount(b.amount)) + ErrorOf(CurrencyField, CheckCurrency(b.currency))
                     + ErrorOf(ReceiptField, CheckReceipt(b.receipt)) + UnknownKeyErrors(b.otherKeys)
    ensures forall e :: e in errs ==> Fails(b, e.field)
    ensures forall f :: Fails(b, f) ==> exists e :: e in errs && e.field == f
  {
    var ba, bc, br := CheckAmount(b.amount), CheckCurrency(b.currency), CheckReceipt(b.receipt);
    var declared := ErrorOf(AmountField, ba) + ErrorOf(CurrencyField, bc) + ErrorOf(ReceiptField, br);
    var unknown := UnknownKeyErrors(b.otherKeys);
    assert errs == declared + unknown;
    forall e | e in errs
      ensures Fails(b, e.field)
    {
      if e in unknown {
        var i :| 0 <= i < |unknown| && unknown[i] == e;
        assert e.field == UnknownKey(b.otherKeys[i]);
      }
    }
    forall f | Fails(b, f)
      ensures exists e :: e in errs && e.field == f
    {
      match f
      case AmountField => assert FieldError(f, ba.value) in errs;
      case CurrencyField => assert FieldError(f, bc.value) in errs;
      case ReceiptField => assert FieldError(f, br.value) in errs;
      case UnknownKey(k) =>
        var i :| 0 <= i < |b.otherKeys| && b.otherKeys[i] == k;
        assert unknown[i] in errs;
    }
  }

  /**
   * Whatever the three checks found, the collected list carries each check's rule under
   * its field, and the not-allowed rule under each other key.
   */
  lemma ErrorsCarryRules(ba: Option<Rule>, bc: Option<Rule>, br: Option<Rule>, keys: seq<string>)
    ensures var errs := ErrorOf(AmountField, ba) + ErrorOf(CurrencyField, bc) + ErrorOf(ReceiptField, br)
                        + UnknownKeyErrors(keys);
      && (forall e :: e in errs && e.field == AmountField ==> ba == Some(e.rule))
      && (forall e :: e in errs && e.field == CurrencyField ==> bc == Some(e.rule))
      && (forall e :: e in errs && e.field == ReceiptField ==> br == Some(e.rule))
      && (forall e :: e in errs && e.field.UnknownKey? ==> e.rule == NotAllowed)
  {
    var declared := ErrorOf(AmountField, ba) + ErrorOf(CurrencyField, bc) + ErrorOf(ReceiptField, br);
    var unknown := UnknownKeyErrors(keys);
    var errs := declared + unknown;
    forall e: FieldError | e in errs
      ensures e.field == AmountField ==> ba == Some(e.rule)
      ensures e.field == CurrencyField ==> bc == Some(e.rule)
      ensures e.field == ReceiptField ==> br == Some(e.rule)
      ensures e.field.UnknownKey? ==> e.rule == NotAllowed
    {
      if e in unknown {
        var i :| 0 <= i < |unknown| && unknown[i] == e;
        assert e == FieldError(UnknownKey(keys[i]), NotAllowed);
      }
    }
  }

  /** The collected list is in schema order: amount, currency, receipt, then the other keys. */
  lemma ErrorsInSchemaOrder(ba: Option<Rule>, bc: Option<Rule>, br: Option<Rule>, keys: seq<string>)
    ensures var errs := ErrorOf(AmountField, ba) + ErrorOf(CurrencyField, bc) + ErrorOf(ReceiptField, br)
                        + UnknownKeyErrors(keys);
      forall i, j :: 0 <= i < j < |errs| ==> Rank(errs[i].field) <= Rank(errs[j].field)
  {
    var declared := ErrorOf(AmountField, ba) + ErrorOf(CurrencyField, bc) + ErrorOf(ReceiptField, br);
    var unknown := UnknownKeyErrors(keys);
    var errs := declared + unknown;
    forall i, j | 0 <= i < j < |errs|
      ensures Rank(errs[i].field) <= Rank(errs[j].field)
    {
      if j >= |declared| {
        assert errs[j] == unknown[j - |declared|];
        if i >= |declared| {
          assert errs[i] == unknown[i - |declared|];
        }
      } else {
        assert errs[i] in declared && errs[j] in declared;
      }
    }
  }

  /**
   * `validateCreatePayment`: the request, with the receipt trimmed, when every rule
   * holds and no other key is present; otherwise the collected errors.
   */
  function ValidateCreatePayment(b: RequestBody): (r: Result<CreatePaymentDto, seq<FieldError>>)
    ensures r.Success? <==>
      && b.amount.Number? && IsInteger(b.amount.n) && 1.0 <= b.amount.n <= MaxSafeInteger as real
      && b.currency.Text? && b.currency.s in ISO4217
      && b.receipt.Text? && Trim(b.receipt.s) != ""
      && b.otherKeys == []
    ensures r.Success? ==> r.value == CreatePaymentDto(b.amount.n.Floor, b.currency.s, Trim(b.receipt.s))
    ensures r.Success? ==> 1 <= r.value.amount <= MaxSafeInteger && r.value.receipt != "" && r.value.receipt == Trim(r.value.receipt)
    ensures r.Failure? ==> r.error == Errors(b) && r.error != []
  {
    var errs := Errors(b);
    if errs == [] then
      TrimIdempotent(b.receipt.s);
      Success(CreatePaymentDto(b.amount.n.Floor, b.currency.s, Trim(b.receipt.s)))
    else
      Failure(errs)
  }

  /** The body a client sends for a request. */
  function BodyOf(dto: CreatePaymentDto): RequestBody {
    RequestBody(Number(dto.amount as real), Text(dto.currency), Text(dto.receipt), [])
  }

  /**
   * A valid request passes unchanged apart from trimming, and what validation yields
   * validates again to itself.
   */
  lemma {:induction false} ValidateRoundTrip(dto: CreatePaymentDto)
    requires 1 <= dto.amount <= MaxSafeInteger && dto.currency in ISO4217 && Trim(dto.receipt) != ""
    ensures ValidateCreatePayment(BodyOf(dto)) == Success(dto.(receipt := Trim(dto.receipt)))
    ensures ValidateCreatePayment(BodyOf(ValidateCreatePayment(BodyOf(dto)).value))
         == ValidateCreatePayment(BodyOf(dto))
  {
    SafeAmountPasses(dto.amount);
    TrimIdempotent(dto.receipt);
  }

  /** A safe integer amount of at least 1, sent as a number, passes and is read back unchanged. */
  lemma SafeAmountPasses(n: int)
    requires 1 <= n <= MaxSafeInteger
    ensures CheckAmount(Number(n as real)) == None && (n as real).Floor == n
  {
    assert n as real <= MaxSafeInteger as real;
  }

  /** The currencies the request examples use are listed. */
  lemma ExampleCurrencies()
    ensures "USD" in ISO4217 && "EUR" in ISO4217 && "GBP" in ISO4217 && "JPY" in ISO4217
    ensures "NOK" in ISO4217 && "SEK" in ISO4217 && "DKK" in ISO4217
  {
    assert "USD" in IsoLine15 && "EUR" in IsoLine05 && "GBP" in IsoLine05 && "JPY" in IsoLine07;
    assert "NOK" in IsoLine10 && "SEK" in IsoLine12 && "DKK" in IsoLine04;
  }

  /** Error lists built from at most one error per declared field, then the unknown-key errors of distinct keys, name no field twice. */
  lemma DistinctFields(a: seq<FieldError>, c: seq<FieldError>, r: seq<FieldError>, keys: seq<string>)
    requires |a| <= 1 && |c| <= 1 && |r| <= 1
    requires forall e :: e in a ==> e.field == AmountField
    requires forall e :: e in c ==> e.field == CurrencyField
    requires forall e :: e in r ==> e.field == ReceiptField
    requires forall i, j :: 0 <= i < j < |keys| ==> keys[i] != keys[j]
    ensures var errs := a + c + r + UnknownKeyErrors(keys);
      forall i, j :: 0 <= i < j < |errs| ==> errs[i].field != errs[j].field
  {
    var u := UnknownKeyErrors(keys);
    var d := a + c + r;
    var errs := d + u;
    assert a + c + r + u == errs;
    forall i, j | 0 <= i < j < |errs|
      ensures errs[i].field != errs[j].field
    {
      if j < |d| {
        assert d[i] in a + c + r && d[j] in a + c + r;
      } else if i >= |d| {
        assert errs[i] == u[i - |d|] && errs[j] == u[j - |d|];
      } else {
        assert errs[j] == u[j - |d|];
        assert d[i] in a || d[i] in c || d[i] in r;
      }
    }
  }

  /**
   * For a body a JSON object can be, no two errors name the same field, and no error
   * names a declared key as unknown.
   */
  lemma OneErrorPerField(b: RequestBody)
    requires WellFormedBody(b)
    ensures forall i, j :: 0 <= i < j < |Errors(b)| ==> Errors(b)[i].field != Errors(b)[j].field
    ensures forall e :: e in Errors(b) && e.field.UnknownKey? ==>
      e.field.key != "amount" && e.field.key != "currency" && e.field.key != "receipt"
  {
    var errs := Errors(b);
    var a, c, r := ErrorOf(AmountField, CheckAmount(b.amount)), ErrorOf(CurrencyField, CheckCurrency(b.currency)),
                   ErrorOf(ReceiptField, CheckReceipt(b.receipt));
    assert errs == a + c + r + UnknownKeyErrors(b.otherKeys);
    DistinctFields(a, c, r, b.otherKeys);
    forall e | e in errs && e.field.UnknownKey?
      ensures e.field.key != "amount" && e.field.key != "currency" && e.field.key != "receipt"
    {
      assert Fails(b, e.field);
    }
  }
}
