/** js/modules/validator.js: the version-4 UUID pattern and the form checks of items and
    collaborators. Each check appends at most one error, so a list of errors is the
    concatenation of the failed checks' errors, in check order. */
module Validator {
  import opened Common
  import Items

  datatype FieldError = FieldError(field: string, message: string)

  // ---- isValidUUID ----

  predicate IsHex(c: char)
  {
    '0' <= c <= '9' || 'a' <= c <= 'f' || 'A' <= c <= 'F'
  }

  /** The positions of the four dashes of the 8-4-4-4-12 layout. */
  predicate DashAt(k: int)
  {
    k == 8 || k == 13 || k == 18 || k == 23
  }

  /** /^[0-9a-f]{8}-[0-9a-f]{4}-4[0-9a-f]{3}-[89ab][0-9a-f]{3}-[0-9a-f]{12}$/i: the textual
      form of a version-4 UUID (RFC 4122, section 4.4), whose variant digit is one of 8, 9,
      a, b (section 4.1.1), in either case. */
  predicate IsValidUUID(s: string)
  {
    |s| == 36 &&
    (forall k :: 0 <= k < 36 ==> if DashAt(k) then s[k] == '-' else IsHex(s[k])) &&
    s[14] == '4' && (s[19] == '8' || s[19] == '9' || s[19] == 'a' || s[19] == 'b' || s[19] == 'A' || s[19] == 'B')
  }

  function HexDigit(d: int): (c: char)
    requires 0 <= d < 16
    ensures IsHex(c) && LowerChar(c) == c
  {
    if d < 10 then ('0' as int + d) as char else ('a' as int + d - 10) as char
  }

  function HexValue(c: char): (d: int)
    requires IsHex(c)
    ensures 0 <= d < 16 && HexDigit(d) == LowerChar(c)
  {
    if c <= '9' then c as int - '0' as int
    else if c <= 'F' then c as int - 'A' as int + 10
    else c as int - 'a' as int + 10
  }

  /** The number of dashes before position k. */
  function DashesBefore(k: int): int
  {
    if k > 23 then 4 else if k > 18 then 3 else if k > 13 then 2 else if k > 8 then 1 else 0
  }

  /** The character at position k of the UUID made from 32 hexadecimal digits, with the
      version digit set to 4 and the two variant bits set to 10. */
  function UuidChar(n: seq<int>, k: int): char
    requires |n| == 32 && (forall i :: 0 <= i < 32 ==> 0 <= n[i] < 16) && 0 <= k < 36
  {
    if DashAt(k) then '-'
    else if k == 14 then '4'
    else if k == 19 then HexDigit(8 + n[k - DashesBefore(k)] % 4)
    else HexDigit(n[k - DashesBefore(k)])
  }

  /** The lower-case UUID text crypto.randomUUID produces from 32 random hexadecimal digits. */
  function UuidOf(n: seq<int>): (s: string)
    requires |n| == 32 && forall i :: 0 <= i < 32 ==> 0 <= n[i] < 16
    ensures |s| == 36 && forall k :: 0 <= k < 36 ==> s[k] == UuidChar(n, k)
  {
    seq(36, k requires 0 <= k < 36 => UuidChar(n, k))
  }

  /** The position in the text of the i-th hexadecimal digit. */
  function DigitPosition(i: int): (k: int)
    ensures 0 <= i < 32 ==> 0 <= k < 36 && !DashAt(k) && k - DashesBefore(k) == i
  {
    if i >= 20 then i + 4 else if i >= 16 then i + 3 else if i >= 12 then i + 2 else if i >= 8 then i + 1 else i
  }

  /** The 32 hexadecimal digits of a valid UUID. */
  function Digits(s: string): (n: seq<int>)
    requires IsValidUUID(s)
    ensures |n| == 32 && forall i :: 0 <= i < 32 ==> 0 <= n[i] < 16
  {
    seq(32, i requires 0 <= i < 32 => HexValue(s[DigitPosition(i)]))
  }

  /** Every UUID made from random digits passes the UUID test. */
  lemma UuidOfIsValid(n: seq<int>)
    requires |n| == 32 && forall i :: 0 <= i < 32 ==> 0 <= n[i] < 16
    ensures IsValidUUID(UuidOf(n))
  {
    var s := UuidOf(n);
    assert s[14] == '4';
    var v := 8 + n[19 - DashesBefore(19)] % 4;
    assert s[19] == HexDigit(v);
  }

  /** The UUID test accepts exactly those texts: a valid UUID is, ignoring case, the one made
      from its own digits. */
  lemma ValidIsUuidOf(s: string)
    requires IsValidUUID(s)
    ensures UuidOf(Digits(s)) == ToLower(s)
  {
    var n := Digits(s);
    var t := UuidOf(n);
    forall k | 0 <= k < 36 ensures t[k] == ToLower(s)[k] {
      if !DashAt(k) {
        var i := k - DashesBefore(k);
        assert DigitPosition(i) == k;
        assert n[i] == HexValue(s[k]);
      }
    }
  }

  // ---- validateItemDetails ----

  /** The item form as read: text fields ("" when left blank), the numbers the form holds and
      the initial stock as parseInt reads it (None for NaN). */
  datatype ItemForm = ItemForm(
    name: string,
    itemType: string,
    ca: string,
    minStock: int,
    maxStock: int,
    price: real,
    initialStock: Option<int>,
    shelfLifeDays: int)

  const NameRequired: FieldError := FieldError("name", "O nome do item é obrigatório.")
  const TypeRequired: FieldError := FieldError("type", "O tipo do item é obrigatório.")
  const CaNotNumber: FieldError := FieldError("ca", "O CA deve ser um número.")
  const MinNegative: FieldError := FieldError("minStock", "Estoque mínimo não pode ser negativo.")
  const MaxNegative: FieldError := FieldError("maxStock", "Estoque máximo não pode ser negativo.")
  const MinAboveMax: FieldError := FieldError("maxStock", "Estoque mínimo não pode ser maior que o estoque máximo.")
  const PriceNegative: FieldError := FieldError("price", "Preço não pode ser negativo.")
  const StockInvalid: FieldError := FieldError("currentStock", "Estoque inicial deve ser um número não negativo.")
  const ShelfLifeNegative: FieldError := FieldError("shelfLifeDays", "Vida útil não pode ser negativa.")

  /** A non-empty run of digits of the radix (ECMAScript's DecimalDigits, HexDigits,
      OctalDigits and BinaryDigits, without numeric separators). */
  predicate IsDigitsOf(s: string, radix: nat)
  {
    s != [] && forall k :: 0 <= k < |s| ==> DigitIn(s[k], radix)
  }

  predicate DigitIn(c: char, radix: nat)
  {
    match radix
    case 2 => c == '0' || c == '1'
    case 8 => '0' <= c <= '7'
    case 16 => '0' <= c <= '9' || 'a' <= c <= 'f' || 'A' <= c <= 'F'
    case _ => '0' <= c <= '9'
  }

  /** The part before the exponent: digits with at most one point and at least one digit
      ("5", "5.", ".5" and "5.5"). */
  predicate IsMantissa(m: string)
  {
    (forall k :: 0 <= k < |m| ==> DigitIn(m[k], 10) || m[k] == '.') &&
    (forall i, j :: 0 <= i < j < |m| && m[i] == '.' ==> m[j] != '.') &&
    (exists k :: 0 <= k < |m| && DigitIn(m[k], 10))
  }

  /** SignedInteger: decimal digits with an optional sign. */
  predicate IsSignedInteger(s: string)
  {
    if |s| > 0 && (s[0] == '+' || s[0] == '-') then IsDigitsOf(s[1..], 10) else IsDigitsOf(s, 10)
  }

  /** StrUnsignedDecimalLiteral: Infinity, or a mantissa with an optional e/E exponent. */
  predicate IsUnsignedDecimal(s: string)
  {
    s == "Infinity" ||
    match FirstIndex(s, (c: char) => c == 'e' || c == 'E')
    case None => IsMantissa(s)
    case Some(e) => IsMantissa(s[..e]) && IsSignedInteger(s[e + 1..])
  }

  /** StrDecimalLiteral: an unsigned decimal literal with an optional sign. */
  predicate IsDecimalLiteral(s: string)
  {
    if |s| > 0 && (s[0] == '+' || s[0] == '-') then IsUnsignedDecimal(s[1..]) else IsUnsignedDecimal(s)
  }

  /** NonDecimalIntegerLiteral: 0x/0X, 0o/0O or 0b/0B followed by digits of that radix, with
      no sign. */
  predicate IsNonDecimalInteger(s: string)
  {
    |s| > 2 && s[0] == '0' &&
    ((s[1] in "xX" && IsDigitsOf(s[2..], 16)) ||
     (s[1] in "oO" && IsDigitsOf(s[2..], 8)) ||
     (s[1] in "bB" && IsDigitsOf(s[2..], 2)))
  }

  /** Number(ca) is not NaN exactly when ca is a StringNumericLiteral (section 7.1.4.1.1 of
      ECMA-262): surrounding whitespace around nothing, a decimal literal or a non-decimal
      integer literal. Exponents too large for a double give Infinity, which is not NaN. */
  predicate IsNumeric(ca: string)
  {
    var t := Trim(ca);
    t == [] || IsDecimalLiteral(t) || IsNonDecimalInteger(t)
  }

  /** A run of decimal digits is a mantissa with no exponent marker. */
  lemma DigitsAreMantissa(d: string)
    requires IsDigitsOf(d, 10)
    ensures IsMantissa(d) && FirstIndex(d, (c: char) => c == 'e' || c == 'E').None?
  {
    assert DigitIn(d[0], 10);
  }

  /** Digits, an exponent marker and a signed exponent: the marker sits right after the
      digits. */
  lemma ExponentSplit(d: string, marker: char, x: string)
    requires IsDigitsOf(d, 10) && (marker == 'e' || marker == 'E')
    ensures var u := d + [marker] + x;
      FirstIndex(u, (c: char) => c == 'e' || c == 'E') == Some(|d|) && u[..|d|] == d && u[|d| + 1..] == x
  {
    var u := d + [marker] + x;
    DigitsAreMantissa(d);
    assert u[|d|] == marker;
    assert forall k :: 0 <= k < |d| ==> u[k] == d[k];
  }

  /** An optional sign before a text that starts with a digit and does not end in whitespace:
      trimming keeps the text, and it is a decimal literal exactly when the unsigned part is. */
  lemma SignedText(sign: string, u: string)
    requires sign == "" || sign == "+" || sign == "-"
    requires u != [] && DigitIn(u[0], 10) && !IsWhitespace(u[|u| - 1])
    ensures Trim(sign + u) == sign + u
    ensures IsDecimalLiteral(sign + u) <==> IsUnsignedDecimal(u)
  {
    var t := sign + u;
    assert t[|t| - 1] == u[|u| - 1];
    assert t[0] == if sign == "" then u[0] else sign[0];
    TrimKeeps(t);
    if sign == "" {
      assert t == u;
    } else {
      assert t[1..] == u;
    }
  }

  /** A text that is an unsigned decimal literal ending in a digit is a number for Number()
      with or without a sign. */
  lemma SignedIsNumeric(sign: string, u: string)
    requires sign == "" || sign == "+" || sign == "-"
    requires IsUnsignedDecimal(u) && u != [] && DigitIn(u[|u| - 1], 10) && DigitIn(u[0], 10)
    ensures IsNumeric(sign + u)
  {
    SignedText(sign, u);
  }

  /** Every run of decimal digits, with or without a sign, is a number for Number(). */
  lemma DecimalIntegersAreNumeric(sign: string, d: string)
    requires sign == "" || sign == "+" || sign == "-"
    requires IsDigitsOf(d, 10)
    ensures IsNumeric(sign + d)
  {
    DigitsAreMantissa(d);
    SignedIsNumeric(sign, d);
  }

  /** So is such a run followed by e or E and a signed decimal exponent. */
  lemma ExponentsAreNumeric(sign: string, d: string, marker: char, x: string)
    requires sign == "" || sign == "+" || sign == "-"
    requires marker == 'e' || marker == 'E'
    requires IsDigitsOf(d, 10) && IsSignedInteger(x)
    ensures IsNumeric(sign + (d + [marker] + x))
  {
    var u := d + [marker] + x;
    ExponentSplit(d, marker, x);
    DigitsAreMantissa(d);
    assert DigitIn(x[|x| - 1], 10) by {
      if x[0] == '+' || x[0] == '-' {
        assert x[|x| - 1] == x[1..][|x| - 2];
      }
    }
    assert u[|u| - 1] == x[|x| - 1] && u[0] == d[0];
    SignedIsNumeric(sign, u);
  }

  /** Hence every non-negative integer as Number.prototype.toString writes it. */
  lemma NaturalsAreNumeric(n: nat)
    ensures IsNumeric(NatToString(n)) && IsNumeric("-" + NatToString(n))
  {
    var d := NatToString(n);
    DecimalIntegersAreNumeric("", d);
    DecimalIntegersAreNumeric("-", d);
    assert "" + d == d;
  }

  /** Infinity with or without a sign is a number for Number(). */
  lemma InfinityIsNumeric(sign: string)
    requires sign == "" || sign == "+" || sign == "-"
    ensures IsNumeric(sign + "Infinity")
  {
    var t := sign + "Infinity";
    assert t[|t| - 1] == 'y';
    TrimKeeps(t);
    if sign == "" {
      assert t == "Infinity";
    } else {
      assert t[1..] == "Infinity";
    }
  }

  /** 0x, 0o or 0b (in either case) followed by digits of that radix is a number for
      Number(). */
  lemma NonDecimalIsNumeric(prefix: char, ds: string)
    requires IsDigitsOf(ds, if prefix in "xX" then 16 else if prefix in "oO" then 8 else 2)
    requires prefix in "xXoObB"
    ensures IsNumeric(['0', prefix] + ds)
  {
    var t := ['0', prefix] + ds;
    assert t[|t| - 1] == ds[|ds| - 1];
    assert DigitIn(ds[|ds| - 1], 16);
    TrimKeeps(t);
    assert t[2..] == ds;
  }

  /** Number() turns digits followed by a letter other than an exponent marker into NaN
      ("12a"). */
  lemma LetterAfterDigitsRefused(d: string, c: char)
    requires IsDigitsOf(d, 10)
    requires ('a' <= c <= 'z' || 'A' <= c <= 'Z') && c != 'e' && c != 'E'
    ensures !IsNumeric(d + [c])
  {
    var t := d + [c];
    assert DigitIn(d[0], 10) && t[0] == d[0] && t[|t| - 1] == c;
    TrimKeeps(t);
    assert forall k :: 0 <= k < |d| ==> t[k] == d[k];
    assert FirstIndex(t, (x: char) => x == 'e' || x == 'E').None?;
    assert !IsMantissa(t) by {
      assert !DigitIn(t[|t| - 1], 10);
    }
    assert |t| > 2 ==> DigitIn(t[1], 10);
  }

  /** An exponent marker with no exponent after it makes NaN ("1e", "-3E"). */
  lemma BareExponentRefused(sign: string, d: string, marker: char)
    requires sign == "" || sign == "+" || sign == "-"
    requires IsDigitsOf(d, 10) && (marker == 'e' || marker == 'E')
    ensures !IsNumeric(sign + (d + [marker]))
  {
    var u := d + [marker];
    var t := sign + u;
    assert !IsUnsignedDecimal(u) by {
      ExponentSplit(d, marker, []);
      assert u + [] == u;
    }
    assert DigitIn(d[0], 10) && u[0] == d[0] && u[|u| - 1] == marker;
    SignedText(sign, u);
    if sign == "" {
      assert t == u;
      if |u| > 2 {
        assert u[1] == d[1] && DigitIn(d[1], 10);
        NotRadixPrefix(u[1]);
      }
    } else {
      assert t[0] == sign[0];
    }
  }

  /** No decimal digit or exponent marker is a radix prefix letter. */
  lemma NotRadixPrefix(c: char)
    requires DigitIn(c, 10) || c == 'e' || c == 'E'
    ensures c !in "xXoObB"
  {
  }

  /** A sign before a hexadecimal, octal or binary literal makes NaN ("-0x1A"). */
  lemma SignedNonDecimalRefused(sign: string, prefix: char, ds: string)
    requires sign == "+" || sign == "-"
    requires prefix in "xXoObB" && IsDigitsOf(ds, 16)
    ensures !IsNumeric(sign + (['0', prefix] + ds))
  {
    var u := ['0', prefix] + ds;
    var t := sign + u;
    assert t[|t| - 1] == ds[|ds| - 1] && DigitIn(ds[|ds| - 1], 16);
    TrimKeeps(t);
    assert t[1..] == u;
    assert !IsUnsignedDecimal(u) by {
      assert u[1] == prefix && !DigitIn(prefix, 10);
      match FirstIndex(u, (c: char) => c == 'e' || c == 'E')
      case None =>
      case Some(e) =>
        assert e >= 2;
        assert u[..e][1] == prefix;
    }
  }

  /** One check of a form: whether it failed, and the error it then reports. */
  datatype Rule = Rule(failed: bool, error: FieldError)

  /** The errors of the failed checks, in check order (errors.push in sequence). */
  function Collect(rules: seq<Rule>): (errors: seq<FieldError>)
    ensures |errors| <= |rules|
    ensures errors == [] <==> forall k :: 0 <= k < |rules| ==> !rules[k].failed
    ensures forall k :: 0 <= k < |rules| && rules[k].failed ==> rules[k].error in errors
    ensures forall e :: e in errors ==> exists k :: 0 <= k < |rules| && rules[k].failed && rules[k].error == e
  {
    if rules == [] then [] else (if rules[0].failed then [rules[0].error] else []) + Collect(rules[1..])
  }

  /** The first error reported is that of the first check that failed. */
  lemma {:induction false} CollectFirst(rules: seq<Rule>, k: nat)
    requires k < |rules| && rules[k].failed && forall i :: 0 <= i < k ==> !rules[i].failed
    ensures Collect(rules)[0] == rules[k].error
  {
    if k > 0 {
      CollectFirst(rules[1..], k - 1);
    }
  }

  predicate NameBlank(f: ItemForm) { Trim(f.name) == "" }
  predicate TypeBlank(f: ItemForm) { Trim(f.itemType) == "" }
  predicate CaInvalid(f: ItemForm) { f.ca != "" && !IsNumeric(f.ca) }
  predicate StockChecked(f: ItemForm, isUpdate: bool) { !isUpdate && f.itemType != Items.KitType }
  predicate StockBad(f: ItemForm) { f.initialStock.None? || f.initialStock.value < 0 }

  /** The checks of validateItemDetails, in the order the source makes them. */
  function ItemRules(f: ItemForm, isUpdate: bool): seq<Rule>
  {
    [Rule(NameBlank(f), ItemErrors[0]),
     Rule(TypeBlank(f), ItemErrors[1]),
     Rule(CaInvalid(f), ItemErrors[2]),
     Rule(f.minStock < 0, ItemErrors[3]),
     Rule(f.maxStock < 0, ItemErrors[4]),
     Rule(f.minStock > f.maxStock, ItemErrors[5]),
     Rule(f.price < 0.0, ItemErrors[6]),
     Rule(StockChecked(f, isUpdate) && StockBad(f), ItemErrors[7]),
     Rule(f.shelfLifeDays < 0, ItemErrors[8])]
  }

  /** The errors of validateItemDetails, in check order. */
  const ItemErrors: seq<FieldError> :=
    [NameRequired, TypeRequired, CaNotNumber, MinNegative, MaxNegative, MinAboveMax,
     PriceNegative, StockInvalid, ShelfLifeNegative]

  /** No two checks report the same error. */
  lemma ItemErrorsDistinct()
    ensures forall i, j :: 0 <= i < |ItemErrors| && 0 <= j < |ItemErrors| && i != j ==> ItemErrors[i] != ItemErrors[j]
  {
    assert NameRequired.field[0] != TypeRequired.field[0];
    assert MinNegative.field[1] != MaxNegative.field[1];
    assert |MaxNegative.message| != |MinAboveMax.message|;
  }

  /** Every check of validateItemDetails passes. */
  predicate ItemFormValid(f: ItemForm, isUpdate: bool)
  {
    !NameBlank(f) && !TypeBlank(f) && !CaInvalid(f) && f.minStock >= 0 && f.maxStock >= 0 &&
    f.minStock <= f.maxStock && f.price >= 0.0 && !(StockChecked(f, isUpdate) && StockBad(f)) &&
    f.shelfLifeDays >= 0
  }

  lemma ItemRulesPass(f: ItemForm, isUpdate: bool)
    ensures var rules := ItemRules(f, isUpdate);
      (forall k :: 0 <= k < |rules| ==> !rules[k].failed) <==> ItemFormValid(f, isUpdate)
  {
    var rules := ItemRules(f, isUpdate);
    if ItemFormValid(f, isUpdate) {
      forall k | 0 <= k < |rules| ensures !rules[k].failed {
      }
    } else {
      var k := if NameBlank(f) then 0 else if TypeBlank(f) then 1 else if CaInvalid(f) then 2
        else if f.minStock < 0 then 3 else if f.maxStock < 0 then 4 else if f.minStock > f.maxStock then 5
        else if f.price < 0.0 then 6 else if StockChecked(f, isUpdate) && StockBad(f) then 7 else 8;
      assert rules[k].failed;
    }
  }

  /** A check whose error no other check reports is reported exactly when it fails. */
  lemma CollectHas(rules: seq<Rule>, k: nat)
    requires k < |rules| && forall i :: 0 <= i < |rules| && i != k ==> rules[i].error != rules[k].error
    ensures rules[k].error in Collect(rules) <==> rules[k].failed
  {
  }

  /** When no two checks share an error, each error is reported exactly when its check fails. */
  lemma CollectHasAll(rules: seq<Rule>)
    requires forall i, j :: 0 <= i < |rules| && 0 <= j < |rules| && i != j ==> rules[i].error != rules[j].error
    ensures forall k :: 0 <= k < |rules| ==> (rules[k].error in Collect(rules) <==> rules[k].failed)
  {
    forall k | 0 <= k < |rules| ensures rules[k].error in Collect(rules) <==> rules[k].failed {
      CollectHas(rules, k);
    }
  }

  function ValidateItemDetails(f: ItemForm, isUpdate: bool): (errors: seq<FieldError>)
    ensures errors == [] <==> ItemFormValid(f, isUpdate)
    ensures |errors| <= 9
  {
    ItemRulesPass(f, isUpdate);
    Collect(ItemRules(f, isUpdate))
  }

  /** The nine errors are distinct, so each error is reported exactly when its own check
      fails: the name error exactly when the name is blank, the order error exactly when the
      minimum exceeds the maximum, and so on down ItemRules. */
  lemma ItemErrorsFromChecks(f: ItemForm, isUpdate: bool)
    ensures var errors := ValidateItemDetails(f, isUpdate);
      forall k :: 0 <= k < |ItemErrors| ==> (ItemErrors[k] in errors <==> ItemRules(f, isUpdate)[k].failed)
  {
    var rules := ItemRules(f, isUpdate);
    assert forall k :: 0 <= k < |rules| ==> rules[k].error == ItemErrors[k];
    ItemErrorsDistinct();
    CollectHasAll(rules);
  }

  /** Two instances: a negative minimum and a minimum above the maximum. */
  lemma StockOrderErrors(f: ItemForm, isUpdate: bool)
    ensures var errors := ValidateItemDetails(f, isUpdate);
      (MinNegative in errors <==> f.minStock < 0) &&
      (MinAboveMax in errors <==> f.minStock > f.maxStock)
  {
    ItemErrorsFromChecks(f, isUpdate);
    assert ItemErrors[3] == MinNegative && ItemErrors[5] == MinAboveMax;
    assert ItemRules(f, isUpdate)[3].failed == (f.minStock < 0);
    assert ItemRules(f, isUpdate)[5].failed == (f.minStock > f.maxStock);
  }

  /** A blank name is the first error reported. */
  lemma NameErrorFirst(f: ItemForm, isUpdate: bool)
    requires NameBlank(f)
    ensures ValidateItemDetails(f, isUpdate)[0] == NameRequired
  {
    CollectFirst(ItemRules(f, isUpdate), 0);
  }

  /** The initial stock is never checked on an update, nor for a kit. */
  lemma StockCheckOnlyOnCreate(f: ItemForm, g: ItemForm, isUpdate: bool)
    requires f == g.(initialStock := f.initialStock)
    requires isUpdate || f.itemType == Items.KitType
    ensures ValidateItemDetails(f, isUpdate) == ValidateItemDetails(g, isUpdate)
  {
    assert ItemRules(f, isUpdate) == ItemRules(g, isUpdate);
  }

  // ---- validateCollaboratorDetails ----

  const CollaboratorNameRequired: FieldError := FieldError("name", "O nome do colaborador é obrigatório.")

  function ValidateCollaboratorDetails(name: string): (errors: seq<FieldError>)
    ensures errors == [] <==> !IsBlank(name)
    ensures errors != [] ==> errors == [CollaboratorNameRequired]
  {
    TrimEmptyIffBlank(name);
    if Trim(name) == "" then [CollaboratorNameRequired] else []
  }
}
