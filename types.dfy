/**
 * The transaction record and the field rules of `TransactionSchema`
 * (a zod object schema) applied by `safeParse`.
 */
module Types {
  import opened Wrappers
  import opened Js

  /** The two type tags the schema's enum accepts. */
  datatype TxType = Receita | Despesa

  function TypeTag(t: TxType): string
  {
    match t
    case Receita => "receita"
    case Despesa => "despesa"
  }

  /** The fields `safeParse` yields on success (`TransactionFormData`). */
  datatype TransactionData = TransactionData(
    description: string,
    amount: real,
    txType: TxType,
    isPaid: bool,
    account: Option<string>,
    card: Option<string>,
    installments: Option<string>,
    month: string,
    userId: string)

  /** A stored document: the validated fields plus the server-assigned `createdAt` (in milliseconds). */
  datatype StoredDoc = StoredDoc(data: TransactionData, createdAt: int)

  /** The `Transaction` record the client works with. */
  datatype Transaction = Transaction(
    id: string,
    description: string,
    amount: real,
    txType: TxType,
    isPaid: bool,
    account: Option<string>,
    card: Option<string>,
    installments: Option<string>,
    month: string,
    userId: string,
    createdAt: int)

  /** The signed-in identity as the pages read it (`User` of the identity provider). */
  datatype User = User(uid: string, displayName: Option<string>)

  /** The record invariants every validated value satisfies. */
  predicate ValidData(d: TransactionData)
  {
    Utf16Length(d.description) >= 2 && d.amount > 0.0
  }

  /** The object handed to `safeParse`, one JavaScript value per schema key. */
  datatype SchemaInput = SchemaInput(
    description: JsValue,
    amount: JsValue,
    txType: JsValue,
    isPaid: JsValue,
    account: JsValue,
    card: JsValue,
    installments: JsValue,
    month: JsValue,
    userId: JsValue)

  /** The JavaScript value of an optional field: `undefined` when absent. */
  function OptionalValue(o: Option<string>): (v: JsValue)
    ensures o.None? <==> v.Undefined?
    ensures o.Some? ==> v == Str(o.value)
  {
    if o.None? then Undefined else Str(o.value)
  }

  /** The schema's keys, as they appear in `fieldErrors`. */
  datatype Field = Description | Amount | Type | IsPaid | Account | Card | Installments | Month | UserId

  /** One zod issue per failing field: wrong type, a value outside the enum, or a failed bound. */
  datatype Issue = InvalidType | InvalidEnumValue | TooSmall(message: string)

  const DescriptionMessage: string := "Descrição deve ter pelo menos 2 caracteres."
  const AmountMessage: string := "O valor deve ser um número positivo."

  // ---------------------------------------------------------------------
  // Field rules

  /** `z.string().min(2, ...)`, where the length is JavaScript's count of UTF-16 code units. */
  function ParseDescription(v: JsValue): (r: Result<string, Issue>)
    ensures r.Success? <==> v.Str? && Utf16Length(v.s) >= 2
    ensures r.Success? ==> r.value == v.s
    ensures v.Str? && Utf16Length(v.s) < 2 ==> r == Failure(TooSmall(DescriptionMessage))
  {
    match v
    case Str(s) => if Utf16Length(s) < 2 then Failure(TooSmall(DescriptionMessage)) else Success(s)
    case _ => Failure(InvalidType)
  }

  /** `z.coerce.number().positive(...)`: coerce with `Number(...)`, reject NaN, then demand `> 0`. */
  function ParseAmount(v: JsValue): (r: Result<real, Issue>)
    ensures r.Success? <==> ToNumber(v).Finite? && ToNumber(v).value > 0.0
    ensures r.Success? ==> r.value == ToNumber(v).value
    ensures ToNumber(v).NaN? ==> r == Failure(InvalidType)
  {
    match ToNumber(v)
    case NaN => Failure(InvalidType)
    case Finite(x) => if x > 0.0 then Success(x) else Failure(TooSmall(AmountMessage))
  }

  /** `z.enum(["receita", "despesa"])`. */
  function ParseType(v: JsValue): (r: Result<TxType, Issue>)
    ensures r.Success? <==> v == Str("receita") || v == Str("despesa")
    ensures r.Success? ==> v == Str(TypeTag(r.value))
    ensures v.Str? && r.Failure? ==> r.error == InvalidEnumValue
  {
    match v
    case Str(s) =>
      if s == "receita" then Success(Receita)
      else if s == "despesa" then Success(Despesa)
      else Failure(InvalidEnumValue)
    case _ => Failure(InvalidType)
  }

  /** `z.boolean().default(false)`: only `undefined` is replaced by the default. */
  function ParseIsPaid(v: JsValue): (r: Result<bool, Issue>)
    ensures r.Success? <==> v.Undefined? || v.Bool?
    ensures v.Undefined? ==> r == Success(false)
    ensures v.Bool? ==> r == Success(v.b)
  {
    match v
    case Undefined => Success(false)
    case Bool(b) => Success(b)
    case _ => Failure(InvalidType)
  }

  /** `z.string().optional()`: `undefined` or a string; `null` is a wrong type. */
  function ParseOptionalString(v: JsValue): (r: Result<Option<string>, Issue>)
    ensures r.Success? <==> v.Undefined? || v.Str?
    ensures v.Undefined? ==> r == Success(None)
    ensures v.Str? ==> r == Success(Some(v.s))
  {
    match v
    case Undefined => Success(None)
    case Str(s) => Success(Some(s))
    case _ => Failure(InvalidType)
  }

  /** `z.string()`. */
  function ParseString(v: JsValue): (r: Result<string, Issue>)
    ensures r.Success? <==> v.Str?
    ensures r.Success? ==> r.value == v.s
  {
    match v
    case Str(s) => Success(s)
    case _ => Failure(InvalidType)
  }

  function IssueOf<T>(r: Result<T, Issue>): Option<Issue>
  {
    if r.Failure? then Some(r.error) else None
  }

  /** The issue zod reports for one key, if any. */
  function FieldIssue(input: SchemaInput, f: Field): Option<Issue>
  {
    match f
    case Description => IssueOf(ParseDescription(input.description))
    case Amount => IssueOf(ParseAmount(input.amount))
    case Type => IssueOf(ParseType(input.txType))
    case IsPaid => IssueOf(ParseIsPaid(input.isPaid))
    case Account => IssueOf(ParseOptionalString(input.account))
    case Card => IssueOf(ParseOptionalString(input.card))
    case Installments => IssueOf(ParseOptionalString(input.installments))
    case Month => IssueOf(ParseString(input.month))
    case UserId => IssueOf(ParseString(input.userId))
  }

  const AllFields: set<Field> := {Description, Amount, Type, IsPaid, Account, Card, Installments, Month, UserId}

  lemma AllFieldsListed()
    ensures forall f :: f in AllFields
  {
    forall f: Field ensures f in AllFields {
      match f
      case Description =>
      case Amount =>
      case Type =>
      case IsPaid =>
      case Account =>
      case Card =>
      case Installments =>
      case Month =>
      case UserId =>
    }
  }

  /** `error.flatten().fieldErrors`: every failing key with its issue (zod checks all keys). */
  function FieldErrors(input: SchemaInput): (errors: map<Field, Issue>)
    ensures forall f :: f in errors <==> FieldIssue(input, f).Some?
    ensures forall f :: f in errors ==> errors[f] == FieldIssue(input, f).value
  {
    AllFieldsListed();
    map f | f in AllFields && FieldIssue(input, f).Some? :: FieldIssue(input, f).value
  }

  predicate AllFieldsPass(input: SchemaInput)
  {
    && ParseDescription(input.description).Success?
    && ParseAmount(input.amount).Success?
    && ParseType(input.txType).Success?
    && ParseIsPaid(input.isPaid).Success?
    && ParseOptionalString(input.account).Success?
    && ParseOptionalString(input.card).Success?
    && ParseOptionalString(input.installments).Success?
    && ParseString(input.month).Success?
    && ParseString(input.userId).Success?
  }

  /** `TransactionSchema.safeParse(input)`. */
  function SafeParse(input: SchemaInput): (r: Result<TransactionData, map<Field, Issue>>)
    ensures r.Success? <==> forall f :: FieldIssue(input, f).None?
    ensures r.Failure? ==> r.error == FieldErrors(input) && r.error != map[]
    ensures r.Success? ==> ValidData(r.value)
  {
    if AllFieldsPass(input) then
      Success(TransactionData(
        ParseDescription(input.description).value,
        ParseAmount(input.amount).value,
        ParseType(input.txType).value,
        ParseIsPaid(input.isPaid).value,
        ParseOptionalString(input.account).value,
        ParseOptionalString(input.card).value,
        ParseOptionalString(input.installments).value,
        ParseString(input.month).value,
        ParseString(input.userId).value))
    else
      var errors := FieldErrors(input);
      assert !ParseDescription(input.description).Success? ==> Description in errors;
      assert !ParseAmount(input.amount).Success? ==> Amount in errors;
      assert !ParseType(input.txType).Success? ==> Type in errors;
      assert !ParseIsPaid(input.isPaid).Success? ==> IsPaid in errors;
      assert !ParseOptionalString(input.account).Success? ==> Account in errors;
      assert !ParseOptionalString(input.card).Success? ==> Card in errors;
      assert !ParseOptionalString(input.installments).Success? ==> Installments in errors;
      assert !ParseString(input.month).Success? ==> Month in errors;
      assert !ParseString(input.userId).Success? ==> UserId in errors;
      Failure(errors)
  }

  // ---------------------------------------------------------------------
  // Properties of the schema

  /** A success carries exactly the input's values, coerced as the field rules say. */
  lemma SafeParseKeepsValues(input: SchemaInput)
    requires SafeParse(input).Success?
    ensures var d := SafeParse(input).value;
      && input.description == Str(d.description)
      && ToNumber(input.amount) == Finite(d.amount)
      && input.txType == Str(TypeTag(d.txType))
      && (input.isPaid == Bool(d.isPaid) || (input.isPaid.Undefined? && !d.isPaid))
      && input.account == OptionalValue(d.account)
      && input.card == OptionalValue(d.card)
      && input.installments == OptionalValue(d.installments)
      && input.month == Str(d.month)
      && input.userId == Str(d.userId)
  {
    assert AllFieldsPass(input) by {
      assert FieldIssue(input, Description).None? && FieldIssue(input, Amount).None?;
      assert FieldIssue(input, Type).None? && FieldIssue(input, IsPaid).None?;
      assert FieldIssue(input, Account).None? && FieldIssue(input, Card).None?;
      assert FieldIssue(input, Installments).None?;
      assert FieldIssue(input, Month).None? && FieldIssue(input, UserId).None?;
    }
  }

  /** A key with an issue makes the whole parse fail and is reported with that issue. */
  lemma FailingFieldReported(input: SchemaInput, f: Field)
    requires FieldIssue(input, f).Some?
    ensures SafeParse(input).Failure?
    ensures f in SafeParse(input).error && SafeParse(input).error[f] == FieldIssue(input, f).value
  {
  }

  /** `null` under `month`, `userId` or an optional key fails that key with a type error. */
  lemma NullRejected(input: SchemaInput)
    ensures input.month == Null ==>
      var r := SafeParse(input); r.Failure? && Month in r.error && r.error[Month] == InvalidType
    ensures input.userId == Null ==>
      var r := SafeParse(input); r.Failure? && UserId in r.error && r.error[UserId] == InvalidType
    ensures input.account == Null ==>
      var r := SafeParse(input); r.Failure? && Account in r.error && r.error[Account] == InvalidType
    ensures input.card == Null ==>
      var r := SafeParse(input); r.Failure? && Card in r.error && r.error[Card] == InvalidType
    ensures input.installments == Null ==>
      var r := SafeParse(input); r.Failure? && Installments in r.error && r.error[Installments] == InvalidType
  {
    if input.month == Null { FailingFieldReported(input, Month); }
    if input.userId == Null { FailingFieldReported(input, UserId); }
    if input.account == Null { FailingFieldReported(input, Account); }
    if input.card == Null { FailingFieldReported(input, Card); }
    if input.installments == Null { FailingFieldReported(input, Installments); }
  }

  /** A description shorter than two UTF-16 code units is rejected with the schema's message. */
  lemma ShortDescriptionRejected(input: SchemaInput)
    requires input.description.Str? && Utf16Length(input.description.s) < 2
    ensures SafeParse(input).Failure?
    ensures SafeParse(input).error[Description] == TooSmall(DescriptionMessage)
  {
    assert FieldIssue(input, Description).Some?;
  }

  /**
   * One character above U+FFFF is two UTF-16 code units, so it meets the
   * minimum length although it is a single character.
   */
  lemma AstralCharacterDescriptionAccepted(c: char)
    requires c as int > 0xFFFF
    ensures ParseDescription(Str([c])) == Success([c])
  {
    assert [c][1..] == [];
  }

  /** An amount that coerces to NaN, zero or a negative number is rejected; only `> 0` passes. */
  lemma NonPositiveAmountRejected(input: SchemaInput)
    requires ToNumber(input.amount).NaN? || ToNumber(input.amount).value <= 0.0
    ensures SafeParse(input).Failure? && Amount in SafeParse(input).error
    ensures ToNumber(input.amount).Finite? ==> SafeParse(input).error[Amount] == TooSmall(AmountMessage)
  {
    assert FieldIssue(input, Amount).Some?;
  }

  /** The type is accepted iff it is one of the two tags; `"expense"` and `"income"` are not. */
  lemma TypeTagsOnly(input: SchemaInput)
    ensures SafeParse(input).Success? ==> input.txType == Str("receita") || input.txType == Str("despesa")
    ensures input.txType == Str("expense") || input.txType == Str("income") ==>
      SafeParse(input).Failure? && SafeParse(input).error[Type] == InvalidEnumValue
  {
    assert FieldIssue(input, Type) == IssueOf(ParseType(input.txType));
  }

  /** An absent `isPaid` becomes `false`. */
  lemma IsPaidDefaultsToFalse(input: SchemaInput)
    requires SafeParse(input).Success? && input.isPaid.Undefined?
    ensures !SafeParse(input).value.isPaid
  {
    SafeParseKeepsValues(input);
  }

  /**
   * `account`, `card` and `installments` may be absent (undefined) but not
   * null; `month` and `userId` must be strings.
   */
  lemma PresenceRules(input: SchemaInput)
    ensures FieldIssue(input, Account).None? <==> input.account.Undefined? || input.account.Str?
    ensures FieldIssue(input, Card).None? <==> input.card.Undefined? || input.card.Str?
    ensures FieldIssue(input, Installments).None? <==> input.installments.Undefined? || input.installments.Str?
    ensures FieldIssue(input, Month).None? <==> input.month.Str?
    ensures FieldIssue(input, UserId).None? <==> input.userId.Str?
    ensures input.account.Undefined? && SafeParse(input).Success? ==> SafeParse(input).value.account == None
  {
    if input.account.Undefined? && SafeParse(input).Success? {
      assert FieldIssue(input, Description).None? && FieldIssue(input, Amount).None?;
      assert FieldIssue(input, Type).None? && FieldIssue(input, IsPaid).None?;
      assert FieldIssue(input, Account).None? && FieldIssue(input, Card).None?;
      assert FieldIssue(input, Installments).None?;
      assert FieldIssue(input, Month).None? && FieldIssue(input, UserId).None?;
    }
  }
}
