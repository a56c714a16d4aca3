/**
 * The add-transaction dialog: its default form values, the submit handler
 * that serialises the resolver's output into a `FormData`, the effect that
 * keeps `month`/`userId` in step with the props, and the effect that reacts
 * to the action's message.
 */
module AddTransactionDialog {
  import opened Wrappers
  import opened Js
  import opened Types
  import opened Toasts
  import Actions

  /**
   * `defaultValues` of the form. The type defaults to `"expense"`, one of
   * the dialog's own choices `"expense"`/`"income"`, neither of which the
   * schema's enum accepts.
   */
  function DefaultValues(month: string, uid: string): (v: SchemaInput)
    ensures v.txType == Str("expense") && v.amount == Num(Finite(0.0)) && v.description == Str("")
    ensures v.month == Str(month) && v.userId == Str(uid)
  {
    SchemaInput(Str(""), Num(Finite(0.0)), Str("expense"), Bool(false), Str(""), Str(""), Str(""),
                Str(month), Str(uid))
  }

  /** The keys of the schema, in declaration order. */
  const Keys: seq<string> :=
    ["description", "amount", "type", "isPaid", "account", "card", "installments", "month", "userId"]

  lemma KeysDistinct()
    ensures forall i, j :: 0 <= i < j < |Keys| ==> Keys[i] != Keys[j]
  {
    forall i, j | 0 <= i < j < |Keys| ensures Keys[i] != Keys[j] {
      assert |Keys[i]| != |Keys[j]| || Keys[i][0] != Keys[j][0];
    }
  }

  /** `Object.entries(data)` of the resolver's output, keys in schema order. */
  function Entries(d: TransactionData): (es: seq<(string, JsValue)>)
    ensures |es| == |Keys| && forall i :: 0 <= i < |Keys| ==> es[i].0 == Keys[i]
  {
    [("description", Str(d.description)),
     ("amount", Num(Finite(d.amount))),
     ("type", Str(TypeTag(d.txType))),
     ("isPaid", Bool(d.isPaid)),
     ("account", OptionalValue(d.account)),
     ("card", OptionalValue(d.card)),
     ("installments", OptionalValue(d.installments)),
     ("month", Str(d.month)),
     ("userId", Str(d.userId))]
  }

  /** The form data that appending `String(value)` under each key yields. */
  function Appended(es: seq<(string, JsValue)>, numberText: real -> string): (fd: Actions.FormData)
    ensures |fd| == |es|
    ensures forall i :: 0 <= i < |es| ==> fd[i] == (es[i].0, ToText(es[i].1, numberText))
  {
    seq(|es|, i requires 0 <= i < |es| => (es[i].0, ToText(es[i].1, numberText)))
  }

  /** `entries.forEach(([key, value]) => formData.append(key, String(value)))`. */
  method BuildFormData(es: seq<(string, JsValue)>, numberText: real -> string) returns (fd: Actions.FormData)
    ensures |fd| == |es|
    ensures forall i :: 0 <= i < |es| ==> fd[i].0 == es[i].0 && fd[i].1 == ToText(es[i].1, numberText)
  {
    fd := [];
    var i := 0;
    while i < |es|
      invariant 0 <= i <= |es|
      invariant fd == Appended(es[..i], numberText)
    {
      fd := fd + [(es[i].0, ToText(es[i].1, numberText))];
      i := i + 1;
    }
    assert es[..i] == es;
  }

  /**
   * `form.handleSubmit(...)`: the resolver validates the form values with
   * the schema; only its output reaches the handler, which serialises it.
   */
  method HandleFormSubmit(values: SchemaInput, numberText: real -> string) returns (submitted: Option<Actions.FormData>)
    ensures submitted.None? <==> SafeParse(values).Failure?
    ensures submitted.Some? ==> submitted.value == Appended(Entries(SafeParse(values).value), numberText)
  {
    var validated := SafeParse(values);
    if validated.Failure? {
      return None;
    }
    var fd := BuildFormData(Entries(validated.value), numberText);
    assert fd == Appended(Entries(validated.value), numberText);
    return Some(fd);
  }

  // ---------------------------------------------------------------------
  // Properties of the submission

  /** The form's defaults fail the resolver on the description, the amount and the type. */
  lemma DefaultFormRejected(month: string, uid: string)
    ensures SafeParse(DefaultValues(month, uid)) == Failure(map[
      Description := TooSmall(DescriptionMessage),
      Amount := TooSmall(AmountMessage),
      Type := InvalidEnumValue])
  {
    var v := DefaultValues(month, uid);
    var m := map[Description := TooSmall(DescriptionMessage), Amount := TooSmall(AmountMessage),
                 Type := InvalidEnumValue];
    assert FieldIssue(v, Description).Some?;
    assert SafeParse(v).Failure?;
    var errors := SafeParse(v).error;
    forall f ensures f in errors <==> f in m {
      match f
      case Description =>
      case Amount =>
      case Type =>
      case IsPaid =>
      case Account =>
      case Card =>
      case Installments =>
      case Month =>
      case UserId =>
    }
    assert errors[Description] == m[Description];
    assert errors[Amount] == m[Amount];
    assert errors[Type] == m[Type];
    assert errors == m;
  }

  /**
   * A type chosen among the dialog's options, `"expense"` or `"income"`,
   * fails the resolver, so the handler never runs and nothing is submitted.
   */
  lemma DialogTypeChoicesRejected(values: SchemaInput)
    requires values.txType == Str("expense") || values.txType == Str("income")
    ensures SafeParse(values).Failure? && SafeParse(values).error[Type] == InvalidEnumValue
  {
    TypeTagsOnly(values);
  }

  /**
   * What the action reads back for an optional field: its key is always
   * appended, so a field whose value is undefined arrives as the text `"undefined"`.
   */
  function ReadBack(o: Option<string>): (r: Option<string>)
    ensures r.Some?
    ensures o.Some? ==> r == o
  {
    if o.None? then Some("undefined") else o
  }

  /** The first value under each key of the serialised data is that key's own value. */
  lemma {:induction false} FormGetAppended(es: seq<(string, JsValue)>, numberText: real -> string, i: nat)
    requires i < |es|
    requires forall j :: 0 <= j < i ==> es[j].0 != es[i].0
    ensures Actions.FormGet(Appended(es, numberText), es[i].0) == Str(ToText(es[i].1, numberText))
  {
    Actions.FormGetFirst(Appended(es, numberText), es[i].0, i);
  }

  /** In serialised data, the description and the type read back as their texts. */
  lemma SerialisedTexts(d: TransactionData, numberText: real -> string)
    ensures Actions.FormGet(Appended(Entries(d), numberText), "description") == Str(d.description)
    ensures Actions.FormGet(Appended(Entries(d), numberText), "type") == Str(TypeTag(d.txType))
  {
    var es := Entries(d);
    KeysDistinct();
    assert es[0].0 == "description";
    FormGetAppended(es, numberText, 0);
    assert es[2].0 == "type";
    FormGetAppended(es, numberText, 2);
  }

  /** In serialised data, the amount and `isPaid` read back as their printed values. */
  lemma SerialisedFlags(d: TransactionData, numberText: real -> string)
    ensures Actions.FormGet(Appended(Entries(d), numberText), "amount") == Str(numberText(d.amount))
    ensures Actions.FormGet(Appended(Entries(d), numberText), "isPaid") == Str(if d.isPaid then "true" else "false")
  {
    var es := Entries(d);
    KeysDistinct();
    assert es[1].0 == "amount";
    FormGetAppended(es, numberText, 1);
    assert es[3].0 == "isPaid";
    FormGetAppended(es, numberText, 3);
  }

  /** In serialised data, the month and the user id read back unchanged. */
  lemma SerialisedScope(d: TransactionData, numberText: real -> string)
    ensures Actions.FormGet(Appended(Entries(d), numberText), "month") == Str(d.month)
    ensures Actions.FormGet(Appended(Entries(d), numberText), "userId") == Str(d.userId)
  {
    var es := Entries(d);
    KeysDistinct();
    assert es[7].0 == "month";
    FormGetAppended(es, numberText, 7);
    assert es[8].0 == "userId";
    FormGetAppended(es, numberText, 8);
  }

  /** In serialised data, the optional fields read back as their own texts. */
  lemma SerialisedOptionals(d: TransactionData, numberText: real -> string)
    ensures Actions.FormGet(Appended(Entries(d), numberText), "account") == Str(ReadBack(d.account).value)
    ensures Actions.FormGet(Appended(Entries(d), numberText), "card") == Str(ReadBack(d.card).value)
    ensures Actions.FormGet(Appended(Entries(d), numberText), "installments") == Str(ReadBack(d.installments).value)
  {
    var es := Entries(d);
    KeysDistinct();
    assert es[4].0 == "account";
    FormGetAppended(es, numberText, 4);
    assert es[5].0 == "card";
    FormGetAppended(es, numberText, 5);
    assert es[6].0 == "installments";
    FormGetAppended(es, numberText, 6);
  }

  /** The object the action builds from serialised data: every key reads its own value. */
  lemma SerialisedFields(d: TransactionData, numberText: real -> string)
    ensures Actions.ActionInput(Appended(Entries(d), numberText)) ==
      SchemaInput(Str(d.description), Num(ToNumber(Str(numberText(d.amount)))), Str(TypeTag(d.txType)),
                  Bool(d.isPaid), Str(ReadBack(d.account).value), Str(ReadBack(d.card).value),
                  Str(ReadBack(d.installments).value), Str(d.month), Str(d.userId))
  {
    SerialisedTexts(d, numberText);
    SerialisedFlags(d, numberText);
    SerialisedScope(d, numberText);
    SerialisedOptionals(d, numberText);
  }

  /** The same, once `Number` reads the printed amount back as the amount. */
  lemma SerialisedInput(d: TransactionData, numberText: real -> string)
    requires StringToNumber(numberText(d.amount)) == Finite(d.amount)
    ensures Actions.ActionInput(Appended(Entries(d), numberText)) == ResubmittedInput(d)
  {
    SerialisedFields(d, numberText);
  }

  /** The input the serialised data turns into; as `SerialisedInput` gives it. */
  function ResubmittedInput(d: TransactionData): SchemaInput
  {
    SchemaInput(Str(d.description), Num(Finite(d.amount)), Str(TypeTag(d.txType)), Bool(d.isPaid),
                Str(ReadBack(d.account).value), Str(ReadBack(d.card).value),
                Str(ReadBack(d.installments).value), Str(d.month), Str(d.userId))
  }

  /** The schema accepts that input and yields the record back, optionals whose value is undefined as `"undefined"`. */
  lemma ResubmittedParses(d: TransactionData)
    requires ValidData(d)
    ensures SafeParse(ResubmittedInput(d)) ==
      Success(d.(account := ReadBack(d.account), card := ReadBack(d.card),
                 installments := ReadBack(d.installments)))
  {
    var input := ResubmittedInput(d);
    assert ParseDescription(input.description) == Success(d.description);
    assert ParseAmount(input.amount) == Success(d.amount);
    assert ParseType(input.txType) == Success(d.txType);
    assert ParseIsPaid(input.isPaid) == Success(d.isPaid);
    assert ParseOptionalString(input.account) == Success(ReadBack(d.account));
    assert ParseOptionalString(input.card) == Success(ReadBack(d.card));
    assert ParseOptionalString(input.installments) == Success(ReadBack(d.installments));
    assert ParseString(input.month) == Success(d.month);
    assert ParseString(input.userId) == Success(d.userId);
    assert AllFieldsPass(input);
  }

  /**
   * Submitting validated data: the action parses back the same record, given
   * that `String(amount)` is read back by `Number` as the same amount. Present
   * optional fields come back unchanged; undefined ones as `"undefined"`.
   */
  lemma SubmitRoundTrip(d: TransactionData, numberText: real -> string)
    requires ValidData(d)
    requires StringToNumber(numberText(d.amount)) == Finite(d.amount)
    ensures SafeParse(Actions.ActionInput(Appended(Entries(d), numberText))) ==
      Success(d.(account := ReadBack(d.account), card := ReadBack(d.card),
                 installments := ReadBack(d.installments)))
  {
    SerialisedInput(d, numberText);
    ResubmittedParses(d);
  }

  /** With every optional field present, the action parses back exactly the submitted record. */
  lemma SubmitRoundTripExact(d: TransactionData, numberText: real -> string)
    requires ValidData(d) && d.account.Some? && d.card.Some? && d.installments.Some?
    requires StringToNumber(numberText(d.amount)) == Finite(d.amount)
    ensures SafeParse(Actions.ActionInput(Appended(Entries(d), numberText))) == Success(d)
  {
    SubmitRoundTrip(d, numberText);
  }

  /** A whole amount printed as its decimal digits is read back as itself. */
  lemma WholeAmountRoundTrip(d: TransactionData, numberText: real -> string, n: nat)
    requires ValidData(d) && d.amount == n as real && numberText(d.amount) == IntegerText(n)
    ensures SafeParse(Actions.ActionInput(Appended(Entries(d), numberText))).Success?
  {
    IntegerTextReadsBack(n);
    SubmitRoundTrip(d, numberText);
  }

  /** `String(isPaid)` read by the action's `"true"`/`"on"` rule gives back `isPaid`. */
  lemma IsPaidRoundTrip(b: bool)
    ensures Actions.PaidFlag(Str(ToText(Bool(b), x => ""))) == b
  {
  }

  // ---------------------------------------------------------------------
  // The reaction to the action's message

  datatype Reaction = CloseAndReset | ErrorToast | NoReaction

  /** The effect on `state.message`. */
  function ReactionTo(message: string): (r: Reaction)
    ensures r == CloseAndReset <==> message == Actions.AddedMessage
    ensures r == NoReaction <==> message == "" || message == Actions.InvalidMessage
  {
    if message == Actions.AddedMessage then CloseAndReset
    else if message != "" && message != Actions.InvalidMessage then ErrorToast
    else NoReaction
  }

  /**
   * Against the add action: the dialog closes iff the record was written,
   * stays silent iff validation failed, and shows an error iff the write failed.
   */
  lemma ReactionToAddResponse(fd: Actions.FormData, outcome: Actions.Outcome)
    ensures var r := ReactionTo(Actions.AddResponse(fd, outcome).message);
      && (r == CloseAndReset <==> SafeParse(Actions.ActionInput(fd)).Success? && outcome == Actions.Succeeded)
      && (r == NoReaction <==> SafeParse(Actions.ActionInput(fd)).Failure?)
      && (r == ErrorToast <==> SafeParse(Actions.ActionInput(fd)).Success? && outcome == Actions.Failed)
  {
  }

  /** The state of the dialog: open flag, form values, form defaults and the toasts shown. */
  class DialogState {
    var open: bool
    var values: SchemaInput
    var defaults: SchemaInput
    var toasts: seq<Toast>

    constructor (month: string, uid: string)
      ensures !open && values == DefaultValues(month, uid) && defaults == values && toasts == []
    {
      open := false;
      values := DefaultValues(month, uid);
      defaults := DefaultValues(month, uid);
      toasts := [];
    }

    /**
     * `form.reset({...form.getValues(), month, userId})` on a month or user
     * change. Resetting with values also makes them the new defaults.
     */
    method SyncScope(month: string, uid: string)
      modifies this
      ensures values == old(values).(month := Str(month), userId := Str(uid))
      ensures defaults == values
      ensures open == old(open) && toasts == old(toasts)
    {
      values := values.(month := Str(month), userId := Str(uid));
      defaults := values;
    }

    /** The effect on a new action state. */
    method OnActionState(message: string)
      modifies this
      ensures defaults == old(defaults)
      ensures match ReactionTo(message)
        case CloseAndReset =>
          && toasts == old(toasts) + [Toast("Success!", message, Plain)]
          && !open && values == defaults
        case ErrorToast =>
          && toasts == old(toasts) + [Toast("Error", message, Destructive)]
          && open == old(open) && values == old(values)
        case NoReaction =>
          toasts == old(toasts) && open == old(open) && values == old(values)
    {
      if message == Actions.AddedMessage {
        toasts := toasts + [Toast("Success!", message, Plain)];
        open := false;
        values := defaults;
      } else if message != "" && message != Actions.InvalidMessage {
        toasts := toasts + [Toast("Error", message, Destructive)];
      }
    }
  }

  /**
   * After a scope change the form carries the new month and user and keeps
   * every other field, and a later success resets it to those values.
   */
  method SyncThenAdded(d: DialogState, month: string, uid: string)
    modifies d
    ensures d.values == old(d.values).(month := Str(month), userId := Str(uid))
    ensures !d.open
  {
    d.SyncScope(month, uid);
    d.OnActionState(Actions.AddedMessage);
  }
}
