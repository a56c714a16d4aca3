/**
 * The two server actions: `addTransactionAction` (parse `isPaid`, validate,
 * write, report) and `deleteTransactionAction` (short-circuit on a missing
 * id, delete, report), run against one abstract document store.
 */
module Actions {
  import opened Wrappers
  import opened Js
  import opened Types

  /** A `FormData`: its entries in the order they were appended. */
  type FormData = seq<(string, string)>

  /** `formData.get(key)`: the first value appended under `key`, or `null`. */
  function FormGet(fd: FormData, key: string): (v: JsValue)
    ensures v.Null? || v.Str?
    ensures v.Null? <==> forall i :: 0 <= i < |fd| ==> fd[i].0 != key
  {
    if fd == [] then Null
    else if fd[0].0 == key then Str(fd[0].1)
    else FormGet(fd[1..], key)
  }

  /** The value `FormGet` returns is the first one appended under the key. */
  lemma {:induction false} FormGetFirst(fd: FormData, key: string, i: nat)
    requires i < |fd| && fd[i].0 == key
    requires forall j :: 0 <= j < i ==> fd[j].0 != key
    ensures FormGet(fd, key) == Str(fd[i].1)
  {
    if i > 0 {
      FormGetFirst(fd[1..], key, i - 1);
    }
  }

  /** `isPaidValue === "true" || isPaidValue === "on"`. */
  predicate PaidFlag(v: JsValue)
  {
    v == Str("true") || v == Str("on")
  }

  /** The object `addTransactionAction` hands to `safeParse`. */
  function ActionInput(fd: FormData): SchemaInput
  {
    SchemaInput(
      FormGet(fd, "description"),
      Num(ToNumber(FormGet(fd, "amount"))),
      FormGet(fd, "type"),
      Bool(PaidFlag(FormGet(fd, "isPaid"))),
      FormGet(fd, "account"),
      FormGet(fd, "card"),
      FormGet(fd, "installments"),
      FormGet(fd, "month"),
      FormGet(fd, "userId"))
  }

  /**
   * What the action hands to `safeParse`: `amount` is a number, `isPaid` a
   * boolean, and every other key `null` or a string, never `undefined`.
   */
  lemma ActionInputShape(fd: FormData)
    ensures var input := ActionInput(fd);
      && input.amount.Num? && input.isPaid.Bool?
      && (input.description.Null? || input.description.Str?)
      && (input.txType.Null? || input.txType.Str?)
      && (input.account.Null? || input.account.Str?)
      && (input.card.Null? || input.card.Str?)
      && (input.installments.Null? || input.installments.Str?)
      && (input.month.Null? || input.month.Str?)
      && (input.userId.Null? || input.userId.Str?)
  {
  }

  const InvalidMessage: string := "Invalid form data."
  const AddedMessage: string := "Transaction added successfully."
  const AddFailedMessage: string := "Failed to add transaction."
  const IdMissingMessage: string := "Transaction ID is missing."
  const DeletedMessage: string := "Transaction deleted successfully."
  const DeleteFailedMessage: string := "Failed to delete transaction."

  /** What the store provider answers to one request. */
  datatype Outcome = Succeeded | Failed

  /** A request issued to the store, successful or not. */
  datatype Request = AddRequest(id: string) | DeleteRequest(id: string)

  /** The action's return value `{ message, errors }`. */
  datatype AddState = AddState(message: string, errors: map<Field, Issue>)

  /** The outcome of validation inside the add action, stated without the store. */
  function AddResponse(fd: FormData, outcome: Outcome): (r: AddState)
    ensures r.message == InvalidMessage <==> SafeParse(ActionInput(fd)).Failure?
    ensures r.message == InvalidMessage ==> r.errors == FieldErrors(ActionInput(fd)) && r.errors != map[]
    ensures r.message != InvalidMessage ==> r.errors == map[]
    ensures r.message == AddedMessage <==> SafeParse(ActionInput(fd)).Success? && outcome == Succeeded
    ensures r.message in {InvalidMessage, AddedMessage, AddFailedMessage}
  {
    var v := SafeParse(ActionInput(fd));
    if v.Failure? then AddState(InvalidMessage, v.error)
    else if outcome == Succeeded then AddState(AddedMessage, map[])
    else AddState(AddFailedMessage, map[])
  }

  /** The id the delete action reads: `formData.get("transactionId")`, if truthy. */
  function DeleteTarget(fd: FormData): (target: Option<string>)
    ensures target.Some? <==> FormGet(fd, "transactionId").Str? && FormGet(fd, "transactionId").s != ""
    ensures target.Some? ==> target.value == FormGet(fd, "transactionId").s
  {
    var v := FormGet(fd, "transactionId");
    if Truthy(v) then Some(v.s) else None
  }

  /** The message `deleteTransactionAction` returns. */
  function DeleteResponse(fd: FormData, outcome: Outcome): (message: string)
    ensures DeleteTarget(fd).None? <==> message == IdMissingMessage
    ensures message == DeletedMessage <==> DeleteTarget(fd).Some? && outcome == Succeeded
    ensures message in {IdMissingMessage, DeletedMessage, DeleteFailedMessage}
  {
    if DeleteTarget(fd).None? then IdMissingMessage
    else if outcome == Succeeded then DeletedMessage
    else DeleteFailedMessage
  }

  /**
   * The hosted collection `transactions`: documents by id, and the log of
   * requests issued against it.
   */
  class TransactionStore {
    var docs: map<string, StoredDoc>
    var requests: seq<Request>

    constructor ()
      ensures docs == map[] && requests == []
    {
      docs := map[];
      requests := [];
    }

    /**
     * `addTransactionAction`. The store chooses `newId` (not yet in use) and
     * the server timestamp `now`; `outcome` is the provider's answer.
     */
    method AddTransaction(fd: FormData, newId: string, now: int, outcome: Outcome) returns (state: AddState)
      requires newId !in docs
      modifies this
      ensures state == AddResponse(fd, outcome)
      ensures var v := SafeParse(ActionInput(fd));
        if v.Failure? then docs == old(docs) && requests == old(requests)
        else if outcome == Succeeded then
          docs == old(docs)[newId := StoredDoc(v.value, now)] && requests == old(requests) + [AddRequest(newId)]
        else docs == old(docs) && requests == old(requests) + [AddRequest(newId)]
    {
      var validated := SafeParse(ActionInput(fd));
      if validated.Failure? {
        return AddState(InvalidMessage, validated.error);
      }
      requests := requests + [AddRequest(newId)];
      if outcome == Failed {
        return AddState(AddFailedMessage, map[]);
      }
      docs := docs[newId := StoredDoc(validated.value, now)];
      return AddState(AddedMessage, map[]);
    }

    /**
     * `deleteTransactionAction`. No existence check is made: deleting an id
     * that is not stored succeeds and leaves the documents as they were.
     */
    method DeleteTransaction(fd: FormData, outcome: Outcome) returns (message: string)
      modifies this
      ensures message == DeleteResponse(fd, outcome)
      ensures match DeleteTarget(fd)
        case None => docs == old(docs) && requests == old(requests)
        case Some(id) =>
          && requests == old(requests) + [DeleteRequest(id)]
          && docs == if outcome == Succeeded then old(docs) - {id} else old(docs)
    {
      var transactionId := FormGet(fd, "transactionId");
      if !Truthy(transactionId) {
        return IdMissingMessage;
      }
      requests := requests + [DeleteRequest(transactionId.s)];
      if outcome == Failed {
        return DeleteFailedMessage;
      }
      docs := docs - {transactionId.s};
      return DeletedMessage;
    }
  }

  // ---------------------------------------------------------------------
  // Properties of the action's input

  /** `isPaid` is true iff the form holds exactly `"true"` or `"on"`; absent means false. */
  lemma IsPaidParse(fd: FormData)
    ensures ActionInput(fd).isPaid.Bool?
    ensures ActionInput(fd).isPaid.b <==> FormGet(fd, "isPaid") in {Str("true"), Str("on")}
    ensures (forall i :: 0 <= i < |fd| ==> fd[i].0 != "isPaid") ==> !ActionInput(fd).isPaid.b
  {
  }

  /** A form without an amount coerces `Number(null)` to 0, which the positive rule rejects. */
  lemma MissingAmountRejected(fd: FormData)
    requires forall i :: 0 <= i < |fd| ==> fd[i].0 != "amount"
    ensures var r := SafeParse(ActionInput(fd)); r.Failure? && Amount in r.error && r.error[Amount] == TooSmall(AmountMessage)
  {
    assert FormGet(fd, "amount") == Null;
    NonPositiveAmountRejected(ActionInput(fd));
  }

  /** A form without `month` is rejected: `formData.get` yields `null`, not a string. */
  lemma MissingMonthRejected(fd: FormData)
    requires FormGet(fd, "month").Null?
    ensures var r := SafeParse(ActionInput(fd)); r.Failure? && Month in r.error && r.error[Month] == InvalidType
  {
    var input := ActionInput(fd);
    assert input.month == Null;
    NullRejected(input);
  }

  /** A form without `userId` is rejected. */
  lemma MissingUserIdRejected(fd: FormData)
    requires FormGet(fd, "userId").Null?
    ensures var r := SafeParse(ActionInput(fd)); r.Failure? && UserId in r.error && r.error[UserId] == InvalidType
  {
    var input := ActionInput(fd);
    assert input.userId == Null;
    NullRejected(input);
  }

  /**
   * A form without `account` is rejected too: `formData.get` yields `null`,
   * and the optional rule admits only `undefined`.
   */
  lemma MissingAccountRejected(fd: FormData)
    requires FormGet(fd, "account").Null?
    ensures var r := SafeParse(ActionInput(fd)); r.Failure? && Account in r.error && r.error[Account] == InvalidType
  {
    var input := ActionInput(fd);
    assert input.account == Null;
    NullRejected(input);
  }

  /** A form without `card` is rejected in the same way. */
  lemma MissingCardRejected(fd: FormData)
    requires FormGet(fd, "card").Null?
    ensures var r := SafeParse(ActionInput(fd)); r.Failure? && Card in r.error && r.error[Card] == InvalidType
  {
    var input := ActionInput(fd);
    assert input.card == Null;
    NullRejected(input);
  }

  /** A form without `installments` is rejected in the same way. */
  lemma MissingInstallmentsRejected(fd: FormData)
    requires FormGet(fd, "installments").Null?
    ensures var r := SafeParse(ActionInput(fd));
      r.Failure? && Installments in r.error && r.error[Installments] == InvalidType
  {
    var input := ActionInput(fd);
    assert input.installments == Null;
    NullRejected(input);
  }
}
