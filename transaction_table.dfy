/**
 * The transaction table: the empty state, one decorated row per record, and
 * the toast the delete button shows for the delete action's message.
 */
module TransactionTable {
  import opened Wrappers
  import opened Js
  import opened Types
  import opened Toasts
  import Actions

  /** `transaction.card && ...`: an absent or empty label shows no badge. */
  function Badge(text: Option<string>): (b: Option<string>)
    ensures b.Some? <==> text.Some? && text.value != ""
    ensures b.Some? ==> b == text
  {
    if text.Some? && text.value != "" then text else None
  }

  /** One table row; `deleteId` is the hidden `transactionId` of its delete form. */
  datatype Row = Row(
    key: string,
    trendingUp: bool,
    description: string,
    sign: string,
    amount: real,
    status: string,
    cardBadge: Option<string>,
    accountBadge: Option<string>,
    deleteId: string)

  function RowOf(t: Transaction): (r: Row)
    ensures r.key == t.id && r.deleteId == t.id
    ensures r.description == t.description && r.amount == t.amount
    ensures r.sign == (if t.txType == Receita then "+" else "-")
    ensures r.trendingUp <==> t.txType == Receita
    ensures r.status == (if t.isPaid then "Pago" else "Pendente")
  {
    Row(
      t.id,
      t.txType == Receita,
      t.description,
      if t.txType == Receita then "+" else "-",
      t.amount,
      if t.isPaid then "Pago" else "Pendente",
      Badge(t.card),
      Badge(t.account),
      t.id)
  }

  datatype TableView = EmptyState | Rows(rows: seq<Row>)

  /** `TransactionTable`: the empty-state card, or the rows in input order. */
  function Table(ts: seq<Transaction>): (v: TableView)
    ensures v.EmptyState? <==> ts == []
    ensures v.Rows? ==> |v.rows| == |ts| && forall i :: 0 <= i < |ts| ==> v.rows[i] == RowOf(ts[i])
  {
    if |ts| == 0 then EmptyState
    else Rows(seq(|ts|, i requires 0 <= i < |ts| => RowOf(ts[i])))
  }

  /** Rows are keyed by the record ids, in the order of the list. */
  lemma RowKeysAreIds(ts: seq<Transaction>)
    requires ts != []
    ensures forall i :: 0 <= i < |ts| ==> Table(ts).rows[i].key == ts[i].id
  {
  }

  /** The badges appear exactly for non-empty labels and show those labels. */
  lemma BadgesShowLabels(t: Transaction)
    ensures RowOf(t).cardBadge.Some? <==> t.card.Some? && t.card.value != ""
    ensures RowOf(t).accountBadge.Some? <==> t.account.Some? && t.account.value != ""
    ensures RowOf(t).cardBadge.Some? ==> RowOf(t).cardBadge.value == t.card.value
    ensures RowOf(t).accountBadge.Some? ==> RowOf(t).accountBadge.value == t.account.value
  {
  }

  // ---------------------------------------------------------------------
  // DeleteButton's toast

  /** The effect on `state.message`: no toast for an empty message, else "Sucesso"/"Erro". */
  function DeleteToast(message: string): (toast: Option<Toast>)
    ensures toast.None? <==> message == ""
    ensures toast.Some? ==> toast.value.description == message
    ensures message != "" && Includes(message, "sucesso") ==> toast == Some(Toast("Sucesso", message, Plain))
    ensures message != "" && !Includes(message, "sucesso") ==> toast == Some(Toast("Erro", message, Destructive))
  {
    if message == "" then None
    else if Includes(message, "sucesso") then Some(Toast("Sucesso", message, Plain))
    else Some(Toast("Erro", message, Destructive))
  }

  /** A string in which no `u` has an `e` two places after it does not include "sucesso". */
  lemma NoSucesso(s: string)
    requires forall j :: 0 <= j < |s| - 2 && s[j] == 'u' ==> s[j + 2] != 'e'
    ensures !Includes(s, "sucesso")
  {
    forall i | 0 <= i <= |s| - 7 ensures !IsPrefix("sucesso", s[i..]) {
      assert s[i + 1] != 'u' || s[i + 3] != 'e';
      assert s[i..][1] == s[i + 1] && s[i..][3] == s[i + 3];
    }
  }

  /**
   * None of the delete action's messages contains "sucesso", so every
   * delete result, the successful one included, is toasted as "Erro".
   */
  lemma EveryDeleteResultIsError(message: string)
    requires message == Actions.IdMissingMessage || message == Actions.DeletedMessage
          || message == Actions.DeleteFailedMessage
    ensures DeleteToast(message) == Some(Toast("Erro", message, Destructive))
  {
    assert forall j :: 0 <= j < |message| - 2 && message[j] == 'u' ==> message[j + 2] != 'e';
    NoSucesso(message);
  }

  /** The button's initial state `{ message: "" }` shows no toast. */
  lemma InitialStateShowsNothing()
    ensures DeleteToast("").None?
  {
  }
}
