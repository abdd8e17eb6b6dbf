/** `TransactionUseCases` (src/domain/usecases/TransactionUseCases.ts): the
  * business rules checked before a transaction operation reaches the
  * repository. Each use case answers either the repository call it makes,
  * or the message of the `Error` it throws before making one. */
module TransactionUseCases {
  import opened Wrappers
  import opened Entities
  import Text
  import JsValues
  import Validation
  import Dates

  const AMOUNT_NOT_POSITIVE: string := "O valor da transação deve ser maior que zero"
  const DESCRIPTION_REQUIRED: string := "A descrição é obrigatória"
  const CATEGORY_REQUIRED: string := "A categoria é obrigatória"
  const DATE_REQUIRED: string := "A data é obrigatória"
  const DESCRIPTION_EMPTY: string := "A descrição não pode estar vazia"
  const TRANSACTION_ID_REQUIRED: string := "ID da transação é obrigatório"
  const FILE_REQUIRED: string := "Arquivo é obrigatório"
  const USER_ID_REQUIRED: string := "ID do usuário é obrigatório"

  /** A call on `ITransactionRepository`, with its arguments. The paging
    * cursor and the receipt file are opaque values the use cases only pass
    * on or test for truthiness. */
  datatype RepositoryCall =
    | FetchTransactions(userId: string, filters: Option<TransactionFilters>, pageSize: Option<int>, lastDoc: JsValues.Value)
    | FetchTransaction(id: string)
    | StoreTransaction(transaction: TransactionFormData, userId: string)
    | ChangeTransaction(id: string, patch: TransactionPatch)
    | RemoveTransaction(id: string)
    | StoreReceipt(file: JsValues.Value, transactionId: string)
    | FetchCategories(userId: string)

  /** `getTransactions(userId, filters?, pageSize?, lastDoc?)`: no rule. */
  function GetTransactions(userId: string, filters: Option<TransactionFilters>, pageSize: Option<int>, lastDoc: JsValues.Value): (r: Result<RepositoryCall>)
    ensures r.Ok?
    ensures r.value.FetchTransactions? && r.value.userId == userId && r.value.filters == filters
    ensures r.value.pageSize == pageSize && r.value.lastDoc == lastDoc
  {
    Ok(FetchTransactions(userId, filters, pageSize, lastDoc))
  }

  /** `getTransactionById(id)`: no rule, not even a non-empty id. */
  function GetTransactionById(id: string): (r: Result<RepositoryCall>)
    ensures r.Ok? && r.value.FetchTransaction? && r.value.id == id
  {
    Ok(FetchTransaction(id))
  }

  /** `createTransaction(transaction, userId)`: the amount, the description,
    * the category and the date are checked in this order; the first that
    * fails decides the message. */
  function CreateTransaction(transaction: TransactionFormData, userId: string): (r: Result<RepositoryCall>)
    ensures transaction.amount <= 0 ==> r == Err(AMOUNT_NOT_POSITIVE)
    ensures transaction.amount > 0 && Text.AllWhite(transaction.description) ==> r == Err(DESCRIPTION_REQUIRED)
    ensures transaction.amount > 0 && !Text.AllWhite(transaction.description) && transaction.category == "" ==>
      r == Err(CATEGORY_REQUIRED)
    ensures (transaction.amount > 0 && !Text.AllWhite(transaction.description) && transaction.category != "" &&
             transaction.date == "") ==> r == Err(DATE_REQUIRED)
    ensures r.Ok? <==>
      transaction.amount > 0 && !Text.AllWhite(transaction.description) && transaction.category != "" && transaction.date != ""
    ensures r.Ok? ==> r.value == StoreTransaction(transaction, userId)
  {
    if transaction.amount <= 0 then Err(AMOUNT_NOT_POSITIVE)
    else if Text.Blank(transaction.description) then Err(DESCRIPTION_REQUIRED)
    else if transaction.category == "" then Err(CATEGORY_REQUIRED)
    else if transaction.date == "" then Err(DATE_REQUIRED)
    else Ok(StoreTransaction(transaction, userId))
  }

  /** `updateTransaction(id, transaction)`: only the amount and the
    * description are checked, and each only when present. */
  function UpdateTransaction(id: string, patch: TransactionPatch): (r: Result<RepositoryCall>)
    ensures patch.amount.Some? && patch.amount.value <= 0 ==> r == Err(AMOUNT_NOT_POSITIVE)
    ensures (!(patch.amount.Some? && patch.amount.value <= 0) && patch.description.Some? &&
             Text.AllWhite(patch.description.value)) ==> r == Err(DESCRIPTION_EMPTY)
    ensures r.Ok? <==>
      (patch.amount.None? || patch.amount.value > 0) &&
      (patch.description.None? || !Text.AllWhite(patch.description.value))
    ensures r.Ok? ==> r.value == ChangeTransaction(id, patch)
  {
    if patch.amount.Some? && patch.amount.value <= 0 then Err(AMOUNT_NOT_POSITIVE)
    else if patch.description.Some? && Text.Blank(patch.description.value) then Err(DESCRIPTION_EMPTY)
    else Ok(ChangeTransaction(id, patch))
  }

  /** `deleteTransaction(id)` */
  function DeleteTransaction(id: string): (r: Result<RepositoryCall>)
    ensures r.Err? <==> id == ""
    ensures r.Err? ==> r.message == TRANSACTION_ID_REQUIRED
    ensures r.Ok? ==> r.value == RemoveTransaction(id)
  {
    if id == "" then Err(TRANSACTION_ID_REQUIRED) else Ok(RemoveTransaction(id))
  }

  /** `uploadReceipt(file, transactionId)`: a falsy file is reported before
    * a missing id. */
  function UploadReceipt(file: JsValues.Value, transactionId: string): (r: Result<RepositoryCall>)
    ensures !JsValues.Truthy(file) ==> r == Err(FILE_REQUIRED)
    ensures JsValues.Truthy(file) && transactionId == "" ==> r == Err(TRANSACTION_ID_REQUIRED)
    ensures r.Ok? <==> JsValues.Truthy(file) && transactionId != ""
    ensures r.Ok? ==> r.value == StoreReceipt(file, transactionId)
  {
    if !JsValues.Truthy(file) then Err(FILE_REQUIRED)
    else if transactionId == "" then Err(TRANSACTION_ID_REQUIRED)
    else Ok(StoreReceipt(file, transactionId))
  }

  /** `getCategories(userId)` */
  function GetCategories(userId: string): (r: Result<RepositoryCall>)
    ensures r.Err? <==> userId == ""
    ensures r.Err? ==> r.message == USER_ID_REQUIRED
    ensures r.Ok? ==> r.value == FetchCategories(userId)
  {
    if userId == "" then Err(USER_ID_REQUIRED) else Ok(FetchCategories(userId))
  }

  /** The patch writing every checked field of a form. */
  function FullPatch(t: TransactionFormData): (p: TransactionPatch)
    ensures p.amount == Some(t.amount) && p.description == Some(t.description)
  {
    TransactionPatch(Some(t.description), Some(t.amount), Some(t.kind), Some(t.category), Some(t.date))
  }

  /** A form the creation rules accept is also accepted as a whole-record
    * update, under any id. */
  lemma {:induction false} CreatableIsUpdatable(t: TransactionFormData, userId: string, id: string)
    requires CreateTransaction(t, userId).Ok?
    ensures UpdateTransaction(id, FullPatch(t)) == Ok(ChangeTransaction(id, FullPatch(t)))
  {
  }

  /** The converse fails: an update may clear the category and the date,
    * which creation refuses. */
  lemma UpdateMayClearCategory()
    ensures var p := TransactionPatch(None, None, None, Some(""), Some(""));
      UpdateTransaction("t1", p).Ok? &&
      CreateTransaction(TransactionFormData("Mercado", 100, INCOME, "", "", None, [], None), "u1") == Err(CATEGORY_REQUIRED)
  {
  }

  /** Leaving a field out of a patch never makes an accepted update fail,
    * and the fields that are not checked never decide anything. */
  lemma {:induction false} AbsentFieldsPass(id: string, p: TransactionPatch, kind: Option<string>, category: Option<string>, date: Option<string>)
    ensures UpdateTransaction(id, TransactionPatch(None, None, kind, category, date)).Ok?
    ensures UpdateTransaction(id, p).Ok? ==> UpdateTransaction(id, p.(amount := None)).Ok?
    ensures UpdateTransaction(id, p).Ok? ==> UpdateTransaction(id, p.(description := None)).Ok?
    ensures UpdateTransaction(id, p).Ok? ==
      UpdateTransaction(id, p.(kind := kind, category := category, date := date)).Ok?
  {
  }

  /** A form that passes the screen's field validators (src/constants/validation.ts)
    * for amount, description, category and date is accepted by the use
    * case. */
  lemma {:induction false} ValidatedFormCreatable(t: TransactionFormData, userId: string, categories: seq<string>, now: Dates.Instant)
    requires Dates.ValidInstant(now)
    requires Validation.ValidateAmount(t.amount as real) == None
    requires Validation.ValidateDescription(t.description) == None
    requires Validation.ValidateCategory(t.category, categories) == None
    requires Validation.ValidateDate(t.date, now) == None
    ensures CreateTransaction(t, userId) == Ok(StoreTransaction(t, userId))
  {
    assert Dates.Parse("") == None;
  }
}
