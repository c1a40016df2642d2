/**
 * The transactions store of src/store/transactionsStore.ts: the current page
 * of incomes and of expenses with their paginations, the loading flag and
 * error of the last action, and which tab the page shows. Each service reply
 * is a parameter of the action.
 */
module TransactionsStore {
  import opened Wrappers
  import opened Domain
  import opened Lists

  datatype Tab = IncomeTab | ExpenseTab

  function IncomeId(i: Income): int { i.id }
  function ExpenseId(e: Expense): int { e.id }

  class TransactionsStore {
    var incomes: seq<Income>
    var incomePagination: Option<Pagination>
    var expenses: seq<Expense>
    var expensePagination: Option<Pagination>
    var isLoading: bool
    var error: Option<ApiError>
    var activeTab: Tab

    /** The state the store starts in and returns to on `reset()`. */
    predicate Pristine()
      reads this
    {
      && incomes == [] && incomePagination.None? && expenses == [] && expensePagination.None?
      && !isLoading && error.None? && activeTab == ExpenseTab
    }

    constructor ()
      ensures Pristine()
    {
      incomes := [];
      incomePagination := None;
      expenses := [];
      expensePagination := None;
      isLoading := false;
      error := None;
      activeTab := ExpenseTab;
    }

    // ------------------------------------------------------------------ incomes

    /** `loadIncomes(filters)`: the fetched page and its pagination replace the old ones. */
    method LoadIncomes(reply: Result<Page<Income>, ApiError>) returns (thrown: Option<ApiError>)
      modifies this
      ensures reply.Ok? ==> thrown.None? && incomes == reply.value.data && incomePagination == Some(reply.value.pagination)
                            && !isLoading && error.None?
      ensures reply.Err? ==> thrown == Some(reply.error) && error == thrown && !isLoading
                             && incomes == old(incomes) && incomePagination == old(incomePagination)
      ensures expenses == old(expenses) && expensePagination == old(expensePagination) && activeTab == old(activeTab)
    {
      isLoading := true;
      error := None;
      if reply.Err? {
        isLoading := false;
        error := Some(reply.error);
        return Some(reply.error);
      }
      incomes := reply.value.data;
      incomePagination := Some(reply.value.pagination);
      isLoading := false;
      error := None;
      thrown := None;
    }

    /**
     * `createIncome(data)`: nothing is added locally; the list is fetched
     * again with no filters, and that reload's failure fails the action.
     */
    method CreateIncome(created: Result<Income, ApiError>, reload: Result<Page<Income>, ApiError>)
      returns (r: Result<Income, ApiError>)
      modifies this
      ensures created.Ok? && reload.Ok? ==>
        && r == created && incomes == reload.value.data && incomePagination == Some(reload.value.pagination)
        && !isLoading && error.None?
      ensures created.Err? ==> r == Err(created.error) && incomes == old(incomes) && incomePagination == old(incomePagination)
      ensures created.Ok? && reload.Err? ==> r == Err(reload.error) && incomes == old(incomes) && incomePagination == old(incomePagination)
      ensures r.Err? ==> error == Some(r.error) && !isLoading
      ensures expenses == old(expenses) && expensePagination == old(expensePagination) && activeTab == old(activeTab)
    {
      isLoading := true;
      error := None;
      if created.Err? {
        isLoading := false;
        error := Some(created.error);
        return Err(created.error);
      }
      var thrown := LoadIncomes(reload);
      if thrown.Some? {
        isLoading := false;
        error := thrown;
        return Err(thrown.value);
      }
      isLoading := false;
      error := None;
      r := created;
    }

    /** `updateIncome(id, data)`: the server's copy takes the place of every income with the id. */
    method UpdateIncome(id: int, reply: Result<Income, ApiError>) returns (r: Result<Income, ApiError>)
      modifies this
      ensures r == reply
      ensures reply.Ok? ==> incomes == ReplaceById(old(incomes), IncomeId, id, reply.value) && !isLoading && error.None?
      ensures reply.Err? ==> incomes == old(incomes) && error == Some(reply.error) && !isLoading
      ensures incomePagination == old(incomePagination)
      ensures expenses == old(expenses) && expensePagination == old(expensePagination) && activeTab == old(activeTab)
    {
      isLoading := true;
      error := None;
      if reply.Err? {
        isLoading := false;
        error := Some(reply.error);
        return reply;
      }
      incomes := ReplaceById(incomes, IncomeId, id, reply.value);
      isLoading := false;
      error := None;
      r := reply;
    }

    /** `deleteIncome(id)`: every income with the id goes once the server confirms. */
    method DeleteIncome(id: int, reply: Result<(), ApiError>) returns (thrown: Option<ApiError>)
      modifies this
      ensures reply.Ok? ==> thrown.None? && incomes == RemoveById(old(incomes), IncomeId, id) && !isLoading && error.None?
      ensures reply.Err? ==> thrown == Some(reply.error) && error == thrown && incomes == old(incomes) && !isLoading
      ensures incomePagination == old(incomePagination)
      ensures expenses == old(expenses) && expensePagination == old(expensePagination) && activeTab == old(activeTab)
    {
      isLoading := true;
      error := None;
      if reply.Err? {
        isLoading := false;
        error := Some(reply.error);
        return Some(reply.error);
      }
      incomes := RemoveById(incomes, IncomeId, id);
      isLoading := false;
      error := None;
      thrown := None;
    }

    // ----------------------------------------------------------------- expenses

    /** `loadExpenses(filters)`: the fetched page and its pagination replace the old ones. */
    method LoadExpenses(reply: Result<Page<Expense>, ApiError>) returns (thrown: Option<ApiError>)
      modifies this
      ensures reply.Ok? ==> thrown.None? && expenses == reply.value.data && expensePagination == Some(reply.value.pagination)
                            && !isLoading && error.None?
      ensures reply.Err? ==> thrown == Some(reply.error) && error == thrown && !isLoading
                             && expenses == old(expenses) && expensePagination == old(expensePagination)
      ensures incomes == old(incomes) && incomePagination == old(incomePagination) && activeTab == old(activeTab)
    {
      isLoading := true;
      error := None;
      if reply.Err? {
        isLoading := false;
        error := Some(reply.error);
        return Some(reply.error);
      }
      expenses := reply.value.data;
      expensePagination := Some(reply.value.pagination);
      isLoading := false;
      error := None;
      thrown := None;
    }

    /** `createExpense(data)`: the list is fetched again with no filters. */
    method CreateExpense(created: Result<Expense, ApiError>, reload: Result<Page<Expense>, ApiError>)
      returns (r: Result<Expense, ApiError>)
      modifies this
      ensures created.Ok? && reload.Ok? ==>
        && r == created && expenses == reload.value.data && expensePagination == Some(reload.value.pagination)
        && !isLoading && error.None?
      ensures created.Err? ==> r == Err(created.error) && expenses == old(expenses) && expensePagination == old(expensePagination)
      ensures created.Ok? && reload.Err? ==> r == Err(reload.error) && expenses == old(expenses) && expensePagination == old(expensePagination)
      ensures r.Err? ==> error == Some(r.error) && !isLoading
      ensures incomes == old(incomes) && incomePagination == old(incomePagination) && activeTab == old(activeTab)
    {
      isLoading := true;
      error := None;
      if created.Err? {
        isLoading := false;
        error := Some(created.error);
        return Err(created.error);
      }
      var thrown := LoadExpenses(reload);
      if thrown.Some? {
        isLoading := false;
        error := thrown;
        return Err(thrown.value);
      }
      isLoading := false;
      error := None;
      r := created;
    }

    /** `updateExpense(id, data)`: the server's copy takes the place of every expense with the id. */
    method UpdateExpense(id: int, reply: Result<Expense, ApiError>) returns (r: Result<Expense, ApiError>)
      modifies this
      ensures r == reply
      ensures reply.Ok? ==> expenses == ReplaceById(old(expenses), ExpenseId, id, reply.value) && !isLoading && error.None?
      ensures reply.Err? ==> expenses == old(expenses) && error == Some(reply.error) && !isLoading
      ensures expensePagination == old(expensePagination)
      ensures incomes == old(incomes) && incomePagination == old(incomePagination) && activeTab == old(activeTab)
    {
      isLoading := true;
      error := None;
      if reply.Err? {
        isLoading := false;
        error := Some(reply.error);
        return reply;
      }
      expenses := ReplaceById(expenses, ExpenseId, id, reply.value);
      isLoading := false;
      error := None;
      r := reply;
    }

    /** `deleteExpense(id)`: every expense with the id goes once the server confirms. */
    method DeleteExpense(id: int, reply: Result<(), ApiError>) returns (thrown: Option<ApiError>)
      modifies this
      ensures reply.Ok? ==> thrown.None? && expenses == RemoveById(old(expenses), ExpenseId, id) && !isLoading && error.None?
      ensures reply.Err? ==> thrown == Some(reply.error) && error == thrown && expenses == old(expenses) && !isLoading
      ensures expensePagination == old(expensePagination)
      ensures incomes == old(incomes) && incomePagination == old(incomePagination) && activeTab == old(activeTab)
    {
      isLoading := true;
      error := None;
      if reply.Err? {
        isLoading := false;
        error := Some(reply.error);
        return Some(reply.error);
      }
      expenses := RemoveById(expenses, ExpenseId, id);
      isLoading := false;
      error := None;
      thrown := None;
    }

    // ------------------------------------------------------------------ general

    /** `setActiveTab(tab)`. */
    method SetActiveTab(tab: Tab)
      modifies this
      ensures activeTab == tab
      ensures incomes == old(incomes) && incomePagination == old(incomePagination)
      ensures expenses == old(expenses) && expensePagination == old(expensePagination)
      ensures isLoading == old(isLoading) && error == old(error)
    {
      activeTab := tab;
    }

    /** `clearError()`. */
    method ClearError()
      modifies this
      ensures error.None?
      ensures incomes == old(incomes) && incomePagination == old(incomePagination)
      ensures expenses == old(expenses) && expensePagination == old(expensePagination)
      ensures isLoading == old(isLoading) && activeTab == old(activeTab)
    {
      error := None;
    }

    /** `reset()`: back to the state the store was created in. */
    method Reset()
      modifies this
      ensures Pristine()
    {
      incomes := [];
      incomePagination := None;
      expenses := [];
      expensePagination := None;
      isLoading := false;
      error := None;
      activeTab := ExpenseTab;
    }
  }

  /**
   * After a load, editing an income and then deleting it removes it from the
   * list, leaves every other income where it was, and never touches the
   * expenses.
   */
  method EditThenDeleteIncome(page: Page<Income>, expensePage: Page<Expense>, edited: Income)
    returns (finalIncomes: seq<Income>, finalExpenses: seq<Expense>, failed: bool)
    ensures !failed
    ensures finalIncomes == RemoveById(page.data, IncomeId, edited.id)
    ensures finalExpenses == expensePage.data
  {
    var s := new TransactionsStore();
    var t1 := s.LoadIncomes(Ok(page));
    var t2 := s.LoadExpenses(Ok(expensePage));
    var r := s.UpdateIncome(edited.id, Ok(edited));
    var t3 := s.DeleteIncome(edited.id, Ok(()));
    RemoveAfterReplace(page.data, IncomeId, edited.id, edited);
    finalIncomes := s.incomes;
    finalExpenses := s.expenses;
    failed := t1.Some? || t2.Some? || r.Err? || t3.Some?;
  }

  /** Whatever the store went through, a reset puts it back exactly as a new store. */
  method ResetRestoresInitial(reply: Result<Page<Expense>, ApiError>, tab: Tab) returns (pristine: bool)
    ensures pristine
  {
    var s := new TransactionsStore();
    var t := s.LoadExpenses(reply);
    s.SetActiveTab(tab);
    s.Reset();
    pristine := s.Pristine();
  }
}
