/**
 * The categories store of src/store/categoriesStore.ts: the loaded
 * categories, the same list split by type, and the loading flag and error of
 * the last action. Each service reply is a parameter of the action.
 */
module CategoriesStore {
  import opened Wrappers
  import opened Domain
  import opened Lists

  predicate IsIncome(c: Category) { c.kind == "income" }
  predicate IsExpense(c: Category) { c.kind == "expense" }

  function CategoryId(c: Category): int { c.id }

  /** Both derived lists are the full list filtered by type. */
  ghost predicate SplitOf(categories: seq<Category>, incomes: seq<Category>, expenses: seq<Category>) {
    incomes == Filter(categories, IsIncome) && expenses == Filter(categories, IsExpense)
  }

  /** Appending a category extends the derived list of its own type and no other. */
  lemma SplitAfterAppend(categories: seq<Category>, c: Category)
    ensures Filter(categories + [c], IsIncome) == Filter(categories, IsIncome) + (if IsIncome(c) then [c] else [])
    ensures Filter(categories + [c], IsExpense) == Filter(categories, IsExpense) + (if IsExpense(c) then [c] else [])
  {
    FilterAppend(categories, [c], IsIncome);
    FilterAppend(categories, [c], IsExpense);
    assert [c][1..] == [];
  }

  /** The active income list followed by the active expense list splits back into the two lists, when each holds only its own type. */
  lemma SplitOfConcatenation(incomes: seq<Category>, expenses: seq<Category>)
    requires forall c :: c in incomes ==> IsIncome(c)
    requires forall c :: c in expenses ==> IsExpense(c)
    ensures Filter(incomes + expenses, IsIncome) == incomes
    ensures Filter(incomes + expenses, IsExpense) == expenses
  {
    FilterAppend(incomes, expenses, IsIncome);
    FilterAppend(incomes, expenses, IsExpense);
    FilterUniform(incomes, IsIncome);
    FilterUniform(incomes, IsExpense);
    FilterUniform(expenses, IsIncome);
    FilterUniform(expenses, IsExpense);
  }

  class CategoriesStore {
    var categories: seq<Category>
    var incomeCategories: seq<Category>
    var expenseCategories: seq<Category>
    var isLoading: bool
    var error: Option<ApiError>

    ghost predicate Split()
      reads this
    {
      SplitOf(categories, incomeCategories, expenseCategories)
    }

    constructor ()
      ensures categories == [] && incomeCategories == [] && expenseCategories == []
      ensures !isLoading && error.None? && Split()
    {
      categories := [];
      incomeCategories := [];
      expenseCategories := [];
      isLoading := false;
      error := None;
    }

    /** The success path shared by load, create, update and delete: a new full list and its split. */
    method Publish(next: seq<Category>)
      modifies this
      ensures categories == next && Split() && !isLoading && error.None?
    {
      categories := next;
      incomeCategories := Filter(next, IsIncome);
      expenseCategories := Filter(next, IsExpense);
      isLoading := false;
      error := None;
    }

    /** The failure path shared by every action: the lists stay, the error is recorded and rethrown. */
    method Fail(e: ApiError)
      modifies this
      ensures categories == old(categories) && incomeCategories == old(incomeCategories)
      ensures expenseCategories == old(expenseCategories)
      ensures !isLoading && error == Some(e)
    {
      isLoading := false;
      error := Some(e);
    }

    /** `loadCategories(filters)`: the fetched list replaces the old one. */
    method LoadCategories(reply: Result<seq<Category>, ApiError>) returns (thrown: Option<ApiError>)
      modifies this
      ensures reply.Ok? ==> thrown.None? && categories == reply.value && Split() && !isLoading && error.None?
      ensures reply.Err? ==> thrown == Some(reply.error) && error == thrown && !isLoading
      ensures reply.Err? ==> categories == old(categories) && incomeCategories == old(incomeCategories)
                             && expenseCategories == old(expenseCategories)
    {
      isLoading := true;
      error := None;
      if reply.Err? {
        Fail(reply.error);
        return Some(reply.error);
      }
      Publish(reply.value);
      thrown := None;
    }

    /**
     * `loadActiveCategories()`: the two lists are fetched separately and kept
     * as they came; the full list is their concatenation. The split is only
     * the filter of the full list when each endpoint returns its own type.
     */
    method LoadActiveCategories(incomeReply: Result<seq<Category>, ApiError>, expenseReply: Result<seq<Category>, ApiError>)
      returns (thrown: Option<ApiError>)
      modifies this
      ensures incomeReply.Ok? && expenseReply.Ok? ==>
        && thrown.None? && !isLoading && error.None?
        && incomeCategories == incomeReply.value && expenseCategories == expenseReply.value
        && categories == incomeReply.value + expenseReply.value
      ensures (&& incomeReply.Ok? && expenseReply.Ok?
               && (forall c :: c in incomeReply.value ==> IsIncome(c))
               && (forall c :: c in expenseReply.value ==> IsExpense(c))) ==> Split()
      ensures incomeReply.Err? ==> thrown == Some(incomeReply.error)
      ensures incomeReply.Ok? && expenseReply.Err? ==> thrown == Some(expenseReply.error)
      ensures thrown.Some? ==>
        && error == thrown && !isLoading
        && categories == old(categories) && incomeCategories == old(incomeCategories)
        && expenseCategories == old(expenseCategories)
    {
      isLoading := true;
      error := None;
      if incomeReply.Err? {
        Fail(incomeReply.error);
        return Some(incomeReply.error);
      }
      if expenseReply.Err? {
        Fail(expenseReply.error);
        return Some(expenseReply.error);
      }
      incomeCategories := incomeReply.value;
      expenseCategories := expenseReply.value;
      categories := incomeReply.value + expenseReply.value;
      isLoading := false;
      error := None;
      thrown := None;
      if (forall c :: c in incomeReply.value ==> IsIncome(c)) && (forall c :: c in expenseReply.value ==> IsExpense(c)) {
        SplitOfConcatenation(incomeReply.value, expenseReply.value);
      }
    }

    /** `createCategory(data)`: the created category goes at the end. */
    method CreateCategory(reply: Result<Category, ApiError>) returns (r: Result<Category, ApiError>)
      modifies this
      ensures r == reply
      ensures reply.Ok? ==> categories == old(categories) + [reply.value] && Split() && !isLoading && error.None?
      ensures reply.Err? ==> error == Some(reply.error) && !isLoading
      ensures reply.Err? ==> categories == old(categories) && incomeCategories == old(incomeCategories)
                             && expenseCategories == old(expenseCategories)
    {
      isLoading := true;
      error := None;
      if reply.Err? {
        Fail(reply.error);
        return reply;
      }
      Publish(categories + [reply.value]);
      r := reply;
    }

    /** `updateCategory(id, data)`: the server's copy takes the place of every entry with the id. */
    method UpdateCategory(id: int, reply: Result<Category, ApiError>) returns (r: Result<Category, ApiError>)
      modifies this
      ensures r == reply
      ensures reply.Ok? ==> categories == ReplaceById(old(categories), CategoryId, id, reply.value) && Split()
                            && !isLoading && error.None?
      ensures reply.Err? ==> error == Some(reply.error) && !isLoading
      ensures reply.Err? ==> categories == old(categories) && incomeCategories == old(incomeCategories)
                             && expenseCategories == old(expenseCategories)
    {
      isLoading := true;
      error := None;
      if reply.Err? {
        Fail(reply.error);
        return reply;
      }
      Publish(ReplaceById(categories, CategoryId, id, reply.value));
      r := reply;
    }

    /** `deleteCategory(id)`: every entry with the id goes once the server confirms. */
    method DeleteCategory(id: int, reply: Result<(), ApiError>) returns (thrown: Option<ApiError>)
      modifies this
      ensures reply.Ok? ==> thrown.None? && categories == RemoveById(old(categories), CategoryId, id) && Split()
                            && !isLoading && error.None?
      ensures reply.Err? ==> thrown == Some(reply.error) && error == thrown && !isLoading
      ensures reply.Err? ==> categories == old(categories) && incomeCategories == old(incomeCategories)
                             && expenseCategories == old(expenseCategories)
    {
      isLoading := true;
      error := None;
      if reply.Err? {
        Fail(reply.error);
        return Some(reply.error);
      }
      Publish(RemoveById(categories, CategoryId, id));
      thrown := None;
    }

    /** `clearError()`. */
    method ClearError()
      modifies this
      ensures error.None? && isLoading == old(isLoading)
      ensures categories == old(categories) && incomeCategories == old(incomeCategories)
      ensures expenseCategories == old(expenseCategories)
    {
      error := None;
    }

    /** `reset()`: back to the state the store was created in. */
    method Reset()
      modifies this
      ensures categories == [] && incomeCategories == [] && expenseCategories == []
      ensures !isLoading && error.None? && Split()
    {
      categories := [];
      incomeCategories := [];
      expenseCategories := [];
      isLoading := false;
      error := None;
    }
  }

  /** The three lists of the store at one moment. */
  datatype Snapshot = Snapshot(all: seq<Category>, incomes: seq<Category>, expenses: seq<Category>)

  /**
   * Creating a category and then deleting it by its id puts every list back
   * as it was, provided no loaded category had that id; in between, only the
   * derived list of the category's own type has grown.
   */
  method CreateThenDelete(loaded: seq<Category>, created: Category)
    returns (before: Snapshot, afterCreate: Snapshot, afterDelete: Snapshot)
    requires forall c :: c in loaded ==> c.id != created.id
    ensures before.all == loaded
    ensures afterCreate.all == before.all + [created]
    ensures afterCreate.incomes == before.incomes + (if IsIncome(created) then [created] else [])
    ensures afterCreate.expenses == before.expenses + (if IsExpense(created) then [created] else [])
    ensures afterDelete == before
  {
    var s := new CategoriesStore();
    var t := s.LoadCategories(Ok(loaded));
    before := Snapshot(s.categories, s.incomeCategories, s.expenseCategories);
    var r := s.CreateCategory(Ok(created));
    afterCreate := Snapshot(s.categories, s.incomeCategories, s.expenseCategories);
    SplitAfterAppend(loaded, created);
    var d := s.DeleteCategory(created.id, Ok(()));
    RemoveAppended(loaded, CategoryId, created);
    afterDelete := Snapshot(s.categories, s.incomeCategories, s.expenseCategories);
  }
}
