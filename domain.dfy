/**
 * The records the client exchanges with the finance API: users, categories,
 * incomes, expenses, paginations, dashboard aggregates and the normalised
 * error every service throws. Only the fields the modelled code reads or
 * writes are kept.
 */
module Domain {
  import opened Wrappers

  /** Field name to list of messages, as the server's validation errors come. */
  type FieldErrors = map<string, seq<string>>

  /** The normalised error (`ApiError`) thrown by every service call. */
  datatype ApiError = ApiError(message: string, errors: Option<FieldErrors>, statusCode: int)

  datatype User = User(id: int, name: string, email: string, currency: string)

  /** A category; `kind` is the wire field `type` ('income' or 'expense'). */
  datatype Category = Category(id: int, name: string, kind: string, color: string, isActive: bool)

  datatype Income = Income(id: int, concept: string, amount: string, date: string,
                           description: Option<string>, categoryId: int)

  datatype Expense = Expense(id: int, description: string, amount: string, date: string,
                             notes: Option<string>, paymentMethod: string, categoryId: int)

  datatype Pagination = Pagination(page: int, limit: int, total: int, totalPages: int)

  /** A list endpoint's reply: one page of items and where it sits. */
  datatype Page<T> = Page(data: seq<T>, pagination: Pagination)

  /** Query filters handed to a list endpoint, by name. */
  type Filters = map<string, string>

  /** `DateRangeFilter`: an optional start and end date, each `YYYY-MM-DD`. */
  datatype DateRange = DateRange(startDate: Option<string>, endDate: Option<string>)

  datatype FinancialSummary = FinancialSummary(totalIncome: string, totalExpenses: string, balance: string)
  datatype CategoryBreakdown = CategoryBreakdown(topIncome: seq<int>, topExpense: seq<int>)
  datatype MonthlyTrends = MonthlyTrends(monthsCount: int, balances: seq<string>)
  datatype Transaction = Transaction(id: int, kind: string, description: string, amount: string, date: string)

  /** Everything `getDashboardData` fetches in one go. */
  datatype DashboardData = DashboardData(summary: FinancialSummary, breakdown: CategoryBreakdown,
                                         trends: MonthlyTrends, recentTransactions: seq<Transaction>)
}
