/** The records the application stores locally and in Firestore. */
module Entities {
  import opened Wrappers
  import opened Dates

  /** A money movement. `amount` is a whole number of the smallest currency
      unit; `timestamp` is the moment it was booked. */
  datatype Transaction = Transaction(
    id: string,
    amount: int,
    categoryId: string,
    timestamp: Date,
    description: Option<string>,
    userId: string)

  /** A category; `parentCategoryId` links it to its parent category. */
  datatype Category = Category(
    id: string,
    title: string,
    userId: string,
    color: Option<string>,
    icon: Option<string>,
    budget: Option<int>,
    parentCategoryId: Option<string>,
    excludeFromStat: Option<bool>,
    active: bool)

  /** The records `getCategoriesWithType` returns and the cache keeps. The
      fields that function derives are not part of this model, so a record
      is represented by the category it is derived from. */
  type CategoryWithType = Category

  /** The stored `frequency` string. Anything other than the three known
      names is kept as it is, since the processor has a branch for it. */
  datatype Frequency = Weekly | Monthly | Yearly | Unrecognised(name: string)

  /** A recurring expense definition. `id` is the Firestore document id. */
  datatype RecurringExpense = RecurringExpense(
    id: string,
    userId: string,
    amount: int,
    categoryId: string,
    description: Option<string>,
    frequency: Frequency,
    startDate: Date,
    nextOccurrence: Date,
    isActive: bool)

  datatype ReminderSchedule = OneDay | TwoDays | OneWeek | OneMonth

  /** A reminder. `dueTime` is its due moment in milliseconds since the Unix
      epoch; `createdAt`/`updatedAt` are ISO strings. */
  datatype Reminder = Reminder(
    id: string,
    name: string,
    dueTime: int,
    reminderSchedule: seq<ReminderSchedule>,
    userId: string,
    createdAt: string,
    updatedAt: string)

  /** Ids of the three built-in root categories: Expenses, Incomes, Investments. */
  const EXPENSES_ID: string := "533d4482-df54-47e5-b8d8-000000000001"
  const INCOMES_ID: string := "533d4482-df54-47e5-b8d8-000000000002"
  const INVESTMENTS_ID: string := "533d4482-df54-47e5-b8d8-000000000003"

  /** `BASE_CATEGORIES_ID`, in declaration order. */
  const BASE_CATEGORIES_ID: seq<string> := [EXPENSES_ID, INCOMES_ID, INVESTMENTS_ID]

  function DigitChar(d: int): (c: char)
    requires 0 <= d < 10
    ensures '0' <= c <= '9'
  {
    "0123456789"[d]
  }

  /** The decimal numeral of a natural number, without leading zeros. */
  function NatToString(n: nat): (s: string)
    ensures |s| >= 1
    ensures forall i :: 0 <= i < |s| ==> '0' <= s[i] <= '9'
    decreases n
  {
    if n < 10 then [DigitChar(n)] else NatToString(n / 10) + [DigitChar(n % 10)]
  }

  /** `String(n)` for an integer. */
  function IntToString(n: int): (s: string)
    ensures |s| >= 1
    ensures s[0] == '-' || '0' <= s[0] <= '9'
  {
    if n < 0 then "-" + NatToString(-n) else NatToString(n)
  }

  /** `new Date(t.timestamp).getFullYear().toString()`: the year key a
      transaction is filed under. */
  function YearKey(d: Date): string {
    IntToString(d.year)
  }

  /** The name of the token document of one year of transactions. */
  function TransactionsTokenName(year: string): string {
    "transactions_" + year
  }

  const CATEGORIES_TOKEN: string := "categories"
  const RECURRING_EXPENSES_TOKEN: string := "recurringTransactionToken"
  const REMINDERS_TOKEN: string := "remindersToken"
}
