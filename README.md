# Personal finance dashboard and number-guessing game: a Dafny model

This project models two small pieces of sequential logic from the repository:

- **The dashboard derivations** (`client/src/pages/Dashboard.js`). The dashboard page receives three query results, each of which may still be absent: the portfolio summary, the expense list and the active goals. From them it computes the total expenses, the zero-defaulted portfolio figures and the active-goal count. It then builds the five stat tiles, in which the sign of the profit/loss picks the P&L tile's icon and colour. It also builds two lists of at most five items, in source order, and computes a progress value for each listed goal. Module `Dashboard` (file `dashboard.dfy`) models all of this as pure functions and lemmas. Module `JsNumber` (file `js_number.dfy`) models the JavaScript number operations it uses: a number is a real, NaN or one of the two infinities.
- **The number-guessing game** (`eclipse-workspace/Game/src/com/game/No_Guessing2.java`). The class `Logic` holds a secret in [0, 100), the latest guess and a guess counter. `isCorrectNo` counts the guess, classifies it as equal, low or high, and answers true only on a match. `main` loops until that happens. Module `NumberGuessing` (file `guessing.dfy`) models `Logic` as a Dafny class with the same three fields and methods, and models `main` as a method with a `while` loop. Java's 32-bit `int` is a newtype `Int32`, and the counter's `++` wraps around as Java's does.

`parseFloat` applied to text is abstract. Every function that parses takes the parser as a parameter `parse: string -> Number`, which may return any number, NaN included. A JSON number parses back to itself. An absent field parses to NaN.

## Where the code departs from its evident intent

The dashboard evidently means to tolerate malformed numbers: an unparsable expense amount should count as 0, so that `12.50`, `not-a-number` and `7` total 19.5, and goal progress should stay within [0, 100], with 0 for a zero or malformed target. The code does not do this, and the model follows the code:

- The NaN from `parseFloat` makes the whole `reduce` NaN, and `|| 0` then turns the entire total into 0, so those three amounts total 0 (`TotalExpensesUnparsable`, `ExampleMixedAmounts`).
- Progress is only `Math.min(…, 100)`. A negative current amount gives a negative progress (`ProgressNoLowerClamp`). A zero target gives 100 for a positive current amount, NaN for 0 and -Infinity for a negative one (`ProgressZeroTarget`, `ExampleZeroTarget`). A malformed amount gives NaN.

## Model

| member | source | states |
|---|---|---|
| `JsNumber.Add` | client/src/pages/Dashboard.js:22 | `a + b` is NaN exactly when an operand is NaN or the two are opposite infinities; on two reals it is their real sum; otherwise it is the infinity that occurs |
| `JsNumber.Mul` | client/src/pages/Dashboard.js:124 | `a * b` is NaN exactly when an operand is NaN or an infinity meets 0; on reals it is the product; any other non-NaN product is the infinity whose sign is the product of the signs |
| `JsNumber.Div` | client/src/pages/Dashboard.js:124 | `a / b` is NaN exactly when an operand is NaN, both are 0 or both are infinite; a real over a non-zero real is the quotient; a real over an infinity is 0; a non-zero real over 0 is the infinity of its sign; an infinity over a real is an infinity, its sign flipped by a negative divisor |
| `JsNumber.Min` | client/src/pages/Dashboard.js:123-126 | `Math.min(a, b)` is NaN exactly when an argument is NaN; otherwise it is one of the two and neither is smaller than it |
| `JsNumber.Truthy` | client/src/pages/Dashboard.js:22-26 | NaN and 0 are falsy, every other real and both infinities are truthy (what the zero default tests) |
| `JsNumber.Less` | client/src/pages/Dashboard.js:123-126 | the comparison inside `Math.min`: false when either side is NaN; on reals the real order; -Infinity below and +Infinity above every other non-NaN number |
| `JsNumber.LessIsStrictTotalOrder` | client/src/pages/Dashboard.js:123-126 | without NaN that comparison is asymmetric, transitive and total |
| `JsNumber.AtLeast` | client/src/pages/Dashboard.js:44-45 | `a >= b` is false when either side is NaN; on reals the real order; `x >= 0` holds exactly for +Infinity and the non-negative reals |
| `Dashboard.ParseFloat` | client/src/pages/Dashboard.js:22 | `parseFloat` gives NaN for an absent field, a JSON number back unchanged, and text through the parser |
| `Dashboard.OrZero` | client/src/pages/Dashboard.js:23-25 | the zero default applied to a possibly undefined number is never NaN; it is 0 when `x` is undefined or falsy (0 or NaN) and `x` itself otherwise |
| `Dashboard.TotalExpenses` | client/src/pages/Dashboard.js:21-22 | the expense total is never NaN, and it is 0 when the expense list is absent or empty |
| `Dashboard.Reduce` | client/src/pages/Dashboard.js:22 | the left-to-right `reduce` of `+` is NaN once the start value or any term is NaN, and a real when the start value and every term are reals |
| `Dashboard.ReduceIsExtendedSum` | client/src/pages/Dashboard.js:22 | the left-to-right `reduce` from a start value equals an independent definition of the sum: NaN if a term is NaN or both infinities occur, else the infinity that occurs, else the real sum |
| `Dashboard.TotalExpensesAllParsed` | client/src/pages/Dashboard.js:22 | when every amount parses to a real number, the total is the sum of the parsed amounts |
| `Dashboard.TotalExpensesUnparsable` | client/src/pages/Dashboard.js:22 | a single amount that parses to NaN makes the whole total 0, not just that expense's share |
| `Dashboard.TotalExpensesCharacterised` | client/src/pages/Dashboard.js:21-22 | the total for a loaded list in every case: 0 if some amount is NaN or both infinities occur, the infinity if only one kind occurs, otherwise the real sum |
| `Dashboard.ActiveGoals` | client/src/pages/Dashboard.js:26 | the active-goal count is the length of the goal list, and 0 when the list is absent |
| `Dashboard.Aggregate` | client/src/pages/Dashboard.js:21-26 | the three portfolio figures are 0 when the portfolio is absent and otherwise the field or 0 when it is falsy; the total expenses and goal count are as above |
| `Dashboard.AggregateNeverNaN` | client/src/pages/Dashboard.js:21-26 | none of the four dollar figures is ever NaN, whatever the inputs |
| `Dashboard.Stats` | client/src/pages/Dashboard.js:28-59 | exactly five tiles in the fixed order Total Invested, Current Value, Total P&L, Total Expenses, Active Goals, each with its figure, icon and colour; the P&L tile is up/green iff the profit/loss is `>= 0` and down/red otherwise |
| `Dashboard.ProfitLossTileBySign` | client/src/pages/Dashboard.js:44-45 | because the profit/loss figure is never NaN, the P&L tile is up and green exactly when it is not negative and down and red exactly when it is negative |
| `Dashboard.FirstFive` | client/src/pages/Dashboard.js:96 | `slice(0, 5)` gives a prefix of the input of length min(length, 5) |
| `Dashboard.RecentExpenses` | client/src/pages/Dashboard.js:96-108 | the recent-expense list is absent exactly when the expenses are; it holds min(n, 5) rows for n expenses, and row i shows expense i with its parsed amount |
| `Dashboard.Progress` | client/src/pages/Dashboard.js:123-126 | goal progress is never above 100 and never +Infinity; it is NaN exactly when an amount is NaN, both are 0 or both are infinite; for a non-zero real target it is min(current/target*100, 100) |
| `Dashboard.ProgressZeroTarget` | client/src/pages/Dashboard.js:123-126 | with a zero target, progress is 100 for a positive current amount, NaN for 0 and -Infinity for a negative one |
| `Dashboard.ProgressNoLowerClamp` | client/src/pages/Dashboard.js:123-126 | with a negative current amount and a positive target, progress is a negative real |
| `Dashboard.ProgressReachedGoal` | client/src/pages/Dashboard.js:123-126 | once the current amount reaches a positive target, progress is exactly 100 |
| `Dashboard.GoalRows` | client/src/pages/Dashboard.js:122-126 | the goal list is absent exactly when the goals are; it holds min(n, 5) rows for n goals, and row i is goal i with its progress, which is never +Infinity |
| `Dashboard.Derive` | client/src/pages/Dashboard.js:21-59 | the dashboard is the five tiles built from the aggregated figures, the recent-expense rows and the goal rows, so it always has five tiles and lists of at most five rows |
| `Dashboard.NothingLoaded` | client/src/pages/Dashboard.js:21-59 | with all three query results absent, every tile shows 0, the P&L tile is green, and neither list is shown |
| `Dashboard.ExampleMixedAmounts` | client/src/pages/Dashboard.js:22 | amounts "12.50", "not-a-number" and 7 give a total of 0 |
| `Dashboard.ExampleLoss` | client/src/pages/Dashboard.js:41-46 | a profit/loss of -100 gives a P&L tile showing -100 with a downward icon in red |
| `Dashboard.ExampleZeroTarget` | client/src/pages/Dashboard.js:123-126 | a goal with current amount 300 and target 0 shows progress 100 |
| `NumberGuessing.Wrap` | eclipse-workspace/Game/src/com/game/No_Guessing2.java:10 | the Java `int` an unbounded count wraps to is the one congruent to it modulo 2^32, and a count within the `int` range is kept as it is |
| `NumberGuessing.Increment` | eclipse-workspace/Game/src/com/game/No_Guessing2.java:35 | `no_OfGuess++` is the wrapped successor of the counter |
| `NumberGuessing.IncrementCounts` | eclipse-workspace/Game/src/com/game/No_Guessing2.java:35 | incrementing the wrapped count n gives the wrapped count n + 1, so a counter started at 0 always holds the wrapped number of increments |
| `NumberGuessing.Classify` | eclipse-workspace/Game/src/com/game/No_Guessing2.java:36-45 | each guess is exactly one of equal (`==`), low (`<`) and high (`>`) |
| `NumberGuessing.Logic.constructor` | eclipse-workspace/Game/src/com/game/No_Guessing2.java:8-25 | a new game has its secret in [0, 100), a guess counter of 0 and a guess of 0 |
| `NumberGuessing.Logic.NoOfGuess` | eclipse-workspace/Game/src/com/game/No_Guessing2.java:11-14 | answers the guess counter |
| `NumberGuessing.Logic.GetNoOfGuess` | eclipse-workspace/Game/src/com/game/No_Guessing2.java:15-17 | answers the guess counter |
| `NumberGuessing.Logic.SetNoOfGuess` | eclipse-workspace/Game/src/com/game/No_Guessing2.java:18-20 | sets the guess counter to `n` and changes no other field |
| `NumberGuessing.Logic.TakeUserInput` | eclipse-workspace/Game/src/com/game/No_Guessing2.java:26-31 | stores the guess read and changes no other field |
| `NumberGuessing.Logic.IsCorrectNo` | eclipse-workspace/Game/src/com/game/No_Guessing2.java:33-49 | increases the counter by exactly one (wrapping) whatever the outcome, leaves the guess and the secret unchanged, reports the guess's classification, and answers true iff the guess equals the secret |
| `NumberGuessing.SetThenRead` | eclipse-workspace/Game/src/com/game/No_Guessing2.java:11-20 | after `setNo_OfGuess(n)`, both `noOfGuess()` and `getNo_OfGuess()` answer `n` |
| `NumberGuessing.FirstMatch` | eclipse-workspace/Game/src/com/game/No_Guessing2.java:54-61 | the position of the first guess equal to the secret (the length when none is): that guess matches and no earlier one does |
| `NumberGuessing.PlayGame` | eclipse-workspace/Game/src/com/game/No_Guessing2.java:53-62 | the game is won iff some input equals the secret; then the last guess read is the first matching one and equals the secret; otherwise every input was read; the counter is the wrapped number of guesses read, and each guess got its own classification |

## Left out

- Fetching the three query results (`useQuery` and the API calls at lines 17-19 of `Dashboard.js`): they are asynchronous network calls, so their results are inputs, each possibly absent.
- The JSX rendering, CSS classes, icon components and the Quick Actions buttons (lines 61-204): presentation only. Of each tile only the label, the icon and colour choice, and the underlying figure are kept.
- String formatting with `toLocaleString`, `toFixed(2)`, `Math.round` and `format` from date-fns (lines 31-55, 101, 106, 139, 145-148): library behaviour that depends on the locale. Rows keep the parsed number and the raw date text.
- `parseFloat` on text: left abstract as the parameter `parse`. Its lenient prefix parsing is not modelled.
- JavaScript numbers: IEEE-754 rounding, overflow to Infinity and signed zero are not modelled. Division by zero is always taken as division by +0, so a target of -0 is not distinguished.
- The portfolio fields are modelled as numbers or undefined. A portfolio field that arrives as text or another JSON type is not modelled.
- `Scanner` input, `System.out` messages and `java.util.Random` in `No_Guessing2.java`: console I/O and randomness. The secret is a constructor parameter, the guess a method parameter, the messages the returned `Verdict`. Input that is not an integer (where `Scanner` throws) is not modelled.
- PlayGame: the console input is a finite sequence, so the loop always ends. Running out of input, where `Scanner` would throw, ends the game with `won` false. Whether a real player ever guesses right is outside the model.
