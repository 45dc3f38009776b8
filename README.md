# Expense tracker bot: verified model of the message router and the summary

The bot reads each direct message a user sends it. It logs lines of the
form `Category Amount` as rows `[date, category, amount]` in a Google
Sheet that belongs to that user. It also answers a few commands:

- `!setup <email>` creates the user's sheet;
- `!url`/`!sheet`/`!link` replies with the sheet's link;
- `!summary`/`!expenses`/`!stats` replies with a summary of the sheet;
- `!help`/`help`/`!commands` replies with the help text.

The model covers the per-message router (`on_message`) and its three pieces
of state: the welcomed set, the `user_emails` configuration and the
sheet-handle cache. It also covers the configuration upsert and link
derivation done when a sheet is set up, and the expense summary
(`get_expense_summary`).

Modules:

- `Wrappers`: the `Option` type.
- `Text`: the Python string operations the router uses, stated exactly:
  - `isspace` over the Unicode whitespace code points;
  - `lower` (ASCII letters only);
  - `startswith`;
  - substring `in`;
  - `strip`;
  - `split()`;
  - `split(maxsplit=1)`.
- `Commands`: the fixed keyword lists and the rule that stops a first
  message after the welcome ("swallowed"). It also holds the email
  extraction for `!setup` and the parsing of `Category Amount`.
- `Aggregation`: the summary of a list of rows, with these parts:
  - the empty case;
  - the grand total and the per-category totals, in first-seen order;
  - the category listing sorted by amount, descending;
  - the recent window: the last `limit` rows, newest first.
  - the failures: a recent row whose date has no word, and a zero total.

  It has a pure specification and loop-based methods `Summarize`,
  `AccumulateCategories` and `RenderRecent`, proved equal to the
  specification.
- `Bot`: the router state, the replies (identified by kind) and the outside
  world (`Env`). It has a pure `Step` function for one message and a class
  `Router` whose fields are the welcomed set, the configuration, the cache,
  the rows held by the spreadsheet service and the replies sent so far. Its
  methods `SetupSheetForUser`, `ResolveSheet`, `ProcessExpense` and
  `HandleMessage` update those fields in place. Each one is proved to leave
  exactly the state `Step` (or the function for its branch) describes.
- `Properties`: lemmas about `Step`. Each message gets exactly one outcome:
  - ignored;
  - swallowed after the welcome;
  - setup;
  - link;
  - summary;
  - help;
  - set-up prompt;
  - format hint;
  - error;
  - one logged row.

  The lemmas also say which parts of the state each outcome may change.

The outside world is a parameter of every step. `Env` carries:

- the current time string;
- the outcome of each spreadsheet call: the id a `create` returns or its
  failure, and whether the header append, the open, the fetch and the row
  append succeed;
- Python's `float()` on a string, as a function to `Option<real>`.

The spreadsheet service is a map from sheet id to its data rows. The
header row is implicit.

Behaviour modelled as the code has it:

- The setup email is the whole remainder after `split(maxsplit=1)`,
  stripped. It may contain inner spaces (`SetupEmailOfCommand`).
- A message that starts with `!setup ` but is not well formed does not stop
  at the setup branch. It falls through to the rest of the dispatch
  (`MalformedSetupFallsThrough`). For example, `!setup 250` from a set-up
  user is logged as an expense of category `!setup` (`SetupWithoutEmail`).
- An amount that `float()` rejects gets the `Error: ...` reply, not the
  format hint (`ExpenseMessage`: `BadAmount` gives `ExpenseError`).
- The summary of rows whose amounts total zero (for example one row
  `Food 0`, or `5` and `-5`) fails: every category line divides its amount
  by the total, so the error reply is sent (`SummaryFails`).
- When the header append fails, the newly created sheet is left behind,
  empty and unrecorded (`SetupFails`).
- `summary(records, 0)` would show every record, because `records[-0:]` is
  the whole list (`RecentZeroLimit`). The router always passes 5.

## Model

| member | source | states |
|---|---|---|
| Text.ContainsIff | bot.py:222 | the recursive substring test holds exactly when the pattern occurs at some index |
| Text.IsSpace | bot.py:227 | defines the whitespace set of `strip()` and `split()`; `TrimLeftSuffix`, `TrimRightPrefix` and `SplitTokens` state its use |
| Text.Contains | bot.py:222 | defines substring `in` by scanning; `ContainsIff` states its meaning |
| Text.StartsWith | bot.py:222-226 | defines `startswith` as "the prefix of the pattern's length equals the pattern" |
| Text.Lower | bot.py:222-226 | defines `lower()` character by character; `LowerConcat`, `LowerIdempotent` and `LowerCharSpace` state its properties |
| Text.TrimLeft | bot.py:227 | `lstrip` never lengthens the text, and its result does not start with whitespace |
| Text.TrimLeftSuffix | bot.py:227 | `lstrip` returns a suffix of the text, and everything it removes is whitespace |
| Text.TrimRight | bot.py:227 | `rstrip` never lengthens the text, and its result does not end with whitespace |
| Text.TrimRightPrefix | bot.py:227 | `rstrip` returns a prefix of the text, and everything it removes is whitespace |
| Text.Strip | bot.py:227 | defines `strip()` as `rstrip` after `lstrip`; `StripNoop` and `StripKeeps` state its properties |
| Text.TokenLen | bot.py:320 | the leading token ends at the end of the text or just before a whitespace character |
| Text.TokenLenPrefix | bot.py:320 | the leading token holds no whitespace, and it is a non-empty word when the text starts with a non-space |
| Text.Split | bot.py:320 | defines `split()` as repeated `lstrip` and leading-token extraction; `SplitTokens`, `SplitJoin`, `SplitCons` and `SplitLeadingSpace` state its properties |
| Text.SplitTokens | bot.py:320 | every word `split()` returns is non-empty and free of whitespace |
| Text.SplitJoin | bot.py:320 | splitting words joined by single spaces gives back the words |
| Text.SplitCons | bot.py:320 | a word followed by nothing or by whitespace splits into that word, then the split of the rest |
| Text.SplitLeadingSpace | bot.py:320 | a leading space does not change what `split()` returns |
| Text.FirstWordOfSplit | bot.py:173 | the first word is empty exactly when `split()` is empty, and otherwise equals its first element |
| Text.FirstWord | bot.py:173 | picks the first whitespace-separated word; `FirstWordOfSplit` states that it is `split()[0]` |
| Text.SplitOnce | bot.py:227 | `split(maxsplit=1)` has at most two parts: a word, then a remainder that is non-empty and starts with a non-space |
| Text.SplitOnceOfPair | bot.py:227 | a word, a space and a remainder starting with a non-space split into exactly that word and that remainder |
| Text.JoinEnds | bot.py:320 | joined words start with the first word's first character and end with the last word's last character |
| Text.TokenLenOfWord | bot.py:320 | the leading token of a word followed by whitespace or nothing is that word |
| Text.TrimLeftNoop | bot.py:227 | text that starts with a non-space is unchanged by `lstrip` |
| Text.StripNoop | bot.py:227 | text with non-space ends is unchanged by `strip` |
| Text.TrimLeftKeeps | bot.py:229 | `lstrip` keeps every non-space character |
| Text.TrimRightKeeps | bot.py:229 | `rstrip` keeps every non-space character |
| Text.StripKeeps | bot.py:228-229 | `strip` keeps every non-space character, so the stripped email still holds its "@" |
| Text.LowerCharSpace | bot.py:226 | lower-casing a character leaves its whitespace status unchanged |
| Text.LowerConcat | bot.py:226 | lower-casing distributes over concatenation |
| Text.LowerIdempotent | bot.py:263 | lower-casing twice is the same as once |
| Commands.SetupEmail | bot.py:226-229 | an email is found only when the lower-cased text starts with "!setup ", and it contains "@" |
| Commands.Swallowed | bot.py:222 | defines the first-contact stop rule on the raw and lower-cased text; `CommandsNotSwallowed` and `Properties.FirstContact` state its effect |
| Commands.IsLinkCommand | bot.py:263 | case-insensitive exact match against "!sheet", "!url", "!link"; `CommandsIgnoreCase` and `Properties.LinkCommand` state its use |
| Commands.IsSummaryCommand | bot.py:275 | case-insensitive exact match against "!summary", "!expenses", "!stats"; `Properties.SummaryCommand` states its use |
| Commands.IsHelpCommand | bot.py:289 | case-insensitive exact match against "!help", "help", "!commands"; `Properties.HelpCommand` states its use |
| Commands.SetupArgument | bot.py:227-229 | the argument is found only when the second part contains "@", and it still holds "@" after stripping |
| Commands.SetupEmailOfCommand | bot.py:226-229 | "!setup" in any letter case, a space and an email with non-space ends and an "@" yield exactly that email, inner spaces included |
| Commands.SetupWithoutEmail | bot.py:226-326 | "!setup" and one word without "@" is not a setup, and the same text parses as an expense with the keyword as its category |
| Commands.LowerBang | bot.py:222 | a lower-cased "!" comes only from "!" |
| Commands.SetupPrefixFacts | bot.py:222-226 | a text passing the "!setup " test starts with "!" and has a space at index 6 |
| Commands.SetupKeywordFacts | bot.py:226 | a keyword that lower-cases to "!setup" is one word starting with "!" |
| Commands.SetupKeywordPrefix | bot.py:226 | such a keyword followed by a space passes the case-insensitive prefix test |
| Commands.CommandsNotSwallowed | bot.py:222-289 | no link, summary or help command is stopped by the first-contact rule |
| Commands.KeywordNotSwallowed | bot.py:222-289 | each keyword of the three lists either starts with "!" or contains "help" |
| Commands.SetupExcludesCommands | bot.py:226-289 | a well-formed setup text is none of the link, summary or help commands |
| Commands.NoKeywordHasSpaceAtSix | bot.py:263-289 | no keyword has a space at index 6 |
| Commands.CommandsIgnoreCase | bot.py:263-289 | command recognition ignores letter case |
| Commands.ParseExpense | bot.py:320-326 | the format hint comes exactly when the stripped text does not split into two words; otherwise the category is the first word and the amount is `float()` of the second, or, when `float()` rejects it, the second word is reported as a bad amount |
| Commands.ParseExpenseOfPair | bot.py:320-326 | "Category Amount" parses to that category and `float(Amount)`, or to a bad amount |
| Commands.ParseExpenseWrongCount | bot.py:320-323 | any number of words other than two gives the format hint |
| Aggregation.Categories | bot.py:159-161 | the categories listed are exactly those present in the rows, each listed once |
| Aggregation.Total | bot.py:156 | defines the grand total as the sum of all amounts; `CategoryTotalsSum` and `ReportTotals` state its properties |
| Aggregation.CategoryTotal | bot.py:159-161 | defines a category's `defaultdict` entry as the sum of that category's amounts; `AbsentCategoryTotal` and `CategoryTotalsSum` state its properties |
| Aggregation.CategoriesSnoc | bot.py:159-161 | one more record adds its category at the end of the first-seen order unless it is already listed |
| Aggregation.CategoryTotalSnoc | bot.py:159-161 | one more record adds its amount to its own category's total and to no other |
| Aggregation.AbsentCategoryTotal | bot.py:159-161 | a category that no row has totals 0 |
| Aggregation.CategoryLines | bot.py:159-161 | one line per category, carrying the sum of that category's amounts |
| Aggregation.SumLinesConcat | bot.py:178-180 | the sum of a concatenation of line lists is the sum of the two sums |
| Aggregation.SumLinesAppend | bot.py:159-161 | appending a row adds its amount to the line sum over distinct categories |
| Aggregation.Insert | bot.py:178 | inserts one line before the first line whose amount is not larger; `InsertSorted` and `InsertKeeps` state its properties |
| Aggregation.CategoryTotalsSum | bot.py:156-161 | the per-category totals add up to the grand total |
| Aggregation.InsertSorted | bot.py:178 | insertion into a list sorted by amount, descending, keeps it sorted and adds one line |
| Aggregation.InsertKeeps | bot.py:178 | insertion adds exactly the new line (as a multiset) and its amount |
| Aggregation.SortDescending | bot.py:178 | defines the descending sort by amount as insertion sort; `SortDescendingSorted` and `SortDescendingKeeps` state its properties |
| Aggregation.SortDescendingSorted | bot.py:178 | the category listing is in non-increasing amount order |
| Aggregation.SortDescendingKeeps | bot.py:178 | sorting is a permutation and keeps the sum |
| Aggregation.ReverseAt | bot.py:165 | the in-place `reverse()` puts element `n-1-i` at index `i` |
| Aggregation.Reverse | bot.py:165 | defines `reverse()` on the window; `ReverseAt` states where each element lands |
| Aggregation.Window | bot.py:164 | defines `records[-limit:] if len(records) > limit else records`, with `[-0:]` keeping everything; `RecentIsNewestFirst` and `RecentZeroLimit` state its meaning |
| Aggregation.Recent | bot.py:164-165 | defines the recent list as the window, reversed; `RecentIsNewestFirst` states its meaning |
| Aggregation.RecentIsNewestFirst | bot.py:164-165 | the recent list is the last `min(limit, n)` rows, newest first |
| Aggregation.RecentZeroLimit | bot.py:164 | with limit 0 the slice `[-0:]` keeps every row, newest first |
| Aggregation.Day | bot.py:173 | defines the displayed day as the first word of the date; `DayIsFirstWord` states that it is `split()[0]` |
| Aggregation.RecentLines | bot.py:172-174 | one rendered line per recent record, with its day, category and amount; `ReportRecent` states its meaning |
| Aggregation.DayIsFirstWord | bot.py:173 | the day shown is the first whitespace-separated word of the date, missing when the date has none |
| Aggregation.SummaryOf | bot.py:146-153 | the summary is "no expenses" exactly when there are no rows |
| Aggregation.ReportTotals | bot.py:156-183 | a report's total is the sum of all amounts; its category lines are sorted descending and add up to that total |
| Aggregation.ReportCategories | bot.py:159-180 | the listing has one line per distinct category, and a line is in it exactly when its category occurs and its amount is that category's total |
| Aggregation.ReportRecent | bot.py:164-174 | the report lists `min(limit, n)` recent rows, newest first, each with its category, amount and day |
| Aggregation.SummaryFails | bot.py:173-188 | the summary fails exactly when there are rows and either some recent row has a date with no word (`split()[0]` raises) or the amounts total zero (the percentage divides by the total) |
| Aggregation.ItemsAgree | bot.py:159-178 | reading the accumulated totals in first-seen order gives the category lines |
| Aggregation.Items | bot.py:178 | reads `categories.items()` in insertion order; `ItemsAgree` states that it gives the category lines |
| Aggregation.AccumulateCategories | bot.py:159-161 | the `defaultdict` loop yields the categories in first-seen order, each mapped to its total |
| Aggregation.RenderRecent | bot.py:172-174 | the rendering loop yields the recent lines, or fails when a date has no word |
| Aggregation.Summarize | bot.py:146-188 | the summary computed by loops, including the early failures on an undated recent row and on a zero total, equals the specified summary |
| Aggregation.TwoFoodRecords | bot.py:146-188 | two dated Food records of 100 and 50 summarise as both records newest first, one category line Food 150, and total 150 |
| Bot.SheetUrlRoundTrip | bot.py:126-127 | the sheet id can be read back from its derived link |
| Bot.SheetUrlInjective | bot.py:127 | distinct sheets have distinct links |
| Bot.SheetUrl | bot.py:127 | defines the link as the fixed prefix, the id and "/edit"; `SheetUrlRoundTrip` and `SheetUrlInjective` state its properties |
| Bot.SheetIdOfUrl | bot.py:127 | reads the id back out of a link; it exists as the inverse behind `SheetUrlInjective` |
| Bot.Greet | bot.py:208-219 | a new user joins the welcomed set and gets exactly the welcome reply; a known or already welcomed user is left as is; either way the author is no longer new and nothing else changes |
| Bot.IsNewUser | bot.py:208 | defines first contact: neither welcomed in this process nor configured; `Properties.FirstContact` and `Properties.WelcomedOnce` state its use |
| Bot.Provision | bot.py:95-143 | an id is returned exactly when creation and the header append succeed; then the new, empty sheet exists and the user's record is overwritten with the email, the id and the derived link while every other record stays; on failure the configuration is unchanged and at most the created empty sheet is left behind; the cache, the welcomed set and the replies are untouched |
| Bot.Setup | bot.py:232-245 | the setup branch keeps the cache consistent, welcomes nobody and sends exactly one reply |
| Bot.Resolve | bot.py:247-260 | a resolved handle names an existing sheet and is cached for the user; resolution touches no sheet |
| Bot.AppendRow | bot.py:331 | appending a row to an existing sheet creates and removes no sheet |
| Bot.LogExpense | bot.py:318-338 | the expense branch sends exactly one reply and changes neither the configuration, nor the cache, nor the set of sheets |
| Bot.Dispatch | bot.py:247-316 | the dispatch leaves the configuration, the welcomed set and the set of sheets unchanged, and adds at least one reply |
| Bot.Step | bot.py:198-338 | one message keeps every cached handle valid and only appends to the replies already sent |
| Bot.Router.constructor | bot.py:51-52 | start-up: loaded configuration, empty cache, nobody welcomed |
| Bot.Router.SetupSheetForUser | bot.py:95-143 | creates the sheet, then writes the header, then upserts the user's record with the derived link, as `Provision` states |
| Bot.Router.ResolveSheet | bot.py:247-260 | fills the cache from the configuration as `Resolve` states |
| Bot.Router.ProcessExpense | bot.py:318-338 | appends the row or replies with the hint or the error, as `LogExpense` states |
| Bot.Router.RunSetup | bot.py:232-245 | runs the setup branch in place, as `Setup` states |
| Bot.Router.RunCommand | bot.py:247-338 | runs the dispatch in place, as `Dispatch` states |
| Bot.Router.HandleMessage | bot.py:198-338 | updates the router's fields to exactly the state `Step` gives |
| Properties.IgnoredMessage | bot.py:199-203 | the bot's own messages and non-DM messages change nothing |
| Properties.FirstContact | bot.py:208-223 | a new user is welcomed before anything else; the message then stops exactly when it is swallowed |
| Properties.WelcomedOnce | bot.py:208-209 | after any message its author is no longer new, and only the author joins the welcomed set |
| Properties.ReturningUser | bot.py:208-226 | a known user gets no welcome, and their message goes straight to the setup or dispatch branch |
| Properties.ConfigOnlyChangesOnSetup | bot.py:226-233 | the configuration and the set of sheets change only on a well-formed setup whose sheet creation succeeds |
| Properties.SetupSucceeds | bot.py:126-137 | a successful setup overwrites the author's record with the email, the id and the derived link, keeps other users' records, caches the new sheet, and adds exactly the link reply after any welcome |
| Properties.SetupFails | bot.py:232-245 | a failed setup keeps the configuration and the cache, leaves any created sheet behind, and adds exactly the error reply after any welcome |
| Properties.SetupStep | bot.py:222-233 | a well-formed setup always reaches the setup branch |
| Properties.MalformedSetupFallsThrough | bot.py:226-245 | a "!setup " text that is not well formed goes on to the rest of the dispatch |
| Properties.DispatchStep | bot.py:247-261 | a text past first contact and not a setup reaches the dispatch, and the handle it resolves is unaffected by the welcome |
| Properties.CommandProceeds | bot.py:222-289 | link, summary and help commands pass first contact and are not setups |
| Properties.Resolution | bot.py:248-260 | the handle comes from the cache first. Otherwise the configured sheet is opened and cached. When neither works, nothing is cached |
| Properties.LinkCommand | bot.py:263-272 | a link command replies with the stored link exactly when the user is configured; that link is the one derived from the stored id; no sheet or record changes |
| Properties.SummaryCommand | bot.py:275-286 | a summary command prompts for setup without a handle, and otherwise sends the notice followed by the summary of the user's rows; no row is written |
| Properties.HelpCommand | bot.py:289-308 | a help command sends only the help text |
| Properties.ExpenseMessage | bot.py:310-338 | after any welcome exactly one reply is added. Without a handle it is the setup prompt. With one: two words whose amount parses, and a successful append, give exactly one row `[now, category, amount]` and the "Logged" reply; a wrong word count gives the format hint; a bad amount or a failed append gives the error; none of these writes a row |
| Properties.RowWritten | bot.py:318-331 | a logged expense appends exactly its row `[now, category, amount]` to the end of the author's resolved sheet, and no other sheet changes |
| Properties.KeepsSheets | bot.py:198-338 | a message that logs no expense leaves the rows of every existing sheet unchanged |
| Properties.AtMostOneRow | bot.py:318-331 | each existing sheet afterwards holds its old rows followed by the rows the message adds to it: one row for the author's resolved sheet when an expense is logged, none otherwise |
| Properties.UrlsStayDerived | bot.py:127-136 | every stored link stays the link derived from its stored id |
| Properties.AlwaysReplies | bot.py:198-338 | every direct message from a user gets at least one reply |
| Properties.SingleRowSummary | bot.py:152-188 | one dated row summarises as itself (one recent line, one category line, its amount as the total) unless its amount is zero, where the summary fails |
| Properties.ExampleSetupText | bot.py:214-229 | "!setup a@b.c" is a setup for the email "a@b.c" |
| Properties.ExampleExpenseText | bot.py:263-289 | "Food 250" is none of the commands |
| Properties.ExampleExpenseParses | bot.py:320-326 | "Food 250" logs category "Food" with amount `float("250")` |
| Properties.ExampleSummaryText | bot.py:275 | "!summary" is a summary command |

## Left out

- Discord: the client, intents, `on_ready`, the token and `client.run`.
  They are platform I/O. Sending a reply is an entry appended to
  `replies`.
- Concurrency: each message is handled as one atomic step. Interleaving of
  handlers at `await` points is not modelled.
- Google credentials and authorization. Each gspread call (`create`,
  `append_row`, `open_by_key`, `get_all_records`) is an outcome taken from
  `Env`. The spreadsheet service is a map from sheet id to rows.
- The two `share` calls fail silently. They are no-ops here, as is the
  sharing email's effect at Google.
- Loading and saving the JSON configuration file: file I/O. `save_config`
  is a no-op after the in-memory upsert. The model also assumes that
  configuration records always hold `sheet_id` and `sheet_url`.
- `time.time()` in the sheet name is not modelled, because only the id
  `create` returns is used afterwards. `datetime.now()` is the `now` string
  in `Env`.
- Floating point:
  - `float()` is the parameter `toFloat` and amounts are exact reals;
  - the `:.2f` and `:.1f` rendering and the percentage column are dropped,
    but the division by a zero total is kept as the summary's failure; the
    zero test is on the exact sum, where floating-point rounding could make
    the source's sum of, say, 0.1, 0.2 and -0.3 non-zero;
  - the summary is a structured value (recent lines, category lines,
    total) rather than text.
- Summary rows whose stored `Amount` does not convert with `float()`: rows
  in the model always hold a number.
- Message wording: welcome, help, setup and error texts, and the `str(e)`
  inside error replies. Replies are identified by kind.
- `log`: debug printing only.
- Text.LowerChar: lower-cases ASCII letters only. Python's `str.lower()`
  also maps non-ASCII letters.
- Aggregation.SortDescendingSorted: the stability for equal totals (Python's
  `sorted` is stable) is not stated.
- Bot.Router.SetupSheetForUser: the sheet-name argument is not modelled.
  The ids the service hands out are assumed fresh only where a lemma needs
  it (`AtMostOneRow` and `KeepsSheets`).
