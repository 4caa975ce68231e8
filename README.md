# breadtrail core, modelled in Dafny

breadtrail is a plain-text envelope-budgeting ledger. A ledger file declares
accounts and categories (envelopes), and lists dated income and expenditure
transactions, each followed by indented lines that allocate its amount to
categories or set properties. This project models the logic at the core of
the program and proves what it guarantees:

- **Line tokenizer** (`parser_tokenize.dfy`, module `ParserTokenize`): the
  shell-like scanner `_get_token` and `Line.__init__`, as methods with their
  `while` loops, each proved equal to a recursive specification function.
  `ParserTokenizeFacts` proves how tokens, prefixes, quotes, escapes and the
  suffix behave, and where the line can and cannot be rebuilt from its tokens.
- **Ledger data model** (`ledger.dfy`, module `LedgerModel`): accounts,
  categories and transactions are classes, because the program relies on
  object identity and mutates transactions in place. An allocation is a
  value. Also modelled: `Ledger.append` and `signed_amount`.
- **Allocation arithmetic** (`allocations.dfy`, module `Allocations`): what
  `finalize_transaction` computes, as functions on the allocation list, with
  lemmas showing that a finalized transaction balances.
- **Command parser** (`parser.dfy`, module `LedgerParser`): the `Parser`
  class. Its fields are the open command (`last_command`) and the ledger it
  builds. It has one method per handler, the line dispatch, the finalization
  loop and the `parse` loop over pre-split lines.
- **Money and dates** (`type_utils.dfy`, module `TypeUtils`): the two regular
  expressions of `cents_from_str` are modelled exactly, including
  backtracking. `cents_to_str`, `quote_str_if_needed` and `datetime_from_str`
  are modelled too. `TypeUtilsFacts` proves what these accept and print,
  including the round trip and the places where it fails.
- **Reports** (`breadtrail.dfy`, module `Reports`): the computations behind
  `balance`, `register` and `envelope-register`. Each is a loop method that
  returns the rows the command would print. Each is proved against a fold
  (`SumFor`, `RunningRows` over `AccountEntries` or `EnvelopeItems`).
- **OFX de-duplication** (`ofximport.dfy`, module `OfxImport`): the
  id-to-transaction map, `filter` (keep unseen ids, then a stable sort by
  date) with its two counters, and the lines `print_txn` writes.

Error behaviour follows the code as written:

- Every error a handler raises is built with
  `ParseError(self.reader_stack[-1], ...)`. `reader_stack` is a class
  attribute that is never pushed to, so these errors surface as `IndexError`
  (`Failure.IndexError`).
- Only the checks in the line loop itself raise a real
  `ParseError(filename, line number, message)`.
- `cents_from_str` failures propagate as `ValueError`.
- The unknown-category path of `do_envelope_register` names an undefined
  variable `cat_name`, so it raises `NameError` (breadtrail.py:99).

Library calls become parameters of the model:

| library call | used by | model parameter |
|---|---|---|
| `datetime.strptime` | the parser | `strptime: (string, DateFormat) -> Option<DateTime>` |
| `pipes.quote` | `quote_str_if_needed`, `print_txn` | `quote: string -> string` |
| `strftime` | `print_txn` | `dateStr: DateTime -> string` |

Python integers are unbounded, and so are Dafny's `int`. Python 2 byte
strings are `seq<char>`, with ASCII whitespace and ASCII lower-casing.

## Model

| member | source | states |
|---|---|---|
| TypeUtils.AmountMatch | type_utils.py:10-15 | one of the two patterns matches exactly when at least one digit follows `\s*\$?`; the amount is then non-negative |
| TypeUtils.CentsFromStr | type_utils.py:8-16 | the result is non-negative; it is an amount exactly when a digit follows the optional spaces and `$` of the cleaned text; otherwise the ValueError message embeds the cleaned text |
| TypeUtils.QuoteStrIfNeeded | type_utils.py:46-48 | the result is `s` or `quote(s)`; `s` when quoting added exactly two characters, otherwise `quote(s)` |
| TypeUtils.DatetimeFromStr | type_utils.py:36-40 | the first of `%Y-%m-%d`, `%Y%m%d` that parses decides; None exactly when neither parses |
| TypeUtils.Lower | parser.py:89 | `str.lower()` on a byte string: same length, only `A`-`Z` changed |
| TypeUtilsFacts.NatToStrDigits | type_utils.py:20 | `%d` of n prints decimal digits that read back as n (one digit below 10, two below 100, three below 1000) |
| TypeUtilsFacts.AmountMatchCases | type_utils.py:10-15 | based on the maximal digit run n. A two-digit fraction right after the run wins. Otherwise a run of 4+ digits loses its third-from-last digit (the unescaped `.`). Otherwise the run is whole units |
| TypeUtilsFacts.PatternAmount | type_utils.py:9-12 | a cleaned input `[$]DIGITS<c>DD...`, c neither digit nor newline, gives DIGITS*100+DD |
| TypeUtilsFacts.RemoveCommasSkips | type_utils.py:9 | a comma between two pieces is dropped and nothing else changes |
| TypeUtilsFacts.BareDigitsShort | type_utils.py:13-15 | one to three bare digits are whole units |
| TypeUtilsFacts.BareDigitsLong | type_utils.py:10-12 | four or more bare digits lose the third digit from the end and read the last two as cents |
| TypeUtilsFacts.ThousandReadsAsOneDollar | type_utils.py:10-12 | `"1000"` reads as 100 cents |
| TypeUtilsFacts.ShortTailIsWholeUnits | type_utils.py:10-15 | up to three digits followed by at most two characters, the first not a digit, are whole units (`"42.5"` gives 4200) |
| TypeUtilsFacts.JoinedAmount | type_utils.py:9-12 | `DIGITS.DD` reads as DIGITS*100+DD |
| TypeUtils.CentsToStr | type_utils.py:18-23 | the text has a `.`; it ends in `)` exactly for a negative amount, which also opens with `(` |
| TypeUtilsFacts.CleanOfPrinted | type_utils.py:8-20 | what cents_to_str prints for c >= 0 is unchanged by strip and comma removal |
| TypeUtilsFacts.CentsToStrNegative | type_utils.py:18-23 | a negative amount prints as the text of its absolute value in parentheses |
| TypeUtilsFacts.CentsToStrUnpadded | type_utils.py:18-20 | with fewer than ten cents the fraction prints as one digit, not zero-padded |
| TypeUtilsFacts.CentsRoundTrip | type_utils.py:8-20 | reading back what cents_to_str prints gives c, for c >= 0 with c % 100 >= 10 |
| TypeUtilsFacts.PrintedRoundTrip | type_utils.py:8-20 | `"%d.%d" % (q, r)` reads back as q*100+r when r has two digits |
| TypeUtilsFacts.CentsRoundTripLosesShortFraction | type_utils.py:8-20 | with c % 100 < 10 and fewer than four whole digits, the round trip gives c - c % 100 |
| TypeUtilsFacts.PrintedShortFraction | type_utils.py:8-20 | `"%d.%d" % (q, r)` with r < 10 and q < 1000 reads back as q*100 |
| TypeUtilsFacts.CentsRoundTripFailsForNegative | type_utils.py:8-23 | a negative amount, as printed, is a ValueError when read back |
| TypeUtilsFacts.QuoteWrappingIsDropped | type_utils.py:46-48 | when quote only wraps `s` in single quotes, the bare `s` is kept |
| TypeUtilsFacts.DateTimeLeTotal | ofximport.py:57 | the date order used as sort key is total and antisymmetric |
| ParserTokenize.GetToken | parser_tokenize.py:15-64 | the two loops of `_get_token` compute the specification `GetTokenSpec` |
| ParserTokenize.MakeLine | parser_tokenize.py:68-84 | the loop of `Line.__init__` computes the specification `LineSpec` |
| ParserTokenize.TokenValues | parser_tokenize.py:86-87 | one value per token, in token order |
| ParserTokenizeFacts.SkipSpacesRun | parser_tokenize.py:18-25 | the prefix loop skips only whitespace and stops at the first non-whitespace character |
| ParserTokenizeFacts.LexKeepsPrefix | parser_tokenize.py:37-64 | once the prefix is consumed, a token keeps `line[i0:i1]` as prefix and a comment suffix is `line[i0:]` |
| ParserTokenizeFacts.GetTokenPrefix | parser_tokenize.py:18-64 | a token with a value has as prefix exactly the all-whitespace run from the previous token's end to its first character |
| ParserTokenizeFacts.CommentStartsSuffix | parser_tokenize.py:51-53 | an unquoted `#` where a token would start returns the rest of the line from i |
| ParserTokenizeFacts.SpaceOrHashEndsToken | parser_tokenize.py:51-56 | outside quotes whitespace ends a token, and so does `#` after token characters |
| ParserTokenizeFacts.QuotedCopiedLiterally | parser_tokenize.py:46-50 | between matching quotes every character is copied literally and the quotes are dropped |
| ParserTokenizeFacts.UnclosedQuote | parser_tokenize.py:31-33 | a quote that is never closed raises `LineParseError(len(line), "unclosed quote")` |
| ParserTokenizeFacts.BackslashEscapes | parser_tokenize.py:31-60 | outside quotes a backslash takes the next character literally; as the last character it raises "unclosed escape" at `len(line)` |
| ParserTokenizeFacts.OnlySpacesLeft | parser_tokenize.py:19-21 | `Token('', line)` comes back exactly when only whitespace is left |
| ParserTokenizeFacts.StoredTokens | parser_tokenize.py:79-82 | every stored token has a non-empty value and an all-whitespace prefix |
| ParserTokenizeFacts.BlankLine | parser_tokenize.py:20-81 | a blank or whitespace-only line has no tokens and is its own suffix |
| ParserTokenizeFacts.PlainToken | parser_tokenize.py:46-64 | in a line without quotes or backslashes a token is the whitespace run and the word after it |
| ParserTokenizeFacts.PlainRoundTrip | parser_tokenize.py:68-84 | without quotes or backslashes the prefixes, values and suffix rebuild the line exactly when it has a `#` comment, ends on a token character or is blank |
| ParserTokenizeFacts.QuotedLineDoesNotRebuild | parser_tokenize.py:49-58 | `"a b"` is one token `a b` with empty suffix, so the rebuilt text `a b` differs from the line |
| ParserTokenizeFacts.EscapedLineDoesNotRebuild | parser_tokenize.py:46-62 | `a\ b` is one token `a b` with empty suffix, so the rebuilt text `a b` differs from the line |
| ParserTokenizeFacts.TrailingSpaceSwallowsLine | parser_tokenize.py:21-81 | with whitespace after the last token and no comment, the suffix is the entire raw line |
| LedgerModel.Account.constructor | ledger.py:1-4 | name and description as given |
| LedgerModel.Category.constructor | ledger.py:8-12 | name and description as given, goal None |
| LedgerModel.Transaction.constructor | ledger.py:21-41 | kind, amount, date and account as given; description None, not projected, no properties, no allocations |
| LedgerModel.Transaction.SignedAmount | ledger.py:34-43 | the amount for income, its negation for an expenditure |
| LedgerModel.Ledger.constructor | ledger.py:53-57 | no accounts, no transactions, exactly the category `unallocated` |
| LedgerModel.Ledger.Append | ledger.py:59-62 | names of `other` win, names only here keep their object, other's transactions follow ours, `other` is unchanged, validity is kept |
| Allocations.Finalize | parser.py:137-154 | fails (IndexError) exactly when there are two remainders or the explicit amounts exceed the transaction amount |
| Allocations.FinalizeBalances | parser.py:137-154 | the result adds up to the amount, has at most one remainder and none after a fill, grows by at most one allocation and not at all when there is a remainder, and keeps every category and every explicit amount |
| Allocations.FinalizeIdempotent | parser.py:137-154 | finalizing a finalized list changes nothing |
| Allocations.FinalizeExactTotal | parser.py:147-154 | when the explicit amounts already add up, nothing changes and a remainder stays None |
| Allocations.FinalizeShortfallUnallocated | parser.py:149-154 | a shortfall with no remainder goes to a new allocation to `unallocated` |
| Allocations.TwoNones | parser.py:140-145 | two allocations without an amount are counted as two remainders |
| Allocations.SingleNone | parser.py:140-145 | when there is exactly one remainder, the loop's `remainder_alloc` is that allocation |
| Allocations.FinalizeShortfallRemainder | parser.py:149-152 | with exactly one remainder and a shortfall, that allocation (wherever it sits) receives the difference and nothing else changes |
| LedgerParser.Indented | parser.py:178 | a line is a continuation exactly when its first character is a space or a tab |
| LedgerParser.LineAction | parser.py:178-209 | blank exactly for no tokens. An unindented line whose keyword parses as a date starts that transaction, else a `commands` keyword runs its handler, else it is rejected with `unrecognized command: '<cmd>'.`. An indented line with nothing open is rejected; with an open command a `continuation_commands` keyword runs its handler, else a keyword ending in `:` is a property, else it is rejected with `unrecognized continuation command: '<cmd>'.`. Conversely only these lines reach each outcome |
| LedgerParser.ParseAmountOrRaise | parser.py:47-50 | accepts exactly the non-zero amounts cents_from_str reads; 0 fails; a ValueError passes through |
| LedgerParser.TransactionKind | parser.py:89-94 | `into` (any case) is income, `from` is expenditure, anything else is none |
| LedgerParser.PropertyKey | parser.py:132 | one trailing colon is removed, nothing else |
| LedgerParser.AllocationRequest | parser.py:104-120 | 3 or 4 tokens. The amount is None for the 3-token form and for `all`/`remainder`. Checks run in order: token count, amount, connector `to`/`into`/`as`. A request with the right count, a connector and a usable amount is accepted |
| LedgerParser.Parser.constructor | parser.py:30-33 | no open command and an empty ledger with only `unallocated` |
| LedgerParser.Parser.ParseAddAccount | parser.py:53-60 | fails exactly outside 2-3 tokens, changing nothing; otherwise stores a new account under tokens[1], replacing any, and opens it |
| LedgerParser.Parser.ParseAddCategory | parser.py:62-69 | the same for categories, a new category with goal None |
| LedgerParser.Parser.ParseCategorySubcommand | parser.py:71-80 | passes exactly when a category is open, and does nothing |
| LedgerParser.Parser.ParseTransaction | parser.py:82-97 | fails, changing nothing, on token count, amount, account or kind, in that order; when all four checks pass it succeeds, and a new transaction with description tokens[4] is appended and opened |
| LedgerParser.Parser.AddTransaction | parser.py:90-97 | the new transaction is appended to the ledger and opened, accounts and categories unchanged |
| LedgerParser.Parser.ParseTransactionAllocate | parser.py:99-123 | fails outside a transaction, on a malformed request, or on an undefined category; otherwise appends the allocation, unchecked |
| LedgerParser.Parser.ParseTransactionProperty | parser.py:126-133 | passes exactly inside a transaction with two tokens, then stores tokens[1] under the key less its colon |
| LedgerParser.Parser.FinalizeTransaction | parser.py:137-154 | the new allocations are Finalize's, or unchanged on its error; on success they balance |
| LedgerParser.Parser.ScanAllocations | parser.py:138-146 | ok exactly with at most one remainder, and then the explicit total and the first remainder's position |
| LedgerParser.Parser.CloseCommand | parser.py:180-184 | an open transaction is finalized and then the command is closed; a failure leaves the command open |
| LedgerParser.Parser.RunHandler | parser.py:157-168 | handlers never add transactions or raise ParseError; account and category lines leave an open transaction untouched |
| LedgerParser.Parser.ParseLine | parser.py:175-209 | a rejected line raises ParseError with this file and line number and changes nothing. A blank line finalizes and closes. An unindented line never touches the previously open transaction. Transactions are only appended |
| LedgerParser.Parser.Parse | parser.py:173-214 | lines numbered from 1, transactions only appended, and after success the open transaction balances |
| LedgerParserFacts.IndentationSeparatesCommands | parser.py:186-209 | indented lines never start transactions or define accounts or categories; unindented lines never allocate, set goals or properties |
| LedgerParserFacts.ContinuationNeedsCommand | parser.py:198-199 | an indented line with nothing open is rejected whatever it says |
| LedgerParserFacts.KeywordBeforeProperty | parser.py:203-207 | a continuation keyword wins over the property form (`goal:` is never a property) |
| Reports.ComputeBalances | breadtrail.py:53-56 | a balance for every account and only those, each the sum of signed amounts filed under its name; KeyError exactly when a transaction's account name is not a key, at the first such transaction |
| Reports.NamedBalances | breadtrail.py:58-66 | one row per name in order, stopping right after the first unknown name; known rows carry the balance |
| Reports.Register | breadtrail.py:76-88 | unknown name is an error with no rows; otherwise the running rows of exactly this account's transactions, signed |
| Reports.EnvelopeRegister | breadtrail.py:98-110 | unknown category raises NameError. Otherwise the rows are the running register of the items to this category, up to the first allocation without an amount, where TypeError is raised |
| Reports.EnvelopeRows | breadtrail.py:102-110 | the rows cover all items, or stop exactly before the first item without an amount |
| Reports.AllocationRows | breadtrail.py:106-110 | one transaction's allocations to the category, added in order, stopping at one without an amount |
| Reports.AllocationRow | breadtrail.py:107-110 | an allocation to the category adds its row `amount * factor` with the new balance; without an amount it stops; others are skipped |
| ReportsFacts.RunningRowsAt | breadtrail.py:80-88 | the k-th register row carries the k-th entry and the sum of the first k+1 amounts |
| ReportsFacts.SumForUnused | breadtrail.py:53-56 | an account no transaction is filed under has balance zero |
| ReportsFacts.RegisterTotalIsBalance | breadtrail.py:55-85 | when account names identify account objects, the register's final balance is the do_balance balance |
| OfxImport.Unseen | ofximport.py:47 | the kept transactions are no more than the statement's (which ones, and in what order, is stated by UnseenCount, UnseenKept and UnseenAppend) |
| OfxImport.SortByDate | ofximport.py:57 | a permutation of its input |
| OfxImport.ImportCounts.constructor | ofximport.py:19-20 | both counters start at zero |
| OfxImport.ImportCounts.Filter | ofximport.py:41-58 | `txn_count_imported` is the statement size, `txn_count_new` the number kept, and the result is the kept transactions sorted by date |
| OfxImport.Direction | ofximport.py:95 | `from` exactly for a negative amount |
| OfxImport.PrintTxn | ofximport.py:93-114 | the header line, then one line per allocation, tag and property in that order |
| OfxImport.WriteAllocations | ofximport.py:100-106 | appends the allocation lines in order |
| OfxImport.WriteTags | ofximport.py:107-110 | appends the tag lines in order |
| OfxImport.WriteProperties | ofximport.py:111-114 | appends the property lines in order |
| OfxImport.ByOfxid | ofximport.py:25-36 | every id of the latest ledger transaction is a key mapping to that transaction, whatever earlier ones carried |
| OfxImport.HeaderLine | ofximport.py:94-97 | the first line is the date text, then ` $`, the unsigned amount, the direction word and the account name separated by spaces, then the quoted description |
| OfxImport.AllocationLine | ofximport.py:100-104 | an allocation line begins with `    allocate ` and ends with the category name; for a non-zero amount it is `    allocate $<amount> to <category>` |
| OfxImportFacts.ByOfxidKeys | ofximport.py:25-36 | an id is a key exactly when some ledger transaction carries it under one of the four property names |
| OfxImportFacts.ByOfxidLastWins | ofximport.py:25-36 | an id maps to the last ledger transaction carrying it |
| OfxImportFacts.NoIdsNoKeys | ofximport.py:25-36 | a transaction with none of the four properties adds nothing |
| OfxImportFacts.UnseenCount | ofximport.py:47 | each statement transaction is kept as many times as it occurs when its id is not a key, and never otherwise |
| OfxImportFacts.UnseenKept | ofximport.py:47 | a statement transaction is kept exactly when its id is not a key |
| OfxImportFacts.UnseenAppend | ofximport.py:47 | the filter keeps statement order: filtering two consecutive stretches gives the two filtered stretches in order |
| OfxImportFacts.WithDateAppend | ofximport.py:57 | the transactions of one date, taken from consecutive stretches, come in stretch order |
| OfxImportFacts.UnseenWithDate | ofximport.py:47-57 | the kept transactions of one date are, in order, the statement's transactions of that date with an unseen id |
| OfxImportFacts.InsertSorted | ofximport.py:57 | inserting into a date-sorted list keeps it sorted |
| OfxImportFacts.SortByDateSorted | ofximport.py:57 | the sort's result is in date order |
| OfxImportFacts.SortByDateStable | ofximport.py:57 | the transactions of any one date keep their order |
| OfxImportFacts.FilterResult | ofximport.py:47-57 | filter's result is date-sorted and a permutation of the kept transactions, and its transactions of any one date are that date's unseen statement transactions in statement order |
| OfxImportFacts.SortByDateOfSorted | ofximport.py:49-57 | sorting a sorted list changes nothing, so the unsorted empty branch agrees with the sort |
| OfxImportFacts.SignGoesToDirection | ofximport.py:95-96 | negating the amount flips the direction word and keeps the printed amount |
| OfxImportFacts.AllocateAllIffFalsy | ofximport.py:101-104 | `allocate all to` exactly when the amount is None or zero |
| OfxImportFacts.TxnLineCount | ofximport.py:93-114 | one line plus one per allocation, tag and property |
| OfxImportFacts.AllocationLineAt | ofximport.py:100-106 | line i of the allocation block is allocation i's line |

## Left out

- File reading (`LineReader`, `open`, the iteration over the file) and `shlex.split`. The parser takes a sequence of lines, each with its raw text (for the indentation test) and its tokens.
- `datetime.strptime`, `strftime` and `pipes.quote` are foreign calls and become function parameters. `Decimal`, `cents_from_decimal` and `cents_to_decimal` are not modelled.
- All printing, as well as cmdln, argparse, OfxParser and the configuration file. The reports return their rows. `print_txn` returns its lines. The `"%10s"` column formatting of the register rows is not modelled.
- `do_balance` without names prints the dictionary in hash order. The model returns the map and states nothing about that order.
- `print_txn`'s allocations and properties are dictionaries in the source. The model takes them as sequences in the order the dictionary yields them.
- `parse_date_or_raise` (parser.py:42-45) is never called, so it is not modelled.
- ParseError's default message "parsing failed" only appears on handler errors, and those surface as IndexError. It is therefore not modelled.
- `TransferTransaction` is not modelled: it calls `super(IncomeTransaction, self)` at ledger.py:47 and fails on construction.
- These cannot run as written and are left out:
  - `parser.Parser(self.ledger)` at breadtrail.py:25;
  - `p.parse()` with no file name at ofximport.py:138;
  - `ofx_txn_to_ledger_txn` (`ImportedTransaction` and `account` are undefined, ofximport.py:72);
  - `finalize_ledger_txn` (`args` global, undefined `titlecase_str`);
  - the three-argument call of `print_txn` at ofximport.py:159.
- The class attributes of `Parser` (parser.py:31-33) are shared by every instance in Python. The model gives each parser its own `lastCommand` and `ledger`.
- The module globals `txn_count_imported` and `txn_count_new` become the fields of an `ImportCounts` object.
- filter.py and import_filter.py (regex rewrite tables), config.py and setup.py are not part of this model.
- LedgerParser.Parser.Parse: weaker than a full description of the ledger after the whole file. It states that transactions are only appended, where errors point, and that the transaction open at the end balances. The effect of each line is stated by ParseLine and the handler methods.
- LedgerParser.Parser.ParseLine: for a line dispatched to a handler, it states the frame facts only (transactions appended, the open transaction untouched by unindented lines). It does not repeat each handler's result, which the handler's own contract states.
- LedgerParser.Parser.RunHandler: states only the facts common to all four handlers. Each handler's own contract states its exact effect.
