/**
 * The command parser of parser.py: it reads pre-split lines, runs one
 * handler per line and builds up its ledger in place.
 */
module LedgerParser {
  import opened Wrappers
  import opened TypeUtils
  import opened LedgerModel
  import opened Allocations

  /** One input line: its raw text (for the indentation test) and its shlex tokens. */
  datatype InputLine = InputLine(raw: string, tokens: seq<string>)

  /** A line that starts with a space or a tab continues the previous command. */
  predicate Indented(raw: string): (b: bool)
    ensures b <==> |raw| > 0 && (raw[0] == ' ' || raw[0] == '\t')
    ensures b ==> IsSpace(raw[0])
  {
    |raw| > 0 && (raw[0] == ' ' || raw[0] == '\t')
  }

  /** What `last_command` holds: nothing, or the object the last top-level line made. */
  datatype Command =
    | NoCommand
    | AccountCmd(account: Account)
    | CategoryCmd(category: Category)
    | TxnCmd(txn: Transaction)

  /** The handlers the two dispatch tables name. */
  datatype Handler = AddAccount | AddCategory | Allocate | CategoryNoOp

  /** `commands`: the top-level keywords. */
  const Commands: map<string, Handler> := map["account" := AddAccount, "category" := AddCategory]

  /** `continuation_commands`: the keywords of an indented line; goal and budget do nothing. */
  const ContinuationCommands: map<string, Handler> :=
    map["allocate" := Allocate, "goal" := CategoryNoOp, "goal:" := CategoryNoOp,
        "budget" := CategoryNoOp, "budget:" := CategoryNoOp]

  /** The words allowed between the amount and the category of an allocate line. */
  const Connectors: set<string> := {"to", "into", "as"}

  /** What the line loop decides to do with one line, before any handler runs. */
  datatype Action =
    | Blank
    | NewTransaction(date: DateTime)
    | Dispatch(handler: Handler)
    | Property
    | Reject(msg: string)

  /** True when `s` ends with a colon (`str.endswith(':')`). */
  predicate EndsWithColon(s: string) {
    |s| > 0 && s[|s| - 1] == ':'
  }

  /**
   * The branch of the line loop a line takes. `hasCommand` says whether
   * `last_command` is set; the keyword is the lowercased first token.
   */
  function LineAction(line: InputLine, hasCommand: bool, strptime: (string, DateFormat) -> Option<DateTime>): (a: Action)
    ensures a == Blank <==> line.tokens == []
    ensures a.NewTransaction? ==> !Indented(line.raw) && DatetimeFromStr(Lower(line.tokens[0]), strptime) == Some(a.date)
    ensures a.Dispatch? ==> line.tokens != [] && var cmd := Lower(line.tokens[0]);
      if Indented(line.raw) then cmd in ContinuationCommands && ContinuationCommands[cmd] == a.handler
      else cmd in Commands && Commands[cmd] == a.handler
    ensures a.Property? ==> Indented(line.raw) && hasCommand && EndsWithColon(Lower(line.tokens[0]))
    // The converse, one clause per branch of the line loop.
    ensures line.tokens != [] && !Indented(line.raw) ==> var cmd := Lower(line.tokens[0]);
      match DatetimeFromStr(cmd, strptime)
      case Some(d) => a == NewTransaction(d)
      case None =>
        if cmd in Commands then a == Dispatch(Commands[cmd])
        else a == Reject("unrecognized command: '" + cmd + "'.")
    ensures line.tokens != [] && Indented(line.raw) && !hasCommand ==>
      a == Reject("continuation command before first transaction.")
    ensures line.tokens != [] && Indented(line.raw) && hasCommand ==> var cmd := Lower(line.tokens[0]);
      if cmd in ContinuationCommands then a == Dispatch(ContinuationCommands[cmd])
      else if EndsWithColon(cmd) then a == Property
      else a == Reject("unrecognized continuation command: '" + cmd + "'.")
  {
    if line.tokens == [] then Blank
    else
      var cmd := Lower(line.tokens[0]);
      if !Indented(line.raw) then
        match DatetimeFromStr(cmd, strptime)
        case Some(d) => NewTransaction(d)
        case None =>
          if cmd in Commands then Dispatch(Commands[cmd])
          else Reject("unrecognized command: '" + cmd + "'.")
      else if !hasCommand then Reject("continuation command before first transaction.")
      else if cmd in ContinuationCommands then Dispatch(ContinuationCommands[cmd])
      else if EndsWithColon(cmd) then Property
      else Reject("unrecognized continuation command: '" + cmd + "'.")
  }

  /**
   * parse_amount_or_raise: cents_from_str's ValueError passes through, and an
   * amount of 0 is rejected because the source tests its truth value.
   */
  function ParseAmountOrRaise(s: string): (r: Result<int, Failure>)
    ensures r.Ok? <==> CentsFromStr(s).Ok? && CentsFromStr(s).value != 0
    ensures r.Ok? ==> r.value > 0 && r.value == CentsFromStr(s).value
    ensures CentsFromStr(s) == Ok(0) ==> r == Err(IndexError)
    ensures CentsFromStr(s).Err? ==> r == Err(ValueError(CentsFromStr(s).error))
    ensures r.Err? ==> !r.error.ParseError?
  {
    match CentsFromStr(s)
    case Err(e) => Err(ValueError(e))
    case Ok(a) => if a != 0 then Ok(a) else Err(IndexError)
  }

  /** The transaction kind `tokens[2].lower()` selects: 'into' or 'from'. */
  function TransactionKind(word: string): (k: Option<TxnKind>)
    ensures k == Some(Income) <==> Lower(word) == "into"
    ensures k == Some(Expenditure) <==> Lower(word) == "from"
  {
    var w := Lower(word);
    if w == "into" then Some(Income)
    else if w == "from" then Some(Expenditure)
    else None
  }

  /** The property key: the first token with one trailing colon removed. */
  function PropertyKey(key: string): (k: string)
    ensures EndsWithColon(key) ==> k + ":" == key
    ensures !EndsWithColon(key) ==> k == key
  {
    if EndsWithColon(key) then key[..|key| - 1] else key
  }

  /** The amount and category name an allocate line asks for. */
  datatype AllocRequest = AllocRequest(amount: Option<int>, category: string)

  /**
   * The token checks of parse_transaction_allocate, in the source's order:
   * the token count, then the amount, then the connector.
   */
  function AllocationRequest(tokens: seq<string>): (r: Result<AllocRequest, Failure>)
    ensures |tokens| != 3 && |tokens| != 4 ==> r == Err(IndexError)
    ensures r.Ok? ==> && (|tokens| == 3 || |tokens| == 4)
                      && tokens[|tokens| - 2] in Connectors
                      && r.value.category == tokens[|tokens| - 1]
    ensures r.Ok? ==> (r.value.amount.None? <==> |tokens| == 3 || tokens[1] == "all" || tokens[1] == "remainder")
    ensures r.Ok? && r.value.amount.Some? ==> ParseAmountOrRaise(tokens[1]) == Ok(r.value.amount.value)
    ensures ((|tokens| == 3 || |tokens| == 4) && tokens[|tokens| - 2] !in Connectors
             && (|tokens| == 3 || tokens[1] == "all" || tokens[1] == "remainder" || ParseAmountOrRaise(tokens[1]).Ok?))
            ==> r == Err(IndexError)
    ensures (|tokens| == 4 && tokens[1] != "all" && tokens[1] != "remainder" && ParseAmountOrRaise(tokens[1]).Err?)
            ==> r == Err(ParseAmountOrRaise(tokens[1]).error)
    ensures ((|tokens| == 3 || |tokens| == 4) && tokens[|tokens| - 2] in Connectors
             && (|tokens| == 3 || tokens[1] == "all" || tokens[1] == "remainder" || ParseAmountOrRaise(tokens[1]).Ok?))
            ==> r.Ok?
    ensures r.Err? ==> !r.error.ParseError?
  {
    if |tokens| == 4 then
      var amount :-
        if tokens[1] == "all" || tokens[1] == "remainder" then Ok(None)
        else match ParseAmountOrRaise(tokens[1])
          case Ok(a) => Ok(Some(a))
          case Err(e) => Err(e);
      if tokens[2] in Connectors then Ok(AllocRequest(amount, tokens[3])) else Err(IndexError)
    else if |tokens| == 3 then
      if tokens[1] in Connectors then Ok(AllocRequest(None, tokens[2])) else Err(IndexError)
    else Err(IndexError)
  }

  /**
   * Parser: the command being continued, and the ledger being built (one
   * parser instance holds what the source keeps as class attributes).
   */
  class Parser {
    var lastCommand: Command
    const ledger: Ledger
    /** datetime.strptime, which this model takes as given. */
    const strptime: (string, DateFormat) -> Option<DateTime>

    predicate Valid()
      reads this, ledger
    {
      ledger.Valid()
    }

    /** The transaction a continuation line may change, if one is open. */
    function OpenTxns(): set<Transaction>
      reads this
    {
      if lastCommand.TxnCmd? then {lastCommand.txn} else {}
    }

    /** A parser with no command open and a fresh, empty ledger. */
    constructor (strptime: (string, DateFormat) -> Option<DateTime>)
      ensures Valid() && fresh(ledger)
      ensures lastCommand == NoCommand && this.strptime == strptime
      ensures ledger.accounts == map[] && ledger.transactions == []
      ensures ledger.categories.Keys == {"unallocated"}
    {
      ledger := new Ledger();
      lastCommand := NoCommand;
      this.strptime := strptime;
    }

    /**
     * parse_add_account: two or three tokens; the account is stored under
     * tokens[1], replacing any account of that name, and becomes the open
     * command.
     */
    method ParseAddAccount(tokens: seq<string>) returns (r: Outcome<Failure>)
      requires Valid()
      modifies this, ledger
      ensures Valid()
      ensures r == Pass || r == Fail(IndexError)
      ensures r.Fail? <==> |tokens| < 2 || |tokens| > 3
      ensures r.Fail? ==> unchanged(this) && unchanged(ledger)
      ensures r.Pass? ==> && 2 <= |tokens| <= 3
                          && lastCommand.AccountCmd? && fresh(lastCommand.account)
                          && lastCommand.account.name == tokens[1]
                          && lastCommand.account.description == (if |tokens| == 3 then Some(tokens[2]) else None)
                          && ledger.accounts == old(ledger.accounts)[tokens[1] := lastCommand.account]
                          && ledger.categories == old(ledger.categories)
                          && ledger.transactions == old(ledger.transactions)
    {
      if |tokens| < 2 || |tokens| > 3 {
        return Fail(IndexError);
      }
      var name := tokens[1];
      var account := new Account(name, if |tokens| == 3 then Some(tokens[2]) else None);
      ledger.accounts := ledger.accounts[name := account];
      lastCommand := AccountCmd(account);
      r := Pass;
    }

    /**
     * parse_add_category: two or three tokens; the category is stored under
     * tokens[1], replacing any category of that name ('unallocated'
     * included), and becomes the open command.
     */
    method ParseAddCategory(tokens: seq<string>) returns (r: Outcome<Failure>)
      requires Valid()
      modifies this, ledger
      ensures Valid()
      ensures r == Pass || r == Fail(IndexError)
      ensures r.Fail? <==> |tokens| < 2 || |tokens| > 3
      ensures r.Fail? ==> unchanged(this) && unchanged(ledger)
      ensures r.Pass? ==> && 2 <= |tokens| <= 3
                          && lastCommand.CategoryCmd? && fresh(lastCommand.category)
                          && lastCommand.category.name == tokens[1]
                          && lastCommand.category.description == (if |tokens| == 3 then Some(tokens[2]) else None)
                          && lastCommand.category.goal == None
                          && ledger.categories == old(ledger.categories)[tokens[1] := lastCommand.category]
                          && ledger.accounts == old(ledger.accounts)
                          && ledger.transactions == old(ledger.transactions)
    {
      if |tokens| < 2 || |tokens| > 3 {
        return Fail(IndexError);
      }
      var name := tokens[1];
      var cat := new Category(name, if |tokens| == 3 then Some(tokens[2]) else None);
      ledger.categories := ledger.categories[name := cat];
      lastCommand := CategoryCmd(cat);
      r := Pass;
    }

    /**
     * parse_category_goal and parse_category_budget: an error outside a
     * category, and otherwise nothing at all.
     */
    method ParseCategorySubcommand(tokens: seq<string>) returns (r: Outcome<Failure>)
      ensures r == Pass <==> lastCommand.CategoryCmd?
      ensures r.Fail? ==> r == Fail(IndexError)
    {
      if !lastCommand.CategoryCmd? {
        return Fail(IndexError);
      }
      r := Pass;
    }

    /**
     * parse_transaction: exactly five tokens, a valid non-zero amount, a
     * defined account and 'into' or 'from', checked in that order; the new
     * transaction carries tokens[4] as its description, goes at the end of
     * the ledger and becomes the open command.
     */
    method ParseTransaction(date: DateTime, tokens: seq<string>) returns (r: Outcome<Failure>)
      requires Valid()
      modifies this, ledger
      ensures Valid()
      ensures |tokens| != 5 ==> r == Fail(IndexError)
      ensures |tokens| == 5 && ParseAmountOrRaise(tokens[1]).Err? ==> r == Fail(ParseAmountOrRaise(tokens[1]).error)
      ensures (|tokens| == 5 && ParseAmountOrRaise(tokens[1]).Ok?
               && (tokens[3] !in old(ledger.accounts) || TransactionKind(tokens[2]).None?)) ==> r == Fail(IndexError)
      ensures r.Fail? ==> unchanged(this) && unchanged(ledger) && !r.error.ParseError?
      ensures (|tokens| == 5 && ParseAmountOrRaise(tokens[1]).Ok? && tokens[3] in old(ledger.accounts)
               && TransactionKind(tokens[2]).Some?) ==> r == Pass
      ensures r.Pass? ==> && |tokens| == 5
                          && ParseAmountOrRaise(tokens[1]).Ok?
                          && tokens[3] in old(ledger.accounts)
                          && TransactionKind(tokens[2]).Some?
                          && lastCommand.TxnCmd? && fresh(lastCommand.txn)
                          && ledger.transactions == old(ledger.transactions) + [lastCommand.txn]
                          && ledger.accounts == old(ledger.accounts)
                          && ledger.categories == old(ledger.categories)
      ensures r.Pass? ==> var t := lastCommand.txn;
                          && t.kind == TransactionKind(tokens[2]).value
                          && t.amount == ParseAmountOrRaise(tokens[1]).value
                          && t.date == date
                          && t.account == old(ledger.accounts)[tokens[3]]
                          && t.description == Some(tokens[4])
                          && !t.projected && t.properties == map[] && t.allocations == []
    {
      if |tokens| != 5 {
        return Fail(IndexError);
      }
      var amount := ParseAmountOrRaise(tokens[1]);
      if amount.Err? {
        return Fail(amount.error);
      }
      if tokens[3] !in ledger.accounts {
        return Fail(IndexError);
      }
      var account := ledger.accounts[tokens[3]];
      var kind := TransactionKind(tokens[2]);
      if kind.None? {
        return Fail(IndexError);
      }
      AddTransaction(kind.value, amount.value, date, account, tokens[4]);
      r := Pass;
    }

    /** The accepted transaction line: a new transaction, appended and now open. */
    method AddTransaction(kind: TxnKind, amount: int, date: DateTime, account: Account, description: string)
      requires Valid()
      modifies this, ledger
      ensures Valid()
      ensures lastCommand.TxnCmd? && fresh(lastCommand.txn)
      ensures ledger.transactions == old(ledger.transactions) + [lastCommand.txn]
      ensures ledger.accounts == old(ledger.accounts) && ledger.categories == old(ledger.categories)
      ensures var t := lastCommand.txn;
        && t.kind == kind && t.amount == amount && t.date == date && t.account == account
        && t.description == Some(description)
        && !t.projected && t.properties == map[] && t.allocations == []
    {
      var t := new Transaction(kind, amount, date, account);
      t.description := Some(description);
      ledger.transactions := ledger.transactions + [t];
      lastCommand := TxnCmd(t);
    }

    /**
     * parse_transaction_allocate: outside a transaction, with a malformed
     * line or an undefined category it fails; otherwise the allocation is
     * appended, unchecked against the transaction's amount.
     */
    method ParseTransactionAllocate(tokens: seq<string>) returns (r: Outcome<Failure>)
      requires Valid()
      modifies OpenTxns()
      ensures !lastCommand.TxnCmd? ==> r == Fail(IndexError)
      ensures r.Fail? ==> unchanged(OpenTxns())
      ensures lastCommand.TxnCmd? ==> var t := lastCommand.txn; var req := AllocationRequest(tokens);
        && (req.Err? ==> r == Fail(req.error))
        && (req.Ok? && req.value.category !in ledger.categories ==> r == Fail(IndexError))
        && (req.Ok? && req.value.category in ledger.categories ==>
              && r == Pass
              && t.allocations == old(t.allocations) + [Allocation(req.value.amount, ledger.categories[req.value.category])]
              && t.properties == old(t.properties)
              && t.description == old(t.description)
              && t.projected == old(t.projected))
    {
      if !lastCommand.TxnCmd? {
        return Fail(IndexError);
      }
      var req := AllocationRequest(tokens);
      if req.Err? {
        return Fail(req.error);
      }
      if req.value.category !in ledger.categories {
        return Fail(IndexError);
      }
      var t := lastCommand.txn;
      t.allocations := t.allocations + [Allocation(req.value.amount, ledger.categories[req.value.category])];
      r := Pass;
    }

    /**
     * parse_transaction_property: inside a transaction, exactly two tokens;
     * the value is stored under the raw first token less its colon.
     */
    method ParseTransactionProperty(tokens: seq<string>) returns (r: Outcome<Failure>)
      modifies OpenTxns()
      ensures r == Pass || r == Fail(IndexError)
      ensures r.Fail? <==> !lastCommand.TxnCmd? || |tokens| != 2
      ensures r.Fail? ==> unchanged(OpenTxns())
      ensures r.Pass? ==> && lastCommand.TxnCmd? && |tokens| == 2
                          && var t := lastCommand.txn;
                          && t.properties == old(t.properties)[PropertyKey(tokens[0]) := tokens[1]]
                          && t.allocations == old(t.allocations)
                          && t.description == old(t.description)
                          && t.projected == old(t.projected)
    {
      if !lastCommand.TxnCmd? || |tokens| != 2 {
        return Fail(IndexError);
      }
      var t := lastCommand.txn;
      t.properties := t.properties[PropertyKey(tokens[0]) := tokens[1]];
      r := Pass;
    }

    /**
     * finalize_transaction: one pass totals the explicit amounts and finds
     * the remainder allocation, then the shortfall is filled in. The new
     * allocations are those of Finalize, and on success they balance.
     */
    method FinalizeTransaction(t: Transaction) returns (r: Outcome<Failure>)
      requires Valid()
      modifies t
      ensures var f := Finalize(old(t.allocations), t.amount, ledger.categories["unallocated"]);
        && (f.Err? ==> r == Fail(f.error) && t.allocations == old(t.allocations))
        && (f.Ok? ==> r == Pass && t.allocations == f.value)
      ensures r.Pass? ==> ExplicitTotal(t.allocations) == t.amount && NoneCount(t.allocations) <= 1
      ensures t.properties == old(t.properties) && t.description == old(t.description)
      ensures t.projected == old(t.projected)
    {
      var allocs := t.allocations;
      var unallocated := ledger.categories["unallocated"];
      var total, remainder, ok := ScanAllocations(allocs);
      if !ok {
        return Fail(IndexError);
      }
      if total > t.amount {
        return Fail(IndexError);
      }
      if total < t.amount {
        var shortfall := t.amount - total;
        match remainder
        case Some(k) =>
          t.allocations := allocs[k := Allocation(Some(shortfall), allocs[k].category)];
        case None =>
          t.allocations := allocs + [Allocation(Some(shortfall), unallocated)];
      }
      assert Finalize(allocs, t.amount, unallocated) == Ok(t.allocations);
      FinalizeBalances(allocs, t.amount, unallocated);
      r := Pass;
    }

    /**
     * The loop of finalize_transaction: the sum of the explicit amounts and
     * the position of the remainder allocation; a second remainder stops it
     * (not ok).
     */
    static method ScanAllocations(allocs: seq<Allocation>) returns (total: int, remainder: Option<nat>, ok: bool)
      ensures ok <==> NoneCount(allocs) <= 1
      ensures ok ==> total == ExplicitTotal(allocs) && remainder == FirstNone(allocs)
    {
      total, remainder, ok := 0, None, true;
      var i := 0;
      while i < |allocs|
        invariant i <= |allocs|
        invariant total == ExplicitTotal(allocs[..i])
        invariant remainder == FirstNone(allocs[..i])
        invariant NoneCount(allocs[..i]) <= 1
      {
        assert allocs[..i + 1][..i] == allocs[..i];
        var alloc := allocs[i];
        if alloc.amount == None {
          if remainder.Some? {
            NoneCountPrefix(allocs, i + 1);
            return total, remainder, false;
          }
          remainder := Some(i);
        } else {
          total := total + alloc.amount.value;
        }
        i := i + 1;
      }
      assert allocs[..i] == allocs;
    }

    /**
     * A token-less line: an open transaction is finalized, and then the
     * command is closed.
     */
    method CloseCommand() returns (r: Outcome<Failure>)
      requires Valid()
      modifies this, OpenTxns()
      ensures Valid()
      ensures r.Pass? ==> lastCommand == NoCommand
      ensures r.Fail? ==> lastCommand == old(lastCommand) && r.error == IndexError
      ensures !old(lastCommand).TxnCmd? ==> r == Pass
      ensures old(lastCommand).TxnCmd? ==> var t := old(lastCommand).txn;
        var f := Finalize(old(t.allocations), t.amount, ledger.categories["unallocated"]);
        && (f.Err? ==> r == Fail(f.error) && t.allocations == old(t.allocations))
        && (f.Ok? ==> r == Pass && t.allocations == f.value)
    {
      if lastCommand.TxnCmd? {
        r := FinalizeTransaction(lastCommand.txn);
        if r.Fail? {
          return;
        }
      } else {
        r := Pass;
      }
      lastCommand := NoCommand;
    }

    /** The handler a dispatch table names, run on the line's tokens. */
    method RunHandler(handler: Handler, tokens: seq<string>) returns (r: Outcome<Failure>)
      requires Valid()
      modifies this, ledger, OpenTxns()
      ensures Valid()
      ensures ledger.transactions == old(ledger.transactions)
      ensures lastCommand.TxnCmd? ==> lastCommand == old(lastCommand)
      ensures r.Fail? ==> !r.error.ParseError?
      ensures (handler == AddAccount || handler == AddCategory) && old(lastCommand).TxnCmd?
        ==> unchanged(old(lastCommand).txn)
    {
      match handler
      case AddAccount =>
        r := ParseAddAccount(tokens);
      case AddCategory =>
        r := ParseAddCategory(tokens);
      case Allocate =>
        r := ParseTransactionAllocate(tokens);
      case CategoryNoOp =>
        r := ParseCategorySubcommand(tokens);
    }

    /**
     * One pass of the line loop. A blank line finalizes an open transaction
     * and closes the command; a rejected line raises ParseError with this
     * line's number; an unindented line never touches the transaction that
     * was open before it.
     */
    method ParseLine(filename: string, lineNo: nat, line: InputLine) returns (r: Outcome<Failure>)
      requires Valid()
      modifies this, ledger, OpenTxns()
      ensures Valid()
      ensures old(ledger.transactions) <= ledger.transactions
      ensures lastCommand.TxnCmd? ==> lastCommand == old(lastCommand) || fresh(lastCommand.txn)
      ensures r.Fail? && r.error.ParseError? ==> r.error.filename == filename && r.error.lineNo == lineNo
      ensures var a := LineAction(line, old(lastCommand) != NoCommand, strptime);
        a.Reject? ==> r == Fail(ParseError(filename, lineNo, a.msg)) && unchanged(this) && unchanged(ledger)
      ensures line.tokens == [] ==> && ledger.transactions == old(ledger.transactions)
                                    && (r.Pass? ==> lastCommand == NoCommand)
                                    && (!old(lastCommand).TxnCmd? ==> r == Pass)
      ensures line.tokens == [] && old(lastCommand).TxnCmd? ==> var t := old(lastCommand).txn;
        var f := Finalize(old(t.allocations), t.amount, old(ledger.categories)["unallocated"]);
        && (f.Err? ==> r == Fail(f.error))
        && (f.Ok? ==> r == Pass && t.allocations == f.value)
      ensures line.tokens != [] && !Indented(line.raw) && old(lastCommand).TxnCmd? ==> unchanged(old(lastCommand).txn)
    {
      var action := LineAction(line, lastCommand != NoCommand, strptime);
      match action
      case Blank =>
        r := CloseCommand();
      case NewTransaction(date) =>
        r := ParseTransaction(date, line.tokens);
      case Dispatch(handler) =>
        r := RunHandler(handler, line.tokens);
      case Property =>
        r := ParseTransactionProperty(line.tokens);
      case Reject(msg) =>
        r := Fail(ParseError(filename, lineNo, msg));
    }

    /**
     * parse: the lines in order, numbered from 1, stopping at the first
     * error; a transaction still open at the end is finalized. Transactions
     * are only ever appended, and after a successful parse the open
     * transaction balances.
     */
    method Parse(filename: string, lines: seq<InputLine>) returns (r: Outcome<Failure>)
      requires Valid()
      modifies this, ledger, OpenTxns()
      ensures Valid()
      ensures old(ledger.transactions) <= ledger.transactions
      ensures r.Fail? && r.error.ParseError? ==> r.error.filename == filename && 1 <= r.error.lineNo <= |lines|
      ensures r.Pass? && lastCommand.TxnCmd? ==>
        ExplicitTotal(lastCommand.txn.allocations) == lastCommand.txn.amount
        && NoneCount(lastCommand.txn.allocations) <= 1
    {
      var n := 0;
      while n < |lines|
        invariant n <= |lines|
        invariant Valid()
        invariant old(ledger.transactions) <= ledger.transactions
        invariant lastCommand.TxnCmd? ==> lastCommand == old(lastCommand) || fresh(lastCommand.txn)
      {
        r := ParseLine(filename, n + 1, lines[n]);
        if r.Fail? {
          return;
        }
        n := n + 1;
      }
      if lastCommand.TxnCmd? {
        r := FinalizeTransaction(lastCommand.txn);
      } else {
        r := Pass;
      }
    }
  }
}

/** How the line loop separates top-level lines from continuation lines. */
module LedgerParserFacts {
  import opened Wrappers
  import opened TypeUtils
  import opened LedgerParser

  /**
   * Only an unindented line can start a transaction or define an account or
   * category; only an indented one can allocate, set a goal or a property.
   */
  lemma IndentationSeparatesCommands(line: InputLine, hasCommand: bool, strptime: (string, DateFormat) -> Option<DateTime>)
    ensures var a := LineAction(line, hasCommand, strptime);
      && (Indented(line.raw) ==> !a.NewTransaction? && a != Dispatch(AddAccount) && a != Dispatch(AddCategory))
      && (!Indented(line.raw) ==> !a.Property? && a != Dispatch(Allocate) && a != Dispatch(CategoryNoOp))
  {
  }

  /** An indented line with nothing open is rejected whatever it says. */
  lemma ContinuationNeedsCommand(line: InputLine, strptime: (string, DateFormat) -> Option<DateTime>)
    requires line.tokens != [] && Indented(line.raw)
    ensures LineAction(line, false, strptime) == Reject("continuation command before first transaction.")
  {
  }

  /** A keyword of the continuation table wins over the property form, so "goal:" is never a property. */
  lemma KeywordBeforeProperty(line: InputLine, strptime: (string, DateFormat) -> Option<DateTime>)
    requires line.tokens != [] && Indented(line.raw)
    requires Lower(line.tokens[0]) in ContinuationCommands
    ensures LineAction(line, true, strptime) == Dispatch(ContinuationCommands[Lower(line.tokens[0])])
  {
  }
}
