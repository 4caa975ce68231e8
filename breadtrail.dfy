/**
 * The computations behind the balance, register and envelope-register
 * reports of breadtrail.py. Each report returns the lines or rows it
 * would print.
 */
module Reports {
  import opened Wrappers
  import opened TypeUtils
  import opened LedgerModel

  /** The exceptions the reports raise, and the report that stops at an unknown account. */
  datatype ReportError =
    | KeyError(key: string)
    | UnknownAccountName(name: string)
    | NameError(name: string)
    | TypeError

  // ---------------------------------------------------------------- balance

  /** The sum of signed_amount() over the transactions filed under account name `name`. */
  function SumFor(txns: seq<Transaction>, name: string): int {
    if txns == [] then 0
    else
      var t := txns[|txns| - 1];
      SumFor(txns[..|txns| - 1], name) + (if t.account.name == name then t.SignedAmount() else 0)
  }

  /** Every transaction's account name is among `keys`. */
  predicate AllFiled(txns: seq<Transaction>, keys: set<string>) {
    forall j :: 0 <= j < |txns| ==> txns[j].account.name in keys
  }

  /**
   * The balances dictionary of do_balance: a zero for every account, then
   * each transaction's signed amount added under its account's name. A
   * transaction whose account name is no key raises KeyError.
   */
  method ComputeBalances(ledger: Ledger) returns (r: Result<map<string, int>, ReportError>)
    ensures r.Ok? <==> AllFiled(ledger.transactions, ledger.accounts.Keys)
    ensures r.Ok? ==> && r.value.Keys == ledger.accounts.Keys
                      && forall n :: n in r.value ==> r.value[n] == SumFor(ledger.transactions, n)
    ensures r.Err? ==> exists j :: && 0 <= j < |ledger.transactions|
                                   && AllFiled(ledger.transactions[..j], ledger.accounts.Keys)
                                   && ledger.transactions[j].account.name !in ledger.accounts
                                   && r.error == KeyError(ledger.transactions[j].account.name)
  {
    var txns := ledger.transactions;
    var balances := map n | n in ledger.accounts :: 0;
    var i := 0;
    while i < |txns|
      invariant i <= |txns|
      invariant balances.Keys == ledger.accounts.Keys
      invariant forall n :: n in balances ==> balances[n] == SumFor(txns[..i], n)
      invariant AllFiled(txns[..i], ledger.accounts.Keys)
    {
      assert txns[..i + 1][..i] == txns[..i];
      var t := txns[i];
      if t.account.name !in balances {
        return Err(KeyError(t.account.name));
      }
      balances := balances[t.account.name := balances[t.account.name] + t.SignedAmount()];
      i := i + 1;
    }
    assert txns[..i] == txns;
    r := Ok(balances);
  }

  /** The line do_balance prints for one name: the balance, or the error for an unknown name. */
  datatype BalanceRow = Known(name: string, amount: int) | Unknown(name: string)

  /**
   * do_balance with account names: one row per name, in the order given,
   * stopping after the error row for the first unknown name.
   */
  method NamedBalances(balances: map<string, int>, names: seq<string>) returns (rows: seq<BalanceRow>)
    ensures |rows| <= |names|
    ensures forall j :: 0 <= j < |rows| ==> rows[j].name == names[j]
    ensures forall j :: 0 <= j < |rows| ==> (rows[j].Unknown? <==> names[j] !in balances)
    ensures forall j :: 0 <= j < |rows| && names[j] in balances ==> rows[j].amount == balances[names[j]]
    ensures forall j :: 0 <= j < |rows| - 1 ==> names[j] in balances
    ensures |rows| < |names| ==> 0 < |rows| && names[|rows| - 1] !in balances
  {
    rows := [];
    var i := 0;
    while i < |names|
      invariant i <= |names| && |rows| == i
      invariant forall j :: 0 <= j < i ==> names[j] in balances && rows[j] == Known(names[j], balances[names[j]])
    {
      var name := names[i];
      if name !in balances {
        rows := rows + [Unknown(name)];
        return;
      }
      rows := rows + [Known(name, balances[name])];
      i := i + 1;
    }
  }

  // --------------------------------------------------------------- registers

  /** One amount of a register, with the date and description printed beside it. */
  datatype Entry = Entry(date: DateTime, amount: int, description: string)

  /** A register row: date, amount, running balance, description. */
  datatype RegisterRow = RegisterRow(date: DateTime, amount: int, balance: int, description: string)

  /** The sum of the amounts. */
  function Total(s: seq<Entry>): int {
    if s == [] then 0 else Total(s[..|s| - 1]) + s[|s| - 1].amount
  }

  /** The rows of a register over `s`: each entry with the total up to and including it. */
  function RunningRows(s: seq<Entry>): (rows: seq<RegisterRow>)
    ensures |rows| == |s|
  {
    if s == [] then []
    else
      var e := s[|s| - 1];
      RunningRows(s[..|s| - 1]) + [RegisterRow(e.date, e.amount, Total(s), e.description)]
  }

  /** A register grows by one row per entry, carrying the new total. */
  lemma AppendEntry(s: seq<Entry>, e: Entry)
    ensures Total(s + [e]) == Total(s) + e.amount
    ensures RunningRows(s + [e]) == RunningRows(s) + [RegisterRow(e.date, e.amount, Total(s) + e.amount, e.description)]
  {
    assert (s + [e])[..|s|] == s;
  }

  /** `t.description or ''`. */
  function DescText(d: Option<string>): string {
    match d
    case Some(s) => s
    case None => ""
  }

  /** The entries of do_register: the transactions of exactly this account object, signed. */
  function AccountEntries(txns: seq<Transaction>, acc: Account): seq<Entry>
    reads txns
  {
    if txns == [] then []
    else
      var t := txns[|txns| - 1];
      AccountEntries(txns[..|txns| - 1], acc)
        + (if t.account == acc then [Entry(t.date, t.SignedAmount(), DescText(t.description))] else [])
  }

  /**
   * do_register: an unknown account name gives the error and no rows;
   * otherwise the rows of the account's transactions, in ledger order, with
   * the running balance.
   */
  method Register(ledger: Ledger, name: string) returns (r: Result<seq<RegisterRow>, ReportError>)
    ensures name !in ledger.accounts ==> r == Err(UnknownAccountName(name))
    ensures name in ledger.accounts ==>
      r == Ok(RunningRows(AccountEntries(ledger.transactions, ledger.accounts[name])))
  {
    if name !in ledger.accounts {
      return Err(UnknownAccountName(name));
    }
    var account := ledger.accounts[name];
    var txns := ledger.transactions;
    var rows: seq<RegisterRow> := [];
    var balance := 0;
    var i := 0;
    while i < |txns|
      invariant i <= |txns|
      invariant Tracks(rows, balance, AccountEntries(txns[..i], account))
    {
      var t := txns[i];
      AccountEntriesStep(txns, i, account);
      if t.account == account {
        var amount := t.amount;
        if t.kind == Expenditure {
          amount := -amount;
        }
        assert amount == t.SignedAmount();
        TracksStep(rows, balance, AccountEntries(txns[..i], account), Entry(t.date, amount, DescText(t.description)));
        balance := balance + amount;
        rows := rows + [RegisterRow(t.date, amount, balance, DescText(t.description))];
      }
      i := i + 1;
    }
    assert txns[..i] == txns;
    r := Ok(rows);
  }

  /** `rows` and `balance` are the register rows and the final balance of the entries `es`. */
  ghost predicate Tracks(rows: seq<RegisterRow>, balance: int, es: seq<Entry>) {
    rows == RunningRows(es) && balance == Total(es)
  }

  /** One more entry: one more row, carrying the new balance. */
  lemma TracksStep(rows: seq<RegisterRow>, balance: int, es: seq<Entry>, e: Entry)
    requires Tracks(rows, balance, es)
    ensures Tracks(rows + [RegisterRow(e.date, e.amount, balance + e.amount, e.description)], balance + e.amount, es + [e])
  {
    AppendEntry(es, e);
  }

  /** One more transaction adds its entry exactly when it is filed under `acc`. */
  lemma AccountEntriesStep(txns: seq<Transaction>, i: nat, acc: Account)
    requires i < |txns|
    ensures var t := txns[i];
      && (t.account == acc ==>
            AccountEntries(txns[..i + 1], acc)
              == AccountEntries(txns[..i], acc) + [Entry(t.date, t.SignedAmount(), DescText(t.description))])
      && (t.account != acc ==> AccountEntries(txns[..i + 1], acc) == AccountEntries(txns[..i], acc))
  {
    assert txns[..i + 1][..i] == txns[..i];
  }

  /** One allocation an envelope register visits, with its transaction's date, sign and description. */
  datatype EnvItem = EnvItem(date: DateTime, factor: int, description: string, amount: Option<int>)

  /** `1 if isinstance(t, IncomeTransaction) else -1`. */
  function Factor(kind: TxnKind): int {
    if kind == Income then 1 else -1
  }

  /** The allocations of one transaction to exactly this category object, in order. */
  function CatItems(allocs: seq<Allocation>, cat: Category, date: DateTime, factor: int, desc: string): seq<EnvItem> {
    if allocs == [] then []
    else
      var a := allocs[|allocs| - 1];
      CatItems(allocs[..|allocs| - 1], cat, date, factor, desc)
        + (if a.category == cat then [EnvItem(date, factor, desc, a.amount)] else [])
  }

  /** The allocations to `cat` over all transactions, in transaction then allocation order. */
  function EnvelopeItems(txns: seq<Transaction>, cat: Category): seq<EnvItem>
    reads txns
  {
    if txns == [] then []
    else
      var t := txns[|txns| - 1];
      EnvelopeItems(txns[..|txns| - 1], cat)
        + CatItems(t.allocations, cat, t.date, Factor(t.kind), DescText(t.description))
  }

  /** Every item carries an amount. */
  predicate AllAmounts(s: seq<EnvItem>) {
    forall j :: 0 <= j < |s| ==> s[j].amount.Some?
  }

  /** The register entry of an item: `a.amount * factor`. */
  function EntryOf(item: EnvItem): Entry {
    Entry(item.date, (match item.amount case Some(v) => v case None => 0) * item.factor, item.description)
  }

  /** EntryOf over a list. */
  function EntriesOf(s: seq<EnvItem>): (es: seq<Entry>)
    ensures |es| == |s|
  {
    if s == [] then [] else EntriesOf(s[..|s| - 1]) + [EntryOf(s[|s| - 1])]
  }

  /** Appending an allocation that is not to `cat` adds no item; one to `cat` adds exactly its item. */
  lemma CatItemsStep(allocs: seq<Allocation>, j: nat, cat: Category, date: DateTime, factor: int, desc: string)
    requires j < |allocs|
    ensures CatItems(allocs[..j + 1], cat, date, factor, desc)
      == CatItems(allocs[..j], cat, date, factor, desc)
         + (if allocs[j].category == cat then [EnvItem(date, factor, desc, allocs[j].amount)] else [])
  {
    assert allocs[..j + 1][..j] == allocs[..j];
  }

  /** The items of a prefix of the allocations are a prefix of the items of all of them. */
  lemma {:induction false} CatItemsPrefix(allocs: seq<Allocation>, j: nat, cat: Category, date: DateTime, factor: int, desc: string)
    requires j <= |allocs|
    ensures CatItems(allocs[..j], cat, date, factor, desc) <= CatItems(allocs, cat, date, factor, desc)
    decreases |allocs|
  {
    if j < |allocs| {
      assert allocs[..|allocs| - 1][..j] == allocs[..j];
      CatItemsPrefix(allocs[..|allocs| - 1], j, cat, date, factor, desc);
    } else {
      assert allocs[..j] == allocs;
    }
  }

  /** The items of a prefix of the transactions are a prefix of the items of all of them. */
  lemma {:induction false} EnvelopeItemsPrefix(txns: seq<Transaction>, i: nat, cat: Category)
    requires i <= |txns|
    ensures EnvelopeItems(txns[..i], cat) <= EnvelopeItems(txns, cat)
    decreases |txns|
  {
    if i < |txns| {
      assert txns[..|txns| - 1][..i] == txns[..i];
      EnvelopeItemsPrefix(txns[..|txns| - 1], i, cat);
    } else {
      assert txns[..i] == txns;
    }
  }

  /**
   * `rows` are the register rows of the first |rows| items, each of which
   * has an amount.
   */
  ghost predicate ShownFor(items: seq<EnvItem>, rows: seq<RegisterRow>) {
    && |rows| <= |items|
    && AllAmounts(items[..|rows|])
    && rows == RunningRows(EntriesOf(items[..|rows|]))
  }

  /** `rows` and `balance` are what the register prints for `seen`, every item of which has an amount. */
  ghost predicate Shown(rows: seq<RegisterRow>, balance: int, seen: seq<EnvItem>) {
    AllAmounts(seen) && Tracks(rows, balance, EntriesOf(seen))
  }

  /** One more item with an amount: one more row, carrying the new balance. */
  lemma RowStep(seen: seq<EnvItem>, rows: seq<RegisterRow>, balance: int, item: EnvItem, amount: int)
    requires Shown(rows, balance, seen)
    requires item.amount.Some? && amount == item.amount.value * item.factor
    ensures Shown(rows + [RegisterRow(item.date, amount, balance + amount, item.description)], balance + amount, seen + [item])
  {
    assert (seen + [item])[..|seen|] == seen;
    assert EntriesOf(seen + [item]) == EntriesOf(seen) + [EntryOf(item)];
    TracksStep(rows, balance, EntriesOf(seen), EntryOf(item));
    assert forall k :: 0 <= k < |seen + [item]| ==> (seen + [item])[k] == if k < |seen| then seen[k] else item;
  }

  /**
   * One allocation of the inner loop of do_envelope_register: an allocation
   * to `cat` with an amount adds its row; one without an amount stops the
   * loop (not ok); any other allocation is skipped.
   */
  method AllocationRow(a: Allocation, cat: Category, date: DateTime, factor: int, desc: string,
                       rows0: seq<RegisterRow>, balance0: int, ghost seen0: seq<EnvItem>)
    returns (rows: seq<RegisterRow>, balance: int, ok: bool, ghost seen: seq<EnvItem>)
    requires Shown(rows0, balance0, seen0)
    ensures ok ==> && seen == seen0 + (if a.category == cat then [EnvItem(date, factor, desc, a.amount)] else [])
                   && Shown(rows, balance, seen)
    ensures !ok ==> && a.category == cat && a.amount.None?
                    && seen == seen0 && rows == rows0 && balance == balance0
  {
    rows, balance, ok, seen := rows0, balance0, true, seen0;
    if a.category == cat {
      var item := EnvItem(date, factor, desc, a.amount);
      if a.amount.None? {
        return rows, balance, false, seen;
      }
      var amount := a.amount.value * factor;
      RowStep(seen0, rows0, balance0, item, amount);
      balance := balance0 + amount;
      rows := rows0 + [RegisterRow(date, amount, balance, desc)];
      seen := seen0 + [item];
    }
  }

  /**
   * The inner loop of do_envelope_register over the allocations of one
   * transaction: a row for each allocation to `cat`, stopping (not ok) at
   * one that has no amount.
   */
  method AllocationRows(t: Transaction, cat: Category, rows0: seq<RegisterRow>, balance0: int, ghost seen0: seq<EnvItem>)
    returns (rows: seq<RegisterRow>, balance: int, ok: bool, ghost seen: seq<EnvItem>)
    requires Shown(rows0, balance0, seen0)
    ensures Shown(rows, balance, seen)
    ensures var items := seen0 + CatItems(t.allocations, cat, t.date, Factor(t.kind), DescText(t.description));
      && seen <= items
      && (ok ==> seen == items)
      && (!ok ==> |seen| < |items| && items[|seen|].amount.None?)
  {
    var factor := if t.kind == Income then 1 else -1;
    var desc := DescText(t.description);
    var allocs := t.allocations;
    rows, balance, ok, seen := rows0, balance0, true, seen0;
    var j := 0;
    while j < |allocs| && ok
      invariant j <= |allocs|
      invariant Shown(rows, balance, seen)
      invariant ok ==> Covers(seen0, seen, allocs, j, cat, t.date, factor, desc)
      invariant !ok ==> 0 < j && Stopped(seen0, seen, allocs, j - 1, cat, t.date, factor, desc)
    {
      ghost var before := seen;
      rows, balance, ok, seen := AllocationRow(allocs[j], cat, t.date, factor, desc, rows, balance, seen);
      CoversStep(seen0, before, seen, allocs, j, cat, t.date, factor, desc, ok);
      j := j + 1;
    }
    if ok {
      assert Covers(seen0, seen, allocs, j, cat, t.date, factor, desc);
      assert allocs[..j] == allocs;
    } else {
      StoppedItems(seen0, seen, allocs, j - 1, cat, t.date, factor, desc);
    }
  }

  /** `seen` is `seen0` followed by the items of the first `j` allocations. */
  ghost predicate Covers(seen0: seq<EnvItem>, seen: seq<EnvItem>, allocs: seq<Allocation>, j: nat,
                         cat: Category, date: DateTime, factor: int, desc: string)
  {
    j <= |allocs| && seen == seen0 + CatItems(allocs[..j], cat, date, factor, desc)
  }

  /** One allocation further: the items seen grow by its item, or the loop stopped at it. */
  lemma CoversStep(seen0: seq<EnvItem>, before: seq<EnvItem>, seen: seq<EnvItem>, allocs: seq<Allocation>, j: nat,
                   cat: Category, date: DateTime, factor: int, desc: string, ok: bool)
    requires j < |allocs| && Covers(seen0, before, allocs, j, cat, date, factor, desc)
    requires ok ==> seen == before + (if allocs[j].category == cat then [EnvItem(date, factor, desc, allocs[j].amount)] else [])
    requires !ok ==> allocs[j].category == cat && allocs[j].amount.None? && seen == before
    ensures ok ==> Covers(seen0, seen, allocs, j + 1, cat, date, factor, desc)
    ensures !ok ==> Stopped(seen0, seen, allocs, j, cat, date, factor, desc)
  {
    CatItemsStep(allocs, j, cat, date, factor, desc);
  }

  /** The loop stopped at allocation `j`, an allocation to `cat` with no amount, having seen the items before it. */
  ghost predicate Stopped(seen0: seq<EnvItem>, seen: seq<EnvItem>, allocs: seq<Allocation>, j: nat,
                          cat: Category, date: DateTime, factor: int, desc: string)
  {
    && j < |allocs| && allocs[j].category == cat && allocs[j].amount.None?
    && seen == seen0 + CatItems(allocs[..j], cat, date, factor, desc)
  }

  /** Where the loop stopped: the items seen are a prefix of all of them, followed by one with no amount. */
  lemma StoppedItems(seen0: seq<EnvItem>, seen: seq<EnvItem>, allocs: seq<Allocation>, j: nat,
                     cat: Category, date: DateTime, factor: int, desc: string)
    requires Stopped(seen0, seen, allocs, j, cat, date, factor, desc)
    ensures var items := seen0 + CatItems(allocs, cat, date, factor, desc);
      seen <= items && |seen| < |items| && items[|seen|].amount.None?
  {
    var item := EnvItem(date, factor, desc, None);
    CatItemsStep(allocs, j, cat, date, factor, desc);
    CatItemsPrefix(allocs, j + 1, cat, date, factor, desc);
    assert seen + [item] == seen0 + CatItems(allocs[..j + 1], cat, date, factor, desc);
    assert seen + [item] <= seen0 + CatItems(allocs, cat, date, factor, desc);
  }

  /**
   * do_envelope_register: an unknown category raises NameError (the source
   * names an undefined `cat_name` there); otherwise one row for each
   * allocation to the category, with the running balance, up to the first
   * allocation that has no amount, where `None * factor` raises TypeError
   * after the earlier rows were printed.
   */
  method EnvelopeRegister(ledger: Ledger, catName: string) returns (rows: seq<RegisterRow>, err: Option<ReportError>)
    ensures catName !in ledger.categories ==> rows == [] && err == Some(NameError("cat_name"))
    ensures catName in ledger.categories ==>
      var items := EnvelopeItems(ledger.transactions, ledger.categories[catName]);
      && ShownFor(items, rows)
      && (err == None <==> |rows| == |items|)
      && (err != None ==> err == Some(TypeError) && items[|rows|].amount.None?)
  {
    if catName !in ledger.categories {
      return [], Some(NameError("cat_name"));
    }
    var ok;
    rows, ok := EnvelopeRows(ledger.transactions, ledger.categories[catName]);
    err := if ok then None else Some(TypeError);
  }

  /**
   * The loop of do_envelope_register over the transactions: the rows up to
   * the first allocation to `cat` without an amount (not ok), or of all of
   * them (ok).
   */
  method EnvelopeRows(txns: seq<Transaction>, cat: Category) returns (rows: seq<RegisterRow>, ok: bool)
    ensures var items := EnvelopeItems(txns, cat);
      && ShownFor(items, rows)
      && (ok <==> |rows| == |items|)
      && (!ok ==> items[|rows|].amount.None?)
  {
    rows, ok := [], true;
    var balance := 0;
    ghost var seen: seq<EnvItem> := [];
    var i := 0;
    while i < |txns| && ok
      invariant i <= |txns|
      invariant Shown(rows, balance, seen)
      invariant ok ==> seen == EnvelopeItems(txns[..i], cat)
      invariant !ok ==> 0 < i && StoppedAt(txns[..i], cat, seen)
    {
      ghost var before := seen;
      rows, balance, ok, seen := AllocationRows(txns[i], cat, rows, balance, seen);
      TransactionStep(txns, i, cat, before, seen, ok);
      i := i + 1;
    }
    if ok {
      assert txns[..i] == txns;
      ShownPrefix(EnvelopeItems(txns, cat), rows, balance, seen);
    } else {
      StoppedInTransaction(txns, i - 1, cat, seen);
      ShownPrefix(EnvelopeItems(txns, cat), rows, balance, seen);
    }
  }

  /** The items seen so far are a proper prefix of the items of `txns`, followed by one without an amount. */
  ghost predicate StoppedAt(txns: seq<Transaction>, cat: Category, seen: seq<EnvItem>)
    reads txns
  {
    var local := EnvelopeItems(txns, cat);
    seen <= local && |seen| < |local| && local[|seen|].amount.None?
  }

  /** What one transaction of the loop leaves behind, in terms of the items of the transactions so far. */
  lemma TransactionStep(txns: seq<Transaction>, i: nat, cat: Category, before: seq<EnvItem>, seen: seq<EnvItem>, ok: bool)
    requires i < |txns| && before == EnvelopeItems(txns[..i], cat)
    requires var t := txns[i];
      var items := before + CatItems(t.allocations, cat, t.date, Factor(t.kind), DescText(t.description));
      && seen <= items
      && (ok ==> seen == items)
      && (!ok ==> |seen| < |items| && items[|seen|].amount.None?)
    ensures ok ==> seen == EnvelopeItems(txns[..i + 1], cat)
    ensures !ok ==> StoppedAt(txns[..i + 1], cat, seen)
  {
    EnvelopeItemsStep(txns, i, cat);
  }

  /** The items of one more transaction follow the items of the ones before it. */
  lemma EnvelopeItemsStep(txns: seq<Transaction>, i: nat, cat: Category)
    requires i < |txns|
    ensures var t := txns[i];
      EnvelopeItems(txns[..i + 1], cat)
        == EnvelopeItems(txns[..i], cat) + CatItems(t.allocations, cat, t.date, Factor(t.kind), DescText(t.description))
  {
    assert txns[..i + 1][..i] == txns[..i];
  }

  /** An item without an amount met in transaction `i` is met in the items of the whole ledger too. */
  lemma StoppedInTransaction(txns: seq<Transaction>, i: nat, cat: Category, seen: seq<EnvItem>)
    requires i < |txns| && StoppedAt(txns[..i + 1], cat, seen)
    ensures StoppedAt(txns, cat, seen)
  {
    EnvelopeItemsPrefix(txns, i + 1, cat);
    var local := EnvelopeItems(txns[..i + 1], cat);
    var items := EnvelopeItems(txns, cat);
    assert items[|seen|] == local[|seen|];
  }

  /** What was shown for a prefix of the items, restated in terms of the items and the rows. */
  lemma ShownPrefix(items: seq<EnvItem>, rows: seq<RegisterRow>, balance: int, seen: seq<EnvItem>)
    requires Shown(rows, balance, seen) && seen <= items
    ensures |rows| == |seen| && ShownFor(items, rows)
  {
    assert items[..|rows|] == seen;
  }
}

/** What the reports guarantee beyond a single call. */
module ReportsFacts {
  import opened Wrappers
  import opened LedgerModel
  import opened Reports

  /** The k-th row of a register carries the k-th entry and the sum of the entries up to it. */
  lemma {:induction false} RunningRowsAt(s: seq<Entry>, k: nat)
    requires k < |s|
    ensures RunningRows(s)[k] == RegisterRow(s[k].date, s[k].amount, Total(s[..k + 1]), s[k].description)
    decreases |s|
  {
    if k < |s| - 1 {
      RunningRowsAt(s[..|s| - 1], k);
      assert s[..|s| - 1][..k + 1] == s[..k + 1];
    } else {
      assert s[..k + 1] == s;
    }
  }

  /** An account that no transaction is filed under has balance zero. */
  lemma {:induction false} SumForUnused(txns: seq<Transaction>, name: string)
    requires forall j :: 0 <= j < |txns| ==> txns[j].account.name != name
    ensures SumFor(txns, name) == 0
    decreases |txns|
  {
    if txns != [] {
      SumForUnused(txns[..|txns| - 1], name);
    }
  }

  /**
   * When the account objects are told apart by their names, the last
   * balance of do_register is the balance do_balance computes.
   */
  lemma {:induction false} RegisterTotalIsBalance(txns: seq<Transaction>, acc: Account)
    requires forall j :: 0 <= j < |txns| ==> (txns[j].account.name == acc.name <==> txns[j].account == acc)
    ensures Total(AccountEntries(txns, acc)) == SumFor(txns, acc.name)
    decreases |txns|
  {
    if txns != [] {
      var t := txns[|txns| - 1];
      var front := AccountEntries(txns[..|txns| - 1], acc);
      RegisterTotalIsBalance(txns[..|txns| - 1], acc);
      if t.account == acc {
        AppendEntry(front, Entry(t.date, t.SignedAmount(), DescText(t.description)));
      } else {
        assert AccountEntries(txns, acc) == front;
      }
    }
  }
}
