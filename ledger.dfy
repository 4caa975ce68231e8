/**
 * The ledger data model of ledger.py: accounts and categories keyed by name,
 * transactions in file order, and the allocations of a transaction to
 * categories.
 */
module LedgerModel {
  import opened Wrappers
  import opened TypeUtils

  /** Account(name, description=None); nothing updates an account after it is made. */
  class Account {
    const name: string
    const description: Option<string>

    constructor (name: string, description: Option<string>)
      ensures this.name == name && this.description == description
    {
      this.name := name;
      this.description := description;
    }
  }

  /** Category(name, description=None); its goal is always None. */
  class Category {
    const name: string
    const description: Option<string>
    const goal: Option<int>

    constructor (name: string, description: Option<string>)
      ensures this.name == name && this.description == description && goal == None
    {
      this.name := name;
      this.description := description;
      this.goal := None;
    }
  }

  /** Allocation(amount, category): an amount in cents, or None for "the remainder". */
  datatype Allocation = Allocation(amount: Option<int>, category: Category)

  /** The two constructible subclasses of Transaction. */
  datatype TxnKind = Income | Expenditure

  /**
   * IncomeTransaction or ExpenditureTransaction. The parser sets the
   * description and properties and appends allocations after construction.
   */
  class Transaction {
    const kind: TxnKind
    const amount: int
    const date: DateTime
    const account: Account
    var description: Option<string>
    var projected: bool
    var properties: map<string, string>
    var allocations: seq<Allocation>

    constructor (kind: TxnKind, amount: int, date: DateTime, account: Account)
      ensures this.kind == kind && this.amount == amount && this.date == date && this.account == account
      ensures description == None && !projected && properties == map[] && allocations == []
    {
      this.kind := kind;
      this.amount := amount;
      this.date := date;
      this.account := account;
      description := None;
      projected := false;
      properties := map[];
      allocations := [];
    }

    /** signed_amount(): the amount for income, its negation for an expenditure. */
    function SignedAmount(): (s: int)
      ensures kind == Income ==> s == amount
      ensures kind == Expenditure ==> s == -amount
    {
      match kind
      case Income => amount
      case Expenditure => -amount
    }
  }

  /** Ledger: accounts and categories by name, and the transactions in order. */
  class Ledger {
    var accounts: map<string, Account>
    var categories: map<string, Category>
    var transactions: seq<Transaction>

    /**
     * What every ledger the program builds satisfies: 'unallocated' is a
     * category, and every entry is filed under its own name.
     */
    predicate Valid()
      reads this
    {
      && "unallocated" in categories
      && (forall n :: n in accounts ==> accounts[n].name == n)
      && (forall n :: n in categories ==> categories[n].name == n)
    }

    /** No accounts, exactly the category 'unallocated', no transactions. */
    constructor ()
      ensures Valid()
      ensures accounts == map[] && transactions == []
      ensures categories.Keys == {"unallocated"}
      ensures categories["unallocated"].name == "unallocated"
      ensures categories["unallocated"].description == None
      ensures fresh(categories["unallocated"])
    {
      var u := new Category("unallocated", None);
      accounts := map[];
      categories := map["unallocated" := u];
      transactions := [];
    }

    /**
     * append(other): names of `other` win, names only here keep their
     * object, other's transactions follow ours; `other` is not changed.
     */
    method Append(other: Ledger)
      modifies this
      ensures accounts == old(accounts) + old(other.accounts)
      ensures categories == old(categories) + old(other.categories)
      ensures transactions == old(transactions) + old(other.transactions)
      ensures forall n :: n in old(other.accounts) ==> accounts[n] == old(other.accounts)[n]
      ensures forall n :: n in old(accounts) && n !in old(other.accounts) ==> accounts[n] == old(accounts)[n]
      ensures forall n :: n in old(other.categories) ==> categories[n] == old(other.categories)[n]
      ensures forall n :: n in old(categories) && n !in old(other.categories) ==> categories[n] == old(categories)[n]
      ensures other != this ==> unchanged(other)
      ensures old(Valid()) && old(other.Valid()) ==> Valid()
    {
      accounts := accounts + other.accounts;
      categories := categories + other.categories;
      transactions := transactions + other.transactions;
    }
  }
}
