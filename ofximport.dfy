/**
 * The de-duplication step of ofximport.py: which bank statement
 * transactions are new to the ledger, in what order they are imported, the
 * two counters it keeps, and the text print_txn writes for an imported
 * transaction.
 */
module OfxImport {
  import opened Wrappers
  import opened TypeUtils
  import opened LedgerModel

  // ------------------------------------------------------------ ids in the ledger

  /** The property names that carry a bank transaction id, in the order they are looked up. */
  const IdKeys: seq<string> := ["ofxid", "ofx_id", "bankid", "bank_id"]

  /** The ids a ledger transaction carries: the values of those of the four properties it has. */
  function IdsOf(p: map<string, string>): set<string> {
    set k | k in IdKeys && k in p :: p[k]
  }

  /**
   * ledger_transactions_by_ofxid: every id of every transaction maps to that
   * transaction; a later transaction replaces an earlier one with the same id.
   * (All ids of one transaction map to the same object, so the order of the
   * four property names within a transaction does not matter.)
   */
  function ByOfxid(txns: seq<Transaction>): (m: map<string, Transaction>)
    reads txns
    ensures txns != [] ==> var t := txns[|txns| - 1]; forall v :: v in IdsOf(t.properties) ==> v in m && m[v] == t
  {
    if txns == [] then map[]
    else
      var t := txns[|txns| - 1];
      ByOfxid(txns[..|txns| - 1]) + map v | v in IdsOf(t.properties) :: t
  }

  // ------------------------------------------------------------ statement side

  /** A transaction of the bank statement, with the fields the import looks at. */
  datatype StatementTxn = StatementTxn(id: string, date: DateTime, amount: int, payee: string)

  /** `[t for t in ofx_txns if not t.id in known]`. */
  function Unseen(s: seq<StatementTxn>, known: map<string, Transaction>): (r: seq<StatementTxn>)
    ensures |r| <= |s|
  {
    if s == [] then []
    else
      (if s[0].id in known then [] else [s[0]]) + Unseen(s[1..], known)
  }

  /** The dates never decrease. */
  predicate SortedByDate(s: seq<StatementTxn>) {
    forall i, j :: 0 <= i < j < |s| ==> DateTimeLe(s[i].date, s[j].date)
  }

  /** The transactions dated `d`, in order. */
  function WithDate(s: seq<StatementTxn>, d: DateTime): seq<StatementTxn> {
    if s == [] then []
    else (if s[0].date == d then [s[0]] else []) + WithDate(s[1..], d)
  }

  /** `x` placed before the first transaction not dated earlier than it. */
  function Insert(x: StatementTxn, s: seq<StatementTxn>): (r: seq<StatementTxn>)
    ensures multiset(r) == multiset(s) + multiset{x}
  {
    if s == [] || DateTimeLe(x.date, s[0].date) then [x] + s
    else
      assert s == [s[0]] + s[1..];
      [s[0]] + Insert(x, s[1..])
  }

  /** `sorted(s, key=lambda t: t.date)`: a stable sort by date. */
  function SortByDate(s: seq<StatementTxn>): (r: seq<StatementTxn>)
    ensures multiset(r) == multiset(s)
  {
    if s == [] then []
    else
      assert s == [s[0]] + s[1..];
      Insert(s[0], SortByDate(s[1..]))
  }

  /**
   * The module globals txn_count_imported and txn_count_new, which filter
   * sets on every call.
   */
  class ImportCounts {
    var txnCountImported: int
    var txnCountNew: int

    /** Both counters start at zero. */
    constructor ()
      ensures txnCountImported == 0 && txnCountNew == 0
    {
      txnCountImported := 0;
      txnCountNew := 0;
    }

    /**
     * filter: the statement transactions whose id no ledger transaction
     * carries, sorted by date; the counters record how many the statement
     * had and how many are new.
     */
    method Filter(statement: seq<StatementTxn>, lgrTxns: seq<Transaction>) returns (result: seq<StatementTxn>)
      modifies this
      ensures txnCountImported == |statement|
      ensures txnCountNew == |Unseen(statement, ByOfxid(lgrTxns))|
      ensures result == SortByDate(Unseen(statement, ByOfxid(lgrTxns)))
    {
      var known := ByOfxid(lgrTxns);
      txnCountImported := |statement|;
      var filtered := Unseen(statement, known);
      txnCountNew := |filtered|;
      if txnCountNew == 0 {
        result := filtered;
      } else {
        result := SortByDate(filtered);
      }
      assert known == ByOfxid(lgrTxns);
    }
  }

  // ------------------------------------------------------------ print_txn

  /**
   * The transaction print_txn writes. The allocations, tags and properties
   * are in the order the dictionaries and the list yield them.
   */
  datatype ImportedTxn = ImportedTxn(
    date: DateTime, amount: int, accountName: string, description: string,
    allocations: seq<(string, Option<int>)>, tags: seq<string>, properties: seq<(string, string)>)

  /** The direction word of the first line. */
  function Direction(amount: int): (w: string)
    ensures w == "from" <==> amount < 0
  {
    if amount < 0 then "from" else "into"
  }

  /** The amount of the first line, without its sign. */
  function AmountText(amount: int): string {
    CentsToStr(if amount >= 0 then amount else -amount)
  }

  /**
   * The first line; `dateStr` stands for datetime_to_date_str (strftime) and
   * `quote` for pipes.quote.
   */
  function HeaderLine(t: ImportedTxn, dateStr: DateTime -> string, quote: string -> string): (line: string)
    ensures |dateStr(t.date)| < |line| && line[..|dateStr(t.date)|] == dateStr(t.date)
    ensures |quote(t.description)| < |line| && line[|line| - |quote(t.description)|..] == quote(t.description)
    ensures |dateStr(t.date)| + |quote(t.description)| < |line|
    ensures line[|dateStr(t.date)|..|line| - |quote(t.description)|]
      == " $" + AmountText(t.amount) + " " + Direction(t.amount) + " " + t.accountName + " "
  {
    dateStr(t.date) + " $" + AmountText(t.amount) + " " + Direction(t.amount) + " " + t.accountName + " " + quote(t.description)
  }

  /** The line of one allocation: `allocate all to` for a falsy amount (None or 0). */
  function AllocationLine(catName: string, amount: Option<int>): (line: string)
    ensures |line| > 13 + |catName| && line[..13] == "    allocate "
    ensures line[|line| - |catName|..] == catName
    ensures amount.Some? && amount.value != 0 ==> line == "    allocate $" + CentsToStr(amount.value) + " to " + catName
  {
    if amount.None? || amount.value == 0 then "    allocate all to " + catName
    else "    allocate $" + CentsToStr(amount.value) + " to " + catName
  }

  /** The allocation lines, in order. */
  function AllocationLines(allocs: seq<(string, Option<int>)>): (lines: seq<string>)
    ensures |lines| == |allocs|
  {
    if allocs == [] then []
    else
      var a := allocs[|allocs| - 1];
      AllocationLines(allocs[..|allocs| - 1]) + [AllocationLine(a.0, a.1)]
  }

  /** The tag lines, in order. */
  function TagLines(tags: seq<string>, quote: string -> string): (lines: seq<string>)
    ensures |lines| == |tags|
  {
    if tags == [] then []
    else TagLines(tags[..|tags| - 1], quote) + ["    tag " + QuoteStrIfNeeded(tags[|tags| - 1], quote)]
  }

  /** The property lines, in order. */
  function PropertyLines(props: seq<(string, string)>, quote: string -> string): (lines: seq<string>)
    ensures |lines| == |props|
  {
    if props == [] then []
    else
      var p := props[|props| - 1];
      PropertyLines(props[..|props| - 1], quote) + ["    " + p.0 + ": " + QuoteStrIfNeeded(p.1, quote)]
  }

  /** Everything print_txn writes, one string per line (each followed by a newline on the stream). */
  function TxnLines(t: ImportedTxn, dateStr: DateTime -> string, quote: string -> string): seq<string> {
    [HeaderLine(t, dateStr, quote)] + AllocationLines(t.allocations) + TagLines(t.tags, quote) + PropertyLines(t.properties, quote)
  }

  /**
   * print_txn: the first line, then one line per allocation, per tag and
   * per property, in that order.
   */
  method PrintTxn(t: ImportedTxn, dateStr: DateTime -> string, quote: string -> string) returns (lines: seq<string>)
    ensures lines == TxnLines(t, dateStr, quote)
  {
    lines := [HeaderLine(t, dateStr, quote)];
    lines := WriteAllocations(lines, t.allocations);
    lines := WriteTags(lines, t.tags, quote);
    lines := WriteProperties(lines, t.properties, quote);
  }

  /** The loop of print_txn over the allocations. */
  method WriteAllocations(lines0: seq<string>, allocs: seq<(string, Option<int>)>) returns (lines: seq<string>)
    ensures lines == lines0 + AllocationLines(allocs)
  {
    lines := lines0;
    var i := 0;
    while i < |allocs|
      invariant i <= |allocs|
      invariant lines == lines0 + AllocationLines(allocs[..i])
    {
      assert allocs[..i + 1][..i] == allocs[..i];
      var (catName, amount) := allocs[i];
      lines := lines + [AllocationLine(catName, amount)];
      i := i + 1;
    }
    assert allocs[..i] == allocs;
  }

  /** The loop of print_txn over the tags. */
  method WriteTags(lines0: seq<string>, tags: seq<string>, quote: string -> string) returns (lines: seq<string>)
    ensures lines == lines0 + TagLines(tags, quote)
  {
    lines := lines0;
    var i := 0;
    while i < |tags|
      invariant i <= |tags|
      invariant lines == lines0 + TagLines(tags[..i], quote)
    {
      assert tags[..i + 1][..i] == tags[..i];
      lines := lines + ["    tag " + QuoteStrIfNeeded(tags[i], quote)];
      i := i + 1;
    }
    assert tags[..i] == tags;
  }

  /** The loop of print_txn over the properties. */
  method WriteProperties(lines0: seq<string>, props: seq<(string, string)>, quote: string -> string) returns (lines: seq<string>)
    ensures lines == lines0 + PropertyLines(props, quote)
  {
    lines := lines0;
    var i := 0;
    while i < |props|
      invariant i <= |props|
      invariant lines == lines0 + PropertyLines(props[..i], quote)
    {
      assert props[..i + 1][..i] == props[..i];
      var (key, value) := props[i];
      lines := lines + ["    " + key + ": " + QuoteStrIfNeeded(value, quote)];
      i := i + 1;
    }
    assert props[..i] == props;
  }
}

/** What the import guarantees about the id map, the filter, the sort and the printed text. */
module OfxImportFacts {
  import opened Wrappers
  import opened TypeUtils
  import opened LedgerModel
  import opened OfxImport
  import opened TypeUtilsFacts

  /** An id is a key exactly when some ledger transaction carries it. */
  lemma {:induction false} ByOfxidKeys(txns: seq<Transaction>, v: string)
    ensures v in ByOfxid(txns) <==> exists j :: 0 <= j < |txns| && v in IdsOf(txns[j].properties)
    decreases |txns|
  {
    if txns != [] {
      var front := txns[..|txns| - 1];
      ByOfxidKeys(front, v);
      if v in ByOfxid(front) {
        var j :| 0 <= j < |front| && v in IdsOf(front[j].properties);
        assert txns[j] == front[j];
      }
      if exists j :: 0 <= j < |txns| && v in IdsOf(txns[j].properties) {
        var j :| 0 <= j < |txns| && v in IdsOf(txns[j].properties);
        if j < |front| {
          assert front[j] == txns[j];
        }
      }
    }
  }

  /** An id maps to the last ledger transaction that carries it. */
  lemma {:induction false} ByOfxidLastWins(txns: seq<Transaction>, v: string)
    requires v in ByOfxid(txns)
    ensures exists j :: && 0 <= j < |txns| && ByOfxid(txns)[v] == txns[j]
                        && v in IdsOf(txns[j].properties)
                        && forall k :: j < k < |txns| ==> v !in IdsOf(txns[k].properties)
    decreases |txns|
  {
    var last := |txns| - 1;
    var front := txns[..last];
    if v in IdsOf(txns[last].properties) {
      assert ByOfxid(txns)[v] == txns[last];
    } else {
      assert ByOfxid(txns)[v] == ByOfxid(front)[v];
      ByOfxidLastWins(front, v);
      var j :| && 0 <= j < |front| && ByOfxid(front)[v] == front[j]
               && v in IdsOf(front[j].properties)
               && forall k :: j < k < |front| ==> v !in IdsOf(front[k].properties);
      assert txns[j] == front[j];
      assert forall k :: j < k < |txns| ==> v !in IdsOf(txns[k].properties) by {
        forall k | j < k < |txns|
          ensures v !in IdsOf(txns[k].properties)
        {
          if k < |front| {
            assert txns[k] == front[k];
          }
        }
      }
      assert ByOfxid(txns)[v] == txns[j] && v in IdsOf(txns[j].properties);
    }
  }

  /** A ledger transaction with none of the four properties adds no key. */
  lemma NoIdsNoKeys(txns: seq<Transaction>, t: Transaction)
    requires forall k :: k in IdKeys ==> k !in t.properties
    ensures ByOfxid(txns + [t]) == ByOfxid(txns)
  {
    assert (txns + [t])[..|txns|] == txns;
    assert IdsOf(t.properties) == {};
  }

  /** Each statement transaction is kept as often as it occurs, or dropped when its id is known. */
  lemma {:induction false} UnseenCount(s: seq<StatementTxn>, known: map<string, Transaction>, x: StatementTxn)
    ensures multiset(Unseen(s, known))[x] == if x.id in known then 0 else multiset(s)[x]
    decreases |s|
  {
    if s != [] {
      assert s == [s[0]] + s[1..];
      UnseenCount(s[1..], known, x);
    }
  }

  /** filter keeps exactly the statement transactions whose id is not among the ledger's ids. */
  lemma UnseenKept(s: seq<StatementTxn>, known: map<string, Transaction>, x: StatementTxn)
    ensures x in Unseen(s, known) <==> x in s && x.id !in known
  {
    UnseenCount(s, known, x);
  }

  /** Inserting into a sorted list keeps it sorted. */
  lemma {:induction false} InsertSorted(x: StatementTxn, s: seq<StatementTxn>)
    requires SortedByDate(s)
    ensures SortedByDate(Insert(x, s))
    decreases |s|
  {
    if s == [] || DateTimeLe(x.date, s[0].date) {
      var r := [x] + s;
      forall i, j | 0 <= i < j < |r|
        ensures DateTimeLe(r[i].date, r[j].date)
      {
        if i > 0 {
          assert r[i] == s[i - 1] && r[j] == s[j - 1];
        } else {
          assert r[j] == s[j - 1];
        }
      }
    } else {
      DateTimeLeTotal(x.date, s[0].date);
      var tail := Insert(x, s[1..]);
      InsertSorted(x, s[1..]);
      var r := [s[0]] + tail;
      forall j | 0 <= j < |tail|
        ensures DateTimeLe(s[0].date, tail[j].date)
      {
        assert tail[j] in multiset(tail);
        assert tail[j] in multiset(s[1..]) + multiset{x};
        if tail[j] != x {
          assert tail[j] in s[1..];
          var k :| 0 <= k < |s[1..]| && s[1..][k] == tail[j];
          assert s[k + 1] == tail[j];
        }
      }
      forall i, j | 0 <= i < j < |r|
        ensures DateTimeLe(r[i].date, r[j].date)
      {
        if i > 0 {
          assert r[i] == tail[i - 1] && r[j] == tail[j - 1];
        } else {
          assert r[j] == tail[j - 1];
        }
      }
    }
  }

  /** The sort's result is in date order. */
  lemma {:induction false} SortByDateSorted(s: seq<StatementTxn>)
    ensures SortedByDate(SortByDate(s))
    decreases |s|
  {
    if s != [] {
      SortByDateSorted(s[1..]);
      InsertSorted(s[0], SortByDate(s[1..]));
    }
  }

  /** Inserting `x` places it before every transaction of its own date. */
  lemma {:induction false} InsertWithDate(x: StatementTxn, s: seq<StatementTxn>, d: DateTime)
    ensures WithDate(Insert(x, s), d) == (if x.date == d then [x] else []) + WithDate(s, d)
    decreases |s|
  {
    if s == [] || DateTimeLe(x.date, s[0].date) {
      assert ([x] + s)[1..] == s;
    } else {
      InsertWithDate(x, s[1..], d);
      assert ([s[0]] + Insert(x, s[1..]))[1..] == Insert(x, s[1..]);
      DateTimeLeTotal(x.date, s[0].date);
    }
  }

  /** The sort is stable: the transactions of any one date keep their order. */
  lemma {:induction false} SortByDateStable(s: seq<StatementTxn>, d: DateTime)
    ensures WithDate(SortByDate(s), d) == WithDate(s, d)
    decreases |s|
  {
    if s != [] {
      SortByDateStable(s[1..], d);
      InsertWithDate(s[0], SortByDate(s[1..]), d);
    }
  }

  /** Picking one date distributes over concatenation. */
  lemma {:induction false} WithDateAppend(a: seq<StatementTxn>, b: seq<StatementTxn>, d: DateTime)
    ensures WithDate(a + b, d) == WithDate(a, d) + WithDate(b, d)
    decreases |a|
  {
    if a == [] {
      assert a + b == b;
    } else {
      assert (a + b)[1..] == a[1..] + b;
      WithDateAppend(a[1..], b, d);
    }
  }

  /** The unseen filter keeps statement order: it distributes over concatenation. */
  lemma {:induction false} UnseenAppend(a: seq<StatementTxn>, b: seq<StatementTxn>, known: map<string, Transaction>)
    ensures Unseen(a + b, known) == Unseen(a, known) + Unseen(b, known)
    decreases |a|
  {
    if a == [] {
      assert a + b == b;
    } else {
      var h := if a[0].id in known then [] else [a[0]];
      assert (a + b)[0] == a[0] && (a + b)[1..] == a[1..] + b;
      assert Unseen(a + b, known) == h + Unseen(a[1..] + b, known);
      UnseenAppend(a[1..], b, known);
      assert Unseen(a, known) == h + Unseen(a[1..], known);
    }
  }

  /** The unseen transactions of one date are the unseen ones among that date's. */
  lemma {:induction false} UnseenWithDate(s: seq<StatementTxn>, known: map<string, Transaction>, d: DateTime)
    ensures WithDate(Unseen(s, known), d) == Unseen(WithDate(s, d), known)
    decreases |s|
  {
    if s != [] {
      var x := s[0];
      UnseenWithDate(s[1..], known, d);
      WithDateAppend(if x.id in known then [] else [x], Unseen(s[1..], known), d);
      UnseenAppend(if x.date == d then [x] else [], WithDate(s[1..], d), known);
      assert [x][1..] == [];
    }
  }

  /**
   * What filter returns: dated in order, a permutation of the unseen
   * transactions, and equal-dated transactions in statement order.
   */
  lemma FilterResult(statement: seq<StatementTxn>, known: map<string, Transaction>, d: DateTime)
    ensures var r := SortByDate(Unseen(statement, known));
      && SortedByDate(r)
      && multiset(r) == multiset(Unseen(statement, known))
      && WithDate(r, d) == Unseen(WithDate(statement, d), known)
  {
    SortByDateSorted(Unseen(statement, known));
    SortByDateStable(Unseen(statement, known), d);
    UnseenWithDate(statement, known, d);
  }

  /** Sorting a sorted list changes nothing. */
  lemma {:induction false} SortByDateOfSorted(s: seq<StatementTxn>)
    requires SortedByDate(s)
    ensures SortByDate(s) == s
    decreases |s|
  {
    if s != [] {
      assert SortedByDate(s[1..]) by {
        forall i, j | 0 <= i < j < |s[1..]|
          ensures DateTimeLe(s[1..][i].date, s[1..][j].date)
        {
          assert s[1..][i] == s[i + 1] && s[1..][j] == s[j + 1];
        }
      }
      SortByDateOfSorted(s[1..]);
      if |s| > 1 {
        assert DateTimeLe(s[0].date, s[1].date);
        assert s[1..][0] == s[1];
      }
      assert s == [s[0]] + s[1..];
    }
  }

  /** The first line says "from" for a negative amount and "into" otherwise, and prints the amount without its sign. */
  lemma SignGoesToDirection(amount: int)
    requires amount != 0
    ensures AmountText(-amount) == AmountText(amount)
    ensures Direction(amount) == "from" <==> Direction(-amount) == "into"
  {
  }

  /** An allocation line reads `allocate all to` exactly when the amount is None or zero. */
  lemma AllocateAllIffFalsy(catName: string, amount: Option<int>)
    ensures AllocationLine(catName, amount) == "    allocate all to " + catName
        <==> amount.None? || amount.value == 0
  {
    if amount.Some? && amount.value != 0 {
      var line := AllocationLine(catName, amount);
      assert line[13] == '$';
      assert ("    allocate all to " + catName)[13] == 'a';
    }
  }

  /** print_txn writes one line, then one per allocation, per tag and per property. */
  lemma TxnLineCount(t: ImportedTxn, dateStr: DateTime -> string, quote: string -> string)
    ensures |TxnLines(t, dateStr, quote)| == 1 + |t.allocations| + |t.tags| + |t.properties|
  {
  }

  /** Line 1 + i of print_txn is the line of allocation i. */
  lemma {:induction false} AllocationLineAt(allocs: seq<(string, Option<int>)>, i: nat)
    requires i < |allocs|
    ensures AllocationLines(allocs)[i] == AllocationLine(allocs[i].0, allocs[i].1)
    decreases |allocs|
  {
    if i < |allocs| - 1 {
      AllocationLineAt(allocs[..|allocs| - 1], i);
    }
  }
}
