/**
 * What finalize_transaction computes, as functions on the allocation list of
 * one transaction, and what it guarantees about the result.
 */
module Allocations {
  import opened Wrappers
  import opened LedgerModel

  /** The errors the parser can raise. */
  datatype Failure =
    | ParseError(filename: string, lineNo: nat, msg: string)
      // `self.reader_stack[-1]` on the empty stack, raised by every handler error
    | IndexError
      // cents_from_str rejecting an amount
    | ValueError(msg: string)

  /** How many allocations have no amount (the "remainder" form). */
  function NoneCount(s: seq<Allocation>): (n: nat)
    ensures n <= |s|
    ensures n == 0 <==> forall j :: 0 <= j < |s| ==> s[j].amount.Some?
  {
    if s == [] then 0
    else NoneCount(s[..|s| - 1]) + (if s[|s| - 1].amount.None? then 1 else 0)
  }

  /** The sum of the allocations that carry an amount. */
  function ExplicitTotal(s: seq<Allocation>): int {
    if s == [] then 0
    else ExplicitTotal(s[..|s| - 1]) + (match s[|s| - 1].amount case Some(v) => v case None => 0)
  }

  /** The position of the first allocation without an amount, if there is one. */
  function FirstNone(s: seq<Allocation>): (r: Option<nat>)
    ensures r.Some? ==> r.value < |s| && s[r.value].amount.None?
    ensures r.None? <==> NoneCount(s) == 0
  {
    if s == [] then None
    else
      var p := FirstNone(s[..|s| - 1]);
      if p.Some? then p
      else if s[|s| - 1].amount.None? then Some(|s| - 1)
      else None
  }

  /**
   * finalize_transaction on `allocs` for a transaction of `amount`: two
   * remainders or an overallocation fail; a shortfall goes to the remainder
   * allocation, or to a new allocation to `unallocated` when there is none.
   */
  function Finalize(allocs: seq<Allocation>, amount: int, unallocated: Category): (r: Result<seq<Allocation>, Failure>)
    ensures r.Err? <==> NoneCount(allocs) > 1 || ExplicitTotal(allocs) > amount
    ensures r.Err? ==> r.error == IndexError
  {
    if NoneCount(allocs) > 1 then Err(IndexError)
    else
      var total := ExplicitTotal(allocs);
      if total > amount then Err(IndexError)
      else if total < amount then
        match FirstNone(allocs)
        case Some(k) => Ok(allocs[k := Allocation(Some(amount - total), allocs[k].category)])
        case None => Ok(allocs + [Allocation(Some(amount - total), unallocated)])
      else Ok(allocs)
  }

  /** Counting over a prefix never exceeds the count over the whole list. */
  lemma {:induction false} NoneCountPrefix(s: seq<Allocation>, i: nat)
    requires i <= |s|
    ensures NoneCount(s[..i]) <= NoneCount(s)
    decreases |s|
  {
    if i < |s| {
      assert s[..|s| - 1][..i] == s[..i];
      NoneCountPrefix(s[..|s| - 1], i);
    } else {
      assert s[..i] == s;
    }
  }

  /** Filling in the amount of a remainder allocation. */
  lemma {:induction false} FillRemainder(s: seq<Allocation>, k: nat, a: int, c: Category)
    requires k < |s| && s[k].amount.None?
    ensures ExplicitTotal(s[k := Allocation(Some(a), c)]) == ExplicitTotal(s) + a
    ensures NoneCount(s[k := Allocation(Some(a), c)]) == NoneCount(s) - 1
    decreases |s|
  {
    var t := s[k := Allocation(Some(a), c)];
    if k < |s| - 1 {
      assert t[..|t| - 1] == s[..|s| - 1][k := Allocation(Some(a), c)];
      FillRemainder(s[..|s| - 1], k, a, c);
    } else {
      assert t[..|t| - 1] == s[..|s| - 1];
    }
  }

  /** Appending one allocation with an amount. */
  lemma AppendExplicit(s: seq<Allocation>, a: int, c: Category)
    ensures ExplicitTotal(s + [Allocation(Some(a), c)]) == ExplicitTotal(s) + a
    ensures NoneCount(s + [Allocation(Some(a), c)]) == NoneCount(s)
  {
    assert (s + [Allocation(Some(a), c)])[..|s|] == s;
  }

  /**
   * A finalized transaction balances: its allocations add up to its amount,
   * at most one of them is a remainder (none if anything was filled in), and
   * every allocation it had keeps its category and any amount it had.
   */
  lemma {:induction false} FinalizeBalances(allocs: seq<Allocation>, amount: int, unallocated: Category)
    requires Finalize(allocs, amount, unallocated).Ok?
    ensures var r := Finalize(allocs, amount, unallocated).value;
      && ExplicitTotal(r) == amount
      && NoneCount(r) <= 1
      && (ExplicitTotal(allocs) < amount ==> NoneCount(r) == 0)
      && |allocs| <= |r| <= |allocs| + 1
      && (NoneCount(allocs) == 1 ==> |r| == |allocs|)
      && (forall k :: 0 <= k < |allocs| ==> r[k].category == allocs[k].category)
      && (forall k :: 0 <= k < |allocs| && allocs[k].amount.Some? ==> r[k] == allocs[k])
  {
    var total := ExplicitTotal(allocs);
    if total < amount {
      match FirstNone(allocs)
      case Some(k) =>
        FillRemainder(allocs, k, amount - total, allocs[k].category);
      case None =>
        AppendExplicit(allocs, amount - total, unallocated);
    }
  }

  /** Finalizing a finalized list changes nothing. */
  lemma FinalizeIdempotent(allocs: seq<Allocation>, amount: int, unallocated: Category)
    requires Finalize(allocs, amount, unallocated).Ok?
    ensures var r := Finalize(allocs, amount, unallocated).value;
      Finalize(r, amount, unallocated) == Ok(r)
  {
    FinalizeBalances(allocs, amount, unallocated);
  }

  /** With the explicit amounts already matching, nothing changes and a remainder stays None. */
  lemma FinalizeExactTotal(allocs: seq<Allocation>, amount: int, unallocated: Category)
    requires NoneCount(allocs) <= 1 && ExplicitTotal(allocs) == amount
    ensures Finalize(allocs, amount, unallocated) == Ok(allocs)
  {
  }

  /** Two remainder positions count as two. */
  lemma {:induction false} TwoNones(s: seq<Allocation>, i: nat, j: nat)
    requires i < j < |s| && s[i].amount.None? && s[j].amount.None?
    ensures NoneCount(s) >= 2
    decreases |s|
  {
    var p := s[..|s| - 1];
    assert p[i] == s[i];
    if j < |s| - 1 {
      assert p[j] == s[j];
      TwoNones(p, i, j);
    }
  }

  /** When the count says one remainder, it is the first one. */
  lemma SingleNone(s: seq<Allocation>, k: nat)
    requires NoneCount(s) == 1 && k < |s| && s[k].amount.None?
    ensures FirstNone(s) == Some(k)
  {
    var f := FirstNone(s).value;
    if k < f {
      TwoNones(s, k, f);
    } else if f < k {
      TwoNones(s, f, k);
    }
  }

  /** With one remainder and a shortfall, the remainder allocation receives the difference. */
  lemma FinalizeShortfallRemainder(allocs: seq<Allocation>, amount: int, unallocated: Category, k: nat)
    requires NoneCount(allocs) == 1 && ExplicitTotal(allocs) < amount
    requires k < |allocs| && allocs[k].amount.None?
    ensures Finalize(allocs, amount, unallocated)
      == Ok(allocs[k := Allocation(Some(amount - ExplicitTotal(allocs)), allocs[k].category)])
  {
    SingleNone(allocs, k);
  }

  /** With no remainder and a shortfall, the shortfall is allocated to `unallocated`. */
  lemma FinalizeShortfallUnallocated(allocs: seq<Allocation>, amount: int, unallocated: Category)
    requires NoneCount(allocs) == 0 && ExplicitTotal(allocs) < amount
    ensures Finalize(allocs, amount, unallocated)
      == Ok(allocs + [Allocation(Some(amount - ExplicitTotal(allocs)), unallocated)])
  {
  }
}
