/**
 * Conservation over runs.  One theorem covers weight, bags and the number of
 * pieces, for every set of receipts that with a receipt holds its children; the
 * descendants of a receipt and the classes of receipts are such sets.
 */
module Conservation {
  import opened Prelude
  import opened TokenIds
  import opened ReceiptSpec
  import opened Worlds
  import opened Invariants
  import opened History
  import opened Sums

  datatype Quantity = Weight | Bags | Pieces

  function Value(q: Quantity, m: Metadata): nat {
    match q
    case Weight => m.totalWeightKg
    case Bags => m.bagCount
    case Pieces => 1
  }

  // What a split of the receipt loses of the quantity: nothing of its weight, the
  // odd bag, and one piece less than nothing.
  function Loss(q: Quantity, m: Metadata): int {
    match q
    case Weight => 0
    case Bags => m.bagCount % 2
    case Pieces => -1
  }

  ghost predicate ParentIn(m: Metadata, s: set<Bytes>) {
    m.parentTokenId.Some? && m.parentTokenId.value in s
  }

  // With a receipt the set holds its children.
  ghost predicate Closed(records: map<Bytes, Record>, s: set<Bytes>) {
    forall k :: k in records && ParentIn(records[k].token, s) ==> k in s
  }

  // Where the set begins: a receipt that was minted, or whose parent is outside.
  ghost predicate Begins(records: map<Bytes, Record>, s: set<Bytes>, k: Bytes) {
    k in s && k in records && !ParentIn(records[k].token, s)
  }

  // Totals over the receipts of s: those it begins with, those live now, those
  // burned, and what was lost in splits.
  ghost function BeginningTotal(w: World, q: Quantity, s: set<Bytes>): int {
    Sum(w.ledger.all, k => if Begins(w.records, s, k) then Value(q, w.records[k].token) else 0)
  }

  ghost function LiveTotal(w: World, q: Quantity, s: set<Bytes>): int {
    Sum(w.ledger.all, k => if k in s && k in w.ledger.meta then Value(q, w.ledger.meta[k]) else 0)
  }

  ghost function BurnedTotal(w: World, q: Quantity, s: set<Bytes>): int {
    Sum(w.ledger.all, k => if k in s && k in w.burned && k in w.records then Value(q, w.records[k].token) else 0)
  }

  ghost function LostTotal(w: World, q: Quantity, s: set<Bytes>): int {
    Sum(w.ledger.all, k => if k in s && k in w.split && k in w.records then Loss(q, w.records[k].token) else 0)
  }

  // ----- The balance kept by every step ----------------------------------------

  // Begun minus still accounted for, receipt by receipt.
  ghost function Account(w: World, q: Quantity, s: set<Bytes>): Bytes -> int {
    (k: Bytes) =>
      if k !in s || k !in w.records then 0
      else (if Begins(w.records, s, k) then Value(q, w.records[k].token) else 0)
           - (if k in w.split then Loss(q, w.records[k].token) else Value(q, w.records[k].token))
  }

  ghost predicate Balanced(w: World, q: Quantity, s: set<Bytes>) {
    Sum(w.ledger.all, Account(w, q, s)) == 0
  }

  lemma EnterBalance(w: World, m: Metadata, owner: Address, n: u64, q: Quantity, s: set<Bytes>)
    requires IsNew(w, m.tokenId)
    ensures var w' := Enter(w, m, owner, n);
            Sum(w'.ledger.all, Account(w', q, s)) ==
            Sum(w.ledger.all, Account(w, q, s)) - (if m.tokenId in s && ParentIn(m, s) then Value(q, m) else 0)
  {
    var w', id := Enter(w, m, owner, n), m.tokenId;
    var f, g := Account(w, q, s), Account(w', q, s);
    assert w'.ledger.all == w.ledger.all + [id];
    assert g(id) == 0 - (if id in s && ParentIn(m, s) then Value(q, m) else 0);
    assert forall k :: k in w.ledger.all ==> f(k) == g(k);
    hide Account, Enter, Value, Begins;
    SumAppend(w.ledger.all, id, g);
    SumSame(w.ledger.all, f, g);
  }

  lemma LeaveSplitBalance(p: Product, w: World, id: Bytes, q: Quantity, s: set<Bytes>)
    requires WorldInv(p, w) && id in w.ledger.meta
    ensures var w' := LeaveSplit(w, id);
            Sum(w'.ledger.all, Account(w', q, s)) ==
            Sum(w.ledger.all, Account(w, q, s))
            + (if id in s then Value(q, w.ledger.meta[id]) - Loss(q, w.ledger.meta[id]) else 0)
  {
    var w' := LeaveSplit(w, id);
    assert w.records[id].token == w.ledger.meta[id].(isLocked := false);
    SumChange(w.ledger.all, Account(w, q, s), Account(w', q, s), id);
  }

  lemma EnterTwoBalance(w: World, a: Metadata, b: Metadata, owner: Address, n: u64, q: Quantity, s: set<Bytes>)
    requires IsNew(w, a.tokenId) && IsNew(w, b.tokenId) && a.tokenId != b.tokenId && n + 1 < TWO_TO_THE_64
    ensures var w' := Enter(Enter(w, a, owner, n), b, owner, n + 1);
            Sum(w'.ledger.all, Account(w', q, s)) ==
            Sum(w.ledger.all, Account(w, q, s))
            - (if a.tokenId in s && ParentIn(a, s) then Value(q, a) else 0)
            - (if b.tokenId in s && ParentIn(b, s) then Value(q, b) else 0)
  {
    var w1 := Enter(w, a, owner, n);
    assert IsNew(w1, b.tokenId);
    hide Account, Enter, Value, ParentIn, IsNew;
    EnterBalance(w, a, owner, n, q, s);
    EnterBalance(w1, b, owner, n + 1, q, s);
  }

  // Closed on the records after a split, the set holds both children if it holds
  // the parent.
  lemma ChildrenInSet(p: Product, env: Env, w: World, c: Call, s: set<Bytes>)
    requires c.Split? && SplitCheck(p, env, w.ledger, c).Ok? && ChildrenNew(p, env, w, c)
    requires Closed(EnterChildren(p, env, w, c).records, s) && c.tokenId in s
    ensures ChildA(p, env, w.ledger, c).tokenId in s && ChildB(p, env, w.ledger, c).tokenId in s
  {
    var a, b := ChildA(p, env, w.ledger, c), ChildB(p, env, w.ledger, c);
    var records := EnterChildren(p, env, w, c).records;
    assert a.tokenId in records && records[a.tokenId].token == a;
    assert b.tokenId in records && records[b.tokenId].token == b;
  }

  lemma ChildrenNameParent(p: Product, env: Env, st: Ledger, c: Call)
    requires c.Split? && SplitCheck(p, env, st, c).Ok?
    ensures ChildA(p, env, st, c).parentTokenId == Some(st.meta[c.tokenId].tokenId)
    ensures ChildB(p, env, st, c).parentTokenId == Some(st.meta[c.tokenId].tokenId)
  {
  }

  lemma ChildrenBalance(p: Product, env: Env, w: World, c: Call, q: Quantity, s: set<Bytes>)
    requires c.Split? && SplitCheck(p, env, w.ledger, c).Ok? && ChildrenNew(p, env, w, c)
    ensures var w1, w' := LeaveSplit(w, c.tokenId), EnterChildren(p, env, w, c);
            var a, b := ChildA(p, env, w.ledger, c), ChildB(p, env, w.ledger, c);
            Sum(w'.ledger.all, Account(w', q, s)) ==
            Sum(w1.ledger.all, Account(w1, q, s))
            - (if a.tokenId in s && c.tokenId in s then Value(q, a) else 0)
            - (if b.tokenId in s && c.tokenId in s then Value(q, b) else 0)
  {
    hide SplitCheck, CanIssue, IssuedId, Account, Enter, Value, ChildA, ChildB;
    SplitOk(p, env, w.ledger, c);
    ChildrenNameParent(p, env, w.ledger, c);
    var st, id := w.ledger, c.tokenId;
    EnterTwoBalance(LeaveSplit(w, id), ChildA(p, env, st, c), ChildB(p, env, st, c), st.owner[id], st.counter + 1,
                    q, s);
  }

  lemma SplitBalance(p: Product, env: Env, w: World, c: Call, q: Quantity, s: set<Bytes>)
    requires WorldInv(p, w) && c.Split? && SplitCheck(p, env, w.ledger, c).Ok?
    requires Closed(EnterChildren(p, env, w, c).records, s)
    ensures var w' := EnterChildren(p, env, w, c);
            Sum(w'.ledger.all, Account(w', q, s)) == Sum(w.ledger.all, Account(w, q, s))
  {
    hide WorldInv, Account, Closed, EnterChildren, Value, Loss, ChildrenNew;
    var id, m, n := c.tokenId, w.ledger.meta[c.tokenId], w.ledger.counter;
    LeaveSplitBalance(p, w, id, q, s);
    ChildrenAreNew(p, env, w, c);
    ChildrenBalance(p, env, w, c, q, s);
    if id in s {
      ChildrenInSet(p, env, w, c, s);
      ChildrenValue(m, IssuedId(p, env, n + 1), IssuedId(p, env, n + 2), c.amountKg, q);
    }
  }

  lemma ChildrenValue(m: Metadata, idA: Bytes, idB: Bytes, amount: u32, q: Quantity)
    requires 0 < amount < m.totalWeightKg
    ensures Value(q, ChildToken(m, idA, amount)) + Value(q, ChildToken(m, idB, m.totalWeightKg - amount)) ==
            Value(q, m) - Loss(q, m)
  {
  }

  lemma DepositIsNew(p: Product, env: Env, w: World, c: Call)
    requires WorldInv(p, w) && c.Mint? && MintCheck(p, env, w.ledger, c).Ok?
    ensures w.ledger.counter + 1 < TWO_TO_THE_64 && IsNew(w, Deposit(p, env, w.ledger, c).tokenId)
  {
  }

  lemma MintBalance(p: Product, env: Env, w: World, c: Call, q: Quantity, s: set<Bytes>)
    requires WorldInv(p, w) && c.Mint? && MintCheck(p, env, w.ledger, c).Ok?
    ensures var w' := EnterMinted(p, env, w, c);
            Sum(w'.ledger.all, Account(w', q, s)) == Sum(w.ledger.all, Account(w, q, s))
  {
    hide WorldInv, MintCheck, CanIssue, IssuedId, Account, Enter, Value;
    DepositIsNew(p, env, w, c);
    EnterBalance(w, Deposit(p, env, w.ledger, c), c.farmer, w.ledger.counter + 1, q, s);
  }

  lemma UnchangedBalance(w: World, w': World, q: Quantity, s: set<Bytes>)
    requires w'.ledger.all == w.ledger.all && w'.records == w.records && w'.split == w.split
    ensures Sum(w'.ledger.all, Account(w', q, s)) == Sum(w.ledger.all, Account(w, q, s))
  {
  }

  lemma AdvanceBalance(host: Host, p: Product, w: World, i: Invocation, q: Quantity, s: set<Bytes>)
    requires WorldInv(p, w) && Closed(Advance(host, p, w, i).records, s)
    ensures var w' := Advance(host, p, w, i);
            Sum(w'.ledger.all, Account(w', q, s)) == Sum(w.ledger.all, Account(w, q, s))
  {
    var w' := Advance(host, p, w, i);
    AdvanceByMove(host, p, w, i);
    match MoveOf(p, w, i) {
      case Idle => UnchangedBalance(w, w', q, s);
      case Deposited => MintBalance(p, i.env, w, i.call, q, s);
      case Exited => UnchangedBalance(w, w', q, s);
      case Divided => SplitBalance(p, i.env, w, i.call, q, s);
    }
  }

  lemma {:induction false} RunFromBalance(host: Host, p: Product, w: World, run: seq<Invocation>, q: Quantity,
                                          s: set<Bytes>)
    requires WorldInv(p, w) && Closed(RunFrom(host, p, w, run).records, s)
    ensures var w' := RunFrom(host, p, w, run);
            Sum(w'.ledger.all, Account(w', q, s)) == Sum(w.ledger.all, Account(w, q, s))
    decreases |run|
  {
    if run != [] {
      var w1 := Advance(host, p, w, run[0]);
      AdvanceKeepsInv(host, p, w, run[0]);
      RunFromExtends(host, p, w1, run[1..]);
      AdvanceBalance(host, p, w, run[0], q, s);
      RunFromBalance(host, p, w1, run[1..], q, s);
    }
  }

  // ----- The theorem -----------------------------------------------------------

  lemma AccountIs(p: Product, w: World, q: Quantity, s: set<Bytes>, k: Bytes)
    requires WorldInv(p, w) && k in w.ledger.all
    ensures k in w.records && (k in w.ledger.meta || k in w.burned || k in w.split)
    ensures k in w.burned ==> k !in w.ledger.meta
    ensures k in w.split ==> k !in w.ledger.meta && k !in w.burned
    ensures k in w.ledger.meta ==> Value(q, w.ledger.meta[k]) == Value(q, w.records[k].token)
  {
    if k in w.ledger.meta {
      assert w.records[k].token == w.ledger.meta[k].(isLocked := false);
    } else {
      assert k !in w.ledger.meta.Keys;
    }
  }

  lemma BalanceSplitsUp(p: Product, w: World, q: Quantity, s: set<Bytes>)
    requires WorldInv(p, w) && Balanced(w, q, s)
    ensures BeginningTotal(w, q, s) == LiveTotal(w, q, s) + BurnedTotal(w, q, s) + LostTotal(w, q, s)
  {
    hide WorldInv, Value, Loss;
    var all := w.ledger.all;
    var begun: Bytes -> int := k => if Begins(w.records, s, k) then Value(q, w.records[k].token) else 0;
    var live: Bytes -> int := k => if k in s && k in w.ledger.meta then Value(q, w.ledger.meta[k]) else 0;
    var burned: Bytes -> int :=
      k => if k in s && k in w.burned && k in w.records then Value(q, w.records[k].token) else 0;
    var lost: Bytes -> int :=
      k => if k in s && k in w.split && k in w.records then Loss(q, w.records[k].token) else 0;
    var kept: Bytes -> int := k => live(k) + burned(k);
    var accounted: Bytes -> int := k => kept(k) + lost(k);
    SumAdd(all, live, burned, kept);
    SumAdd(all, kept, lost, accounted);
    forall k | k in all
      ensures begun(k) == Account(w, q, s)(k) + accounted(k)
    {
      AccountIs(p, w, q, s, k);
    }
    SumAdd(all, Account(w, q, s), accounted, begun);
  }

  // In every reachable world, for every such set: what it begins with is live,
  // burned, or lost in splits.
  lemma ConservedOverRuns(host: Host, p: Product, run: seq<Invocation>, q: Quantity, s: set<Bytes>)
    requires DistinctIds(p) && Closed(Run(host, p, run).records, s)
    ensures var w := Run(host, p, run);
            BeginningTotal(w, q, s) == LiveTotal(w, q, s) + BurnedTotal(w, q, s) + LostTotal(w, q, s)
  {
    RunKeepsInv(host, p, run);
    RunFromBalance(host, p, GENESIS, run, q, s);
    BalanceSplitsUp(p, Run(host, p, run), q, s);
  }
}
