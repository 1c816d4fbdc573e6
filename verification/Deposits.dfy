/** What conservation says of one receipt, of a class of receipts and of bags. */
module Deposits {
  import opened Prelude
  import opened TokenIds
  import opened ReceiptSpec
  import opened Worlds
  import opened History
  import opened Lineage
  import opened Sums
  import opened Conservation

  // ----- A receipt and everything split from it --------------------------------

  ghost predicate Below(records: map<Bytes, Record>, k: Bytes, top: Bytes)
    requires Linked(records) && k in records
    decreases records[k].serial
  {
    k == top ||
    match records[k].token.parentTokenId
    case None => false
    case Some(parent) => Below(records, parent, top)
  }

  ghost function DescendantsOf(records: map<Bytes, Record>, top: Bytes): set<Bytes>
    requires Linked(records)
  {
    set k | k in records && Below(records, k, top)
  }

  lemma DescendantsClosed(records: map<Bytes, Record>, top: Bytes)
    requires Linked(records)
    ensures Closed(records, DescendantsOf(records, top))
  {
  }

  lemma {:induction false} BelowIsLater(records: map<Bytes, Record>, k: Bytes, top: Bytes)
    requires Linked(records) && k in records && top in records && Below(records, k, top)
    ensures records[top].serial <= records[k].serial
    decreases records[k].serial
  {
    if k != top {
      BelowIsLater(records, records[k].token.parentTokenId.value, top);
    }
  }

  // The descendants of a receipt begin with the receipt alone.
  lemma DescendantsBegin(records: map<Bytes, Record>, top: Bytes, k: Bytes)
    requires Linked(records) && top in records
    ensures Begins(records, DescendantsOf(records, top), k) <==> k == top
  {
    if k == top && ParentIn(records[top].token, DescendantsOf(records, top)) {
      BelowIsLater(records, records[top].token.parentTokenId.value, top);
    }
  }

  // Of a minted receipt they are the receipts whose root it is.
  lemma {:induction false} DescendantsOfMint(records: map<Bytes, Record>, k: Bytes, root: Bytes)
    requires Linked(records) && k in records && IsMinted(records, root)
    ensures k in DescendantsOf(records, root) <==> Root(records, k) == root
    decreases records[k].serial
  {
    if k != root && records[k].token.parentTokenId.Some? {
      DescendantsOfMint(records, records[k].token.parentTokenId.value, root);
    }
  }

  ghost function SplitCount(w: World, s: set<Bytes>): int {
    Sum(w.ledger.all, k => if k in s && k in w.split && k in w.records then 1 else 0)
  }

  lemma DescendantsTotal(p: Product, w: World, q: Quantity, top: Bytes)
    requires WorldInv(p, w) && top in w.records
    ensures BeginningTotal(w, q, DescendantsOf(w.records, top)) == Value(q, w.records[top].token)
  {
    var s := DescendantsOf(w.records, top);
    var zero: Bytes -> int := k => 0;
    var begun: Bytes -> int := k => if Begins(w.records, s, k) then Value(q, w.records[k].token) else 0;
    forall k: Bytes
      ensures Begins(w.records, s, k) <==> k == top
    {
      DescendantsBegin(w.records, top, k);
    }
    hide Begins, DescendantsOf, Linked, ParentsAreSplit, Partitioned;
    SumZero(w.ledger.all, zero);
    SumChange(w.ledger.all, zero, begun, top);
  }

  lemma NoWeightLost(w: World, s: set<Bytes>)
    ensures LostTotal(w, Weight, s) == 0
  {
    SumZero(w.ledger.all, k => if k in s && k in w.split && k in w.records
                               then Loss(Weight, w.records[k].token) else 0);
  }

  // The weight of any receipt ever issued is, for ever, the weight of the live
  // receipts split from it plus the weight burned of them.
  lemma DescendantConservation(host: Host, p: Product, run: seq<Invocation>, top: Bytes)
    requires DistinctIds(p) && top in Run(host, p, run).records
    ensures var w := Run(host, p, run);
            && Linked(w.records)
            && var s := DescendantsOf(w.records, top);
               LiveTotal(w, Weight, s) + BurnedTotal(w, Weight, s) == w.records[top].token.totalWeightKg
  {
    var w := Run(host, p, run);
    RunKeepsInv(host, p, run);
    assert Linked(w.records);
    hide Run, Inv, RecordsComplete, Partitioned, Linked, ParentsAreSplit, Closed, DescendantsOf;
    var s := DescendantsOf(w.records, top);
    DescendantsClosed(w.records, top);
    ConservedOverRuns(host, p, run, Weight, s);
    DescendantsTotal(p, w, Weight, top);
    NoWeightLost(w, s);
  }

  // For a deposit this is the weight fixed at mint, bags times weight per bag, and
  // its whole lineage.
  lemma LineageConservation(host: Host, p: Product, run: seq<Invocation>, root: Bytes)
    requires DistinctIds(p) && IsMinted(Run(host, p, run).records, root)
    ensures var w := Run(host, p, run);
            && Linked(w.records)
            && var s, m := DescendantsOf(w.records, root), w.records[root].token;
            && (forall k :: k in w.records ==> (k in s <==> Root(w.records, k) == root))
            && LiveTotal(w, Weight, s) + BurnedTotal(w, Weight, s) == m.bagCount * m.weightPerBagKg
  {
    var w := Run(host, p, run);
    RunMintWeights(host, p, run);
    DescendantConservation(host, p, run, root);
    forall k | k in w.records
      ensures k in DescendantsOf(w.records, root) <==> Root(w.records, k) == root
    {
      DescendantsOfMint(w.records, k, root);
    }
  }

  lemma LostPieces(w: World, s: set<Bytes>)
    ensures LostTotal(w, Pieces, s) == -SplitCount(w, s)
  {
    var lost: Bytes -> int :=
      k => if k in s && k in w.split && k in w.records then Loss(Pieces, w.records[k].token) else 0;
    var count: Bytes -> int := k => if k in s && k in w.split && k in w.records then 1 else 0;
    var zero: Bytes -> int := k => 0;
    SumAdd(w.ledger.all, lost, count, zero);
    SumZero(w.ledger.all, zero);
  }

  // A piece weighs at least a kilogram.
  lemma LivePiecesWeigh(p: Product, w: World, s: set<Bytes>)
    requires Inv(p, w.ledger)
    ensures 0 <= LiveTotal(w, Pieces, s) <= LiveTotal(w, Weight, s)
  {
    var zero: Bytes -> int := k => 0;
    var pieces: Bytes -> int := k => if k in s && k in w.ledger.meta then Value(Pieces, w.ledger.meta[k]) else 0;
    var weight: Bytes -> int := k => if k in s && k in w.ledger.meta then Value(Weight, w.ledger.meta[k]) else 0;
    SumZero(w.ledger.all, zero);
    SumLe(w.ledger.all, zero, pieces);
    SumLe(w.ledger.all, pieces, weight);
  }

  lemma BurnedPiecesWeigh(w: World, s: set<Bytes>)
    requires RecordsComplete(w)
    ensures 0 <= BurnedTotal(w, Pieces, s) <= BurnedTotal(w, Weight, s)
  {
    var zero: Bytes -> int := k => 0;
    var pieces: Bytes -> int :=
      k => if k in s && k in w.burned && k in w.records then Value(Pieces, w.records[k].token) else 0;
    var weight: Bytes -> int :=
      k => if k in s && k in w.burned && k in w.records then Value(Weight, w.records[k].token) else 0;
    SumZero(w.ledger.all, zero);
    SumLe(w.ledger.all, zero, pieces);
    SumLe(w.ledger.all, pieces, weight);
  }

  // A receipt of W kg is split at most W - 1 times, itself and below itself, and
  // its pieces, live or burned, are one more than these splits: never more than W.
  lemma SplitsBoundedByWeight(host: Host, p: Product, run: seq<Invocation>, top: Bytes)
    requires DistinctIds(p) && top in Run(host, p, run).records
    ensures var w := Run(host, p, run);
            && Linked(w.records)
            && var s, kg := DescendantsOf(w.records, top), w.records[top].token.totalWeightKg;
            && LiveTotal(w, Pieces, s) + BurnedTotal(w, Pieces, s) == 1 + SplitCount(w, s)
            && SplitCount(w, s) <= kg - 1 && LiveTotal(w, Pieces, s) <= kg
  {
    var w := Run(host, p, run);
    hide Run, Inv, Partitioned, Linked, ParentsAreSplit, Closed, DescendantsOf, LiveTotal, BurnedTotal;
    hide BeginningTotal, LostTotal, SplitCount;
    DescendantConservation(host, p, run, top);
    RunKeepsInv(host, p, run);
    var s := DescendantsOf(w.records, top);
    DescendantsClosed(w.records, top);
    ConservedOverRuns(host, p, run, Pieces, s);
    DescendantsTotal(p, w, Pieces, top);
    LostPieces(w, s);
    LivePiecesWeigh(p, w, s);
    BurnedPiecesWeigh(w, s);
  }

  // ----- Classes and bags ----------------------------------------------------------

  datatype Class = Class(commodity: string, grade: string, warehouseId: string, custodian: Address)

  function ClassOf(m: Metadata): Class {
    Class(m.commodity, m.grade, m.warehouseId, m.custodian)
  }

  ghost function ClassMembers(records: map<Bytes, Record>, c: Class): set<Bytes> {
    set k | k in records && ClassOf(records[k].token) == c
  }

  ghost function MintedTotal(w: World, q: Quantity, s: set<Bytes>): int {
    Sum(w.ledger.all, k => if k in s && IsMinted(w.records, k) then Value(q, w.records[k].token) else 0)
  }

  // A set that holds a child just when it holds the parent begins with its mints.
  lemma BeginsWithMints(w: World, q: Quantity, s: set<Bytes>)
    requires forall k :: k in s && k in w.records && w.records[k].token.parentTokenId.Some? ==>
                           ParentIn(w.records[k].token, s)
    ensures BeginningTotal(w, q, s) == MintedTotal(w, q, s)
  {
    SumSame(w.ledger.all,
            k => if Begins(w.records, s, k) then Value(q, w.records[k].token) else 0,
            k => if k in s && IsMinted(w.records, k) then Value(q, w.records[k].token) else 0);
  }

  // For every commodity, grade, warehouse and custodian: live weight is minted
  // weight less burned weight.
  lemma ClassConservation(host: Host, p: Product, run: seq<Invocation>, c: Class)
    requires DistinctIds(p)
    ensures var w := Run(host, p, run);
            var s := ClassMembers(w.records, c);
            LiveTotal(w, Weight, s) == MintedTotal(w, Weight, s) - BurnedTotal(w, Weight, s)
  {
    var w := Run(host, p, run);
    var s := ClassMembers(w.records, c);
    RunKeepsInv(host, p, run);
    BeginsWithMints(w, Weight, s);
    ConservedOverRuns(host, p, run, Weight, s);
    NoWeightLost(w, s);
  }

  // A split keeps two halves of the bags, rounded down: over a whole run the bags
  // that disappear are one for every split of a receipt with an odd number.
  lemma BagAccounting(host: Host, p: Product, run: seq<Invocation>)
    requires DistinctIds(p)
    ensures var w := Run(host, p, run);
            var s := w.records.Keys;
            && MintedTotal(w, Bags, s) == LiveTotal(w, Bags, s) + BurnedTotal(w, Bags, s) + OddSplits(w)
  {
    var w := Run(host, p, run);
    var s := w.records.Keys;
    RunKeepsInv(host, p, run);
    BeginsWithMints(w, Bags, s);
    ConservedOverRuns(host, p, run, Bags, s);
    SumSame(w.ledger.all,
            k => if k in s && k in w.split && k in w.records then Loss(Bags, w.records[k].token) else 0,
            k => if k in w.split && k in w.records && w.records[k].token.bagCount % 2 == 1 then 1 else 0);
  }

  ghost function OddSplits(w: World): int {
    Sum(w.ledger.all,
        k => if k in w.split && k in w.records && w.records[k].token.bagCount % 2 == 1 then 1 else 0)
  }
}
