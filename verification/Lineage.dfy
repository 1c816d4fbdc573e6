/**
 * Split turns one receipt into a tree of receipts.  Parent links are acyclic:
 * from any receipt ever issued they lead, through dead receipts of the same lot,
 * to one that was minted.
 */
module Lineage {
  import opened Prelude
  import opened TokenIds
  import opened ReceiptSpec
  import opened Worlds
  import opened History

  // A receipt followed by its ancestors.
  ghost function Chain(records: map<Bytes, Record>, k: Bytes): seq<Bytes>
    requires Linked(records) && k in records
    decreases records[k].serial
  {
    match records[k].token.parentTokenId
    case None => [k]
    case Some(parent) => [k] + Chain(records, parent)
  }

  ghost predicate IsParentOf(records: map<Bytes, Record>, parent: Bytes, k: Bytes) {
    k in records && parent in records && records[k].token.parentTokenId == Some(parent)
  }

  ghost function Root(records: map<Bytes, Record>, k: Bytes): Bytes
    requires Linked(records) && k in records
    decreases records[k].serial
  {
    match records[k].token.parentTokenId
    case None => k
    case Some(parent) => Root(records, parent)
  }

  ghost predicate IsMinted(records: map<Bytes, Record>, k: Bytes) {
    k in records && records[k].token.parentTokenId.None?
  }

  lemma {:induction false} ChainEndsAtMint(records: map<Bytes, Record>, k: Bytes)
    requires Linked(records) && k in records
    requires forall j :: j in records ==> 0 < records[j].serial
    ensures var ch := Chain(records, k);
            && 1 <= |ch| <= records[k].serial && ch[0] == k
            && ch[|ch| - 1] == Root(records, k) && IsMinted(records, Root(records, k))
            && (forall i :: 0 <= i < |ch| - 1 ==> IsParentOf(records, ch[i + 1], ch[i]))
            && (forall i :: 0 <= i < |ch| ==> ch[i] in records && SameLot(records[ch[i]].token, records[k].token))
            && (forall i :: 1 <= i < |ch| ==> records[ch[i]].serial < records[k].serial)
    decreases records[k].serial
  {
    if records[k].token.parentTokenId.Some? {
      var parent := records[k].token.parentTokenId.value;
      ChainEndsAtMint(records, parent);
      var rest := Chain(records, parent);
      assert forall i :: 1 <= i < |rest| + 1 ==> ([k] + rest)[i] == rest[i - 1];
    }
  }

  // Over any run: the chain of parents takes fewer steps than the token counter,
  // every ancestor was issued earlier, is split for good and belongs to the same
  // lot, and the last one was minted.
  lemma ParentChains(host: Host, p: Product, run: seq<Invocation>, k: Bytes)
    requires DistinctIds(p) && k in Run(host, p, run).records
    ensures var w := Run(host, p, run);
            && Linked(w.records)
            && var ch := Chain(w.records, k);
            && 1 <= |ch| <= w.ledger.counter && ch[0] == k && IsMinted(w.records, ch[|ch| - 1])
            && (forall i :: 0 <= i < |ch| - 1 ==> IsParentOf(w.records, ch[i + 1], ch[i]))
            && (forall i :: 1 <= i < |ch| ==>
                  && ch[i] in w.records && ch[i] in w.split && ch[i] !in w.ledger.meta && ch[i] != k
                  && w.records[ch[i]].serial < w.records[k].serial
                  && SameLot(w.records[ch[i]].token, w.records[k].token))
  {
    RunKeepsInv(host, p, run);
    var w := Run(host, p, run);
    ChainEndsAtMint(w.records, k);
    var ch := Chain(w.records, k);
    forall i | 1 <= i < |ch|
      ensures ch[i] in w.split
    {
      assert IsParentOf(w.records, ch[i - 1 + 1], ch[i - 1]);
    }
  }

  // ----- More facts about every record ----------------------------------------

  predicate WeightIsBagsTimesEach(m: Metadata) {
    m.totalWeightKg == m.bagCount * m.weightPerBagKg
  }

  // The weight fixed at mint is the number of bags times the weight of one.
  ghost predicate MintWeights(w: World) {
    forall k :: IsMinted(w.records, k) ==>
      var m := w.records[k].token;
      WeightIsBagsTimesEach(m) && 0 < m.bagCount && 0 < m.weightPerBagKg
  }

  lemma AdvanceMintWeights(host: Host, p: Product, w: World, i: Invocation)
    requires MintWeights(w)
    ensures MintWeights(Advance(host, p, w, i))
  {
    AdvanceByMove(host, p, w, i);
    hide Advance, Check, SplitCheck, Step, Effect;
    match MoveOf(p, w, i) {
      case _ =>
    }
  }

  lemma {:induction false} RunFromMintWeights(host: Host, p: Product, w: World, run: seq<Invocation>)
    requires WorldInv(p, w) && MintWeights(w)
    ensures MintWeights(RunFrom(host, p, w, run))
    decreases |run|
  {
    if run != [] {
      AdvanceKeepsInv(host, p, w, run[0]);
      AdvanceMintWeights(host, p, w, run[0]);
      RunFromMintWeights(host, p, Advance(host, p, w, run[0]), run[1..]);
    }
  }

  lemma RunMintWeights(host: Host, p: Product, run: seq<Invocation>)
    requires DistinctIds(p)
    ensures MintWeights(Run(host, p, run))
  {
    RunFromMintWeights(host, p, GENESIS, run);
  }

  // No id is ever issued twice: however a run goes on, and whatever the ledger
  // times, the ids issued so far stay a prefix of a list without repeats, and
  // every id issued later was made under a larger counter.
  lemma NoIdIssuedTwice(host: Host, p: Product, run: seq<Invocation>, more: seq<Invocation>)
    requires DistinctIds(p)
    ensures var w, w' := Run(host, p, run), RunFrom(host, p, Run(host, p, run), more);
            && w.ledger.all <= w'.ledger.all && NoDuplicates(w'.ledger.all)
            && forall i, j :: 0 <= i < |w.ledger.all| <= j < |w'.ledger.all| ==>
                 && w'.ledger.all[i] in w.records && w'.ledger.all[j] in w'.records
                 && w.records[w'.ledger.all[i]].serial < w'.records[w'.ledger.all[j]].serial
  {
    var w, w' := Run(host, p, run), RunFrom(host, p, Run(host, p, run), more);
    RunKeepsInv(host, p, run);
    RunFromExtends(host, p, w, more);
    RunFromKeepsInv(host, p, w, more);
    forall i, j | 0 <= i < |w.ledger.all| <= j < |w'.ledger.all|
      ensures && w'.ledger.all[i] in w.records && w'.ledger.all[j] in w'.records
              && w.records[w'.ledger.all[i]].serial < w'.records[w'.ledger.all[j]].serial
    {
      assert w'.ledger.all[i] == w.ledger.all[i];
      SuffixIsNew(w.ledger.all, w'.ledger.all, j);
    }
  }

  lemma SuffixIsNew(xs: seq<Bytes>, ys: seq<Bytes>, j: nat)
    requires xs <= ys && NoDuplicates(ys) && |xs| <= j < |ys|
    ensures ys[j] !in xs
  {
  }
}
