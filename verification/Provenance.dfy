/** Where the contents of a receipt come from, however often it was split. */
module Provenance {
  import opened Prelude
  import opened TokenIds
  import opened ReceiptSpec
  import opened Worlds
  import opened History
  import opened Lineage
  import opened WeightFormula

  // The receipt says what this mint call said and when it was made; the call was
  // signed by a custodian registered at that moment.  A receipt that is no child
  // also has the call's bags and the id issued for it.
  ghost predicate MintedBy(p: Product, w: World, i: Invocation, m: Metadata) {
    && i.call.Mint? && i.call.custodian in i.env.auths && i.call.custodian in w.ledger.custodians
    && i.call.commodity in p.commodities
    && m.commodity == i.call.commodity && m.grade == i.call.grade && m.warehouseId == i.call.warehouseId
    && m.custodian == i.call.custodian && m.weightPerBagKg == i.call.weightPerBagKg
    && m.depositTs == i.env.timestamp
    && (m.parentTokenId.None? ==>
          && m.bagCount == i.call.bagCount && m.totalWeightKg == i.call.bagCount * i.call.weightPerBagKg
          && w.ledger.counter + 1 < 0x1_0000_0000_0000_0000
          && p.issue(i.env.timestamp, w.ledger.counter + 1) == Some(m.tokenId))
  }

  ghost predicate HasMint(host: Host, p: Product, run: seq<Invocation>, n: nat, m: Metadata)
    requires n <= |run|
  {
    exists j :: 0 <= j < n && MintedBy(p, Run(host, p, run[..j]), run[j], m)
  }

  lemma DepositMinted(p: Product, w: World, i: Invocation)
    requires i.call.Mint? && MintCheck(p, i.env, w.ledger, i.call).Ok?
    ensures w.ledger.counter + 1 < TWO_TO_THE_64
    ensures MintedBy(p, w, i, Deposit(p, i.env, w.ledger, i.call))
  {
  }

  lemma ChildMinted(p: Product, w: World, i: Invocation, parent: Metadata, m: Metadata)
    requires MintedBy(p, w, i, parent) && SameLot(parent, m) && m.parentTokenId.Some?
    ensures MintedBy(p, w, i, m)
  {
  }

  // What one more call adds to the records: a deposit, or children.
  lemma NewRecords(host: Host, p: Product, w: World, i: Invocation, k: Bytes)
    requires WorldInv(p, w) && k in Advance(host, p, w, i).records && k !in w.records
    ensures var m := Advance(host, p, w, i).records[k].token;
            if MoveOf(p, w, i).Deposited? then m == Deposit(p, i.env, w.ledger, i.call)
            else m.parentTokenId.Some? && m.parentTokenId.value in w.records
                 && SameLot(w.records[m.parentTokenId.value].token, m)
  {
    hide WorldInv, Advance, EnterChildren, SplitCheck, MintCheck, SameLot;
    AdvanceByMove(host, p, w, i);
    if MoveOf(p, w, i).Divided? {
      AdvanceKeepsInv(host, p, w, i);
      var a, b := SplitChildren(p, i.env, w, i.call);
      NewChild(p, w, Advance(host, p, w, i), i.call, a, b, k);
    } else if MoveOf(p, w, i).Deposited? {
      DepositMinted(p, w, i);
    }
  }

  lemma NewChild(p: Product, w: World, w': World, c: Call, a: Record, b: Record, k: Bytes)
    requires c.Split? && c.tokenId in w.ledger.meta && Children(w, c, a, b) && WorldInv(p, w')
    requires w'.records == w.records[a.token.tokenId := a][b.token.tokenId := b]
    requires k in w'.records && k !in w.records
    ensures var m := w'.records[k].token;
            && m.parentTokenId.Some? && m.parentTokenId.value in w.records
            && SameLot(w.records[m.parentTokenId.value].token, m)
  {
    hide WorldInv, SameLot, IsParentOf;
    LotOfChild(p, w', k);
  }

  lemma LotOfChild(p: Product, w: World, k: Bytes)
    requires WorldInv(p, w) && k in w.records
    ensures var m := w.records[k].token;
            m.parentTokenId.Some? ==>
              m.parentTokenId.value in w.records && SameLot(w.records[m.parentTokenId.value].token, m)
  {
  }

  // In every run each receipt ever issued, live, burned or split, carries the lot,
  // the custodian and the deposit time of an accepted mint of that run.
  lemma {:induction false} RecordsComeFromMints(host: Host, p: Product, run: seq<Invocation>, n: nat, k: Bytes)
    requires DistinctIds(p) && n <= |run| && k in Run(host, p, run[..n]).records
    ensures HasMint(host, p, run, n, Run(host, p, run[..n]).records[k].token)
    decreases n
  {
    if n == 0 {
      NothingIssued(host, p, run);
    } else {
      var w, i := Run(host, p, run[..n - 1]), run[n - 1];
      assert run[..n] == run[..n - 1] + [i];
      RunFromLast(host, p, GENESIS, run[..n - 1], i);
      RunKeepsInv(host, p, run[..n - 1]);
      RecordKept(host, p, w, i);
      hide Advance, WorldInv, RunFrom, MintedBy;
      if k in w.records {
        RecordsComeFromMints(host, p, run, n - 1, k);
      } else {
        NewRecords(host, p, w, i, k);
        var m := Advance(host, p, w, i).records[k].token;
        if MoveOf(p, w, i).Deposited? {
          DepositMinted(p, w, i);
        } else {
          var parent := m.parentTokenId.value;
          RecordsComeFromMints(host, p, run, n - 1, parent);
          var j :| 0 <= j < n - 1 && MintedBy(p, Run(host, p, run[..j]), run[j], w.records[parent].token);
          ChildMinted(p, Run(host, p, run[..j]), run[j], w.records[parent].token, m);
        }
      }
    }
  }

  lemma NothingIssued(host: Host, p: Product, run: seq<Invocation>)
    ensures Run(host, p, run[..0]).records == map[]
  {
    assert run[..0] == [];
  }

  lemma RecordKept(host: Host, p: Product, w: World, i: Invocation)
    requires WorldInv(p, w)
    ensures forall k :: k in w.records ==>
              k in Advance(host, p, w, i).records && Advance(host, p, w, i).records[k] == w.records[k]
  {
    AdvanceExtends(host, p, w, i);
    hide WorldInv, Advance;
  }
}
