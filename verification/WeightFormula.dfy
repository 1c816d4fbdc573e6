/**
 * The token standard gives the weight of every receipt as its bags times the
 * weight of one.  A split need not respect that; here is exactly when it does,
 * for one split and for whole runs.
 */
module WeightFormula {
  import opened Prelude
  import opened TokenIds
  import opened ReceiptSpec
  import opened Worlds
  import opened Invariants
  import opened History
  import opened Lineage

  // ----- One split ------------------------------------------------------------------

  predicate HalvesEvenly(m: Metadata, amount: u32) {
    m.bagCount % 2 == 0 && 2 * amount == m.totalWeightKg
  }

  lemma HalvedProduct(half: int, odd: int, each: int)
    ensures (2 * half + odd) * each == 2 * (half * each) + odd * each
  {
  }

  lemma OddPart(odd: int, each: int)
    requires odd == 0 || odd == 1
    ensures odd * each == if odd == 0 then 0 else each
  {
  }

  // Whatever the parent weighs, both children meet the formula exactly when each
  // gets the weight of its bags.  If the parent meets it, that is when its bags
  // halve evenly and so does its weight.
  lemma SplitKeepsWeightFormula(m: Metadata, idA: Bytes, idB: Bytes, amount: u32)
    requires 0 < amount < m.totalWeightKg
    ensures var half := m.bagCount / 2 * m.weightPerBagKg;
            var kept := WeightIsBagsTimesEach(ChildToken(m, idA, amount))
                        && WeightIsBagsTimesEach(ChildToken(m, idB, m.totalWeightKg - amount));
            && (kept <==> amount == half && m.totalWeightKg == 2 * half)
            && (WeightIsBagsTimesEach(m) ==> (kept <==> HalvesEvenly(m, amount)))
  {
    var half := m.bagCount / 2;
    var odd := m.bagCount - 2 * half;
    HalvedProduct(half, odd, m.weightPerBagKg);
    OddPart(odd, m.weightPerBagKg);
    assert m.bagCount * m.weightPerBagKg == (2 * half + odd) * m.weightPerBagKg;
    if WeightIsBagsTimesEach(m) {
      assert m.weightPerBagKg != 0;
    }
  }

  // ----- Every split receipt has its two children -------------------------------------

  ghost predicate Divides(records: map<Bytes, Record>, id: Bytes, a: Bytes, b: Bytes) {
    && a != b && IsParentOf(records, id, a) && IsParentOf(records, id, b)
    && (forall k :: IsParentOf(records, id, k) ==> k == a || k == b)
    && var m, x, y := records[id].token, records[a].token, records[b].token;
       && x.totalWeightKg + y.totalWeightKg == m.totalWeightKg
       && x.bagCount == m.bagCount / 2 && y.bagCount == m.bagCount / 2
  }

  ghost predicate SplitsInTwo(w: World) {
    forall id :: id in w.split ==> exists a, b :: Divides(w.records, id, a, b)
  }

  lemma EnterKeepsDivides(records: map<Bytes, Record>, k: Bytes, r: Record, id: Bytes, a: Bytes, b: Bytes)
    requires Divides(records, id, a, b) && k !in records && r.token.parentTokenId != Some(id)
    ensures Divides(records[k := r], id, a, b)
  {
    var records' := records[k := r];
    assert IsParentOf(records', id, a) && IsParentOf(records', id, b);
    forall j | IsParentOf(records', id, j)
      ensures j == a || j == b
    {
      assert IsParentOf(records, id, j);
    }
  }

  lemma EnterKeepsSplits(w: World, m: Metadata, owner: Address, n: u64)
    requires m.tokenId !in w.records
    requires m.parentTokenId.Some? ==> m.parentTokenId.value !in w.split
    requires SplitsInTwo(w)
    ensures SplitsInTwo(Enter(w, m, owner, n))
  {
    hide Divides;
    var records' := Enter(w, m, owner, n).records;
    forall id | id in w.split
      ensures exists a, b :: Divides(records', id, a, b)
    {
      var a, b :| Divides(w.records, id, a, b);
      EnterKeepsDivides(w.records, m.tokenId, Record(m, n), id, a, b);
    }
  }

  // The two new records are the children of the receipt that was split.
  lemma SplitDivides(records: map<Bytes, Record>, id: Bytes, a: Record, b: Record)
    requires id in records && a.token.tokenId !in records && b.token.tokenId !in records
    requires a.token.tokenId != b.token.tokenId
    requires a.token.parentTokenId == Some(id) && b.token.parentTokenId == Some(id)
    requires forall k :: !IsParentOf(records, id, k)
    requires var m := records[id].token;
             && a.token.totalWeightKg + b.token.totalWeightKg == m.totalWeightKg
             && a.token.bagCount == m.bagCount / 2 && b.token.bagCount == m.bagCount / 2
    ensures Divides(records[a.token.tokenId := a][b.token.tokenId := b], id, a.token.tokenId, b.token.tokenId)
  {
    var records' := records[a.token.tokenId := a][b.token.tokenId := b];
    forall k | IsParentOf(records', id, k)
      ensures k == a.token.tokenId || k == b.token.tokenId
    {
      if k in records {
        assert !IsParentOf(records, id, k);
      }
    }
  }

  // What a split finds of its receipt, and the receipts it makes.
  lemma ChildrenOf(p: Product, env: Env, w: World, c: Call)
    requires WorldInv(p, w) && c.Split? && SplitCheck(p, env, w.ledger, c).Ok?
    ensures var m, a, b := w.ledger.meta[c.tokenId], ChildA(p, env, w.ledger, c), ChildB(p, env, w.ledger, c);
            && c.tokenId in w.records && c.tokenId !in w.split
            && w.records[c.tokenId].token.bagCount == m.bagCount
            && w.records[c.tokenId].token.totalWeightKg == m.totalWeightKg
            && a.parentTokenId == Some(c.tokenId) && b.parentTokenId == Some(c.tokenId)
            && a.totalWeightKg == c.amountKg && b.totalWeightKg == m.totalWeightKg - c.amountKg
            && a.bagCount == m.bagCount / 2 && b.bagCount == m.bagCount / 2
            && (forall k :: !IsParentOf(w.records, c.tokenId, k))
  {
    assert c.tokenId in w.ledger.meta.Keys;
    assert w.records[c.tokenId].token == w.ledger.meta[c.tokenId].(isLocked := false);
  }

  lemma ChildrenRecords(p: Product, env: Env, w: World, c: Call)
    requires c.Split? && SplitCheck(p, env, w.ledger, c).Ok?
    ensures var st, w' := w.ledger, EnterChildren(p, env, w, c);
            var a, b := ChildA(p, env, st, c), ChildB(p, env, st, c);
            && st.counter + 2 < TWO_TO_THE_64
            && w'.records == w.records[a.tokenId := Record(a, st.counter + 1)][b.tokenId := Record(b, st.counter + 2)]
            && w'.split == w.split + {c.tokenId}
  {
    SplitOk(p, env, w.ledger, c);
    hide SplitCheck, ChildA, ChildB, CanIssue;
  }

  // An accepted split in terms of records.
  ghost predicate Children(w: World, c: Call, a: Record, b: Record)
    requires c.Split? && c.tokenId in w.ledger.meta
  {
    var id := c.tokenId;
    && id in w.records && id !in w.split
    && a.token.tokenId !in w.records && b.token.tokenId !in w.records && a.token.tokenId != b.token.tokenId
    && a.token.parentTokenId == Some(id) && b.token.parentTokenId == Some(id)
    && a.token.totalWeightKg == c.amountKg
    && a.token.totalWeightKg + b.token.totalWeightKg == w.records[id].token.totalWeightKg
    && a.token.bagCount == w.records[id].token.bagCount / 2 && b.token.bagCount == w.records[id].token.bagCount / 2
    && (forall k :: !IsParentOf(w.records, id, k))
    && w.records[id].token.bagCount == w.ledger.meta[id].bagCount
    && w.records[id].token.totalWeightKg == w.ledger.meta[id].totalWeightKg
  }

  lemma SplitChildren(p: Product, env: Env, w: World, c: Call) returns (a: Record, b: Record)
    requires WorldInv(p, w) && c.Split? && SplitCheck(p, env, w.ledger, c).Ok?
    ensures c.tokenId in w.ledger.meta && Children(w, c, a, b)
    ensures EnterChildren(p, env, w, c).records == w.records[a.token.tokenId := a][b.token.tokenId := b]
    ensures EnterChildren(p, env, w, c).split == w.split + {c.tokenId}
  {
    hide WorldInv, SplitCheck, ChildA, ChildB, CanIssue, EnterChildren, IsParentOf;
    var st := w.ledger;
    SplitOk(p, env, st, c);
    ChildrenOf(p, env, w, c);
    ChildrenAreNew(p, env, w, c);
    ChildrenRecords(p, env, w, c);
    a, b := Record(ChildA(p, env, st, c), st.counter + 1), Record(ChildB(p, env, st, c), st.counter + 2);
  }

  lemma ChildrenKeepSplits(p: Product, env: Env, w: World, c: Call)
    requires WorldInv(p, w) && SplitsInTwo(w) && c.Split? && SplitCheck(p, env, w.ledger, c).Ok?
    ensures SplitsInTwo(EnterChildren(p, env, w, c))
  {
    hide WorldInv, SplitCheck, EnterChildren, IsParentOf, SplitsInTwo;
    var a, b := SplitChildren(p, env, w, c);
    TwoMoreChildren(w, EnterChildren(p, env, w, c), c, a, b);
  }

  lemma TwoMoreChildren(w: World, w': World, c: Call, a: Record, b: Record)
    requires SplitsInTwo(w) && c.Split? && c.tokenId in w.ledger.meta && Children(w, c, a, b)
    requires w'.records == w.records[a.token.tokenId := a][b.token.tokenId := b]
    requires w'.split == w.split + {c.tokenId}
    ensures SplitsInTwo(w')
  {
    hide Divides;
    SplitDivides(w.records, c.tokenId, a, b);
    forall k | k in w.split
      ensures exists x, y :: Divides(w'.records, k, x, y)
    {
      var x, y :| Divides(w.records, k, x, y);
      EnterKeepsDivides(w.records, a.token.tokenId, a, k, x, y);
      EnterKeepsDivides(w.records[a.token.tokenId := a], b.token.tokenId, b, k, x, y);
    }
  }

  lemma AdvanceSplitsInTwo(host: Host, p: Product, w: World, i: Invocation)
    requires WorldInv(p, w) && SplitsInTwo(w)
    ensures SplitsInTwo(Advance(host, p, w, i))
  {
    hide WorldInv, Advance, Divides, MintCheck, SplitCheck, EnterChildren;
    AdvanceByMove(host, p, w, i);
    match MoveOf(p, w, i) {
      case Idle =>
      case Deposited =>
        DepositIsFirst(p, i.env, w, i.call);
        EnterKeepsSplits(w, Deposit(p, i.env, w.ledger, i.call), i.call.farmer, w.ledger.counter + 1);
      case Exited =>
      case Divided => ChildrenKeepSplits(p, i.env, w, i.call);
    }
  }

  lemma DepositIsFirst(p: Product, env: Env, w: World, c: Call)
    requires WorldInv(p, w) && c.Mint? && MintCheck(p, env, w.ledger, c).Ok?
    ensures var m := Deposit(p, env, w.ledger, c);
            && w.ledger.counter + 1 < TWO_TO_THE_64 && m.tokenId !in w.records && m.parentTokenId.None?
            && WeightIsBagsTimesEach(m)
  {
  }

  lemma {:induction false} RunFromSplitsInTwo(host: Host, p: Product, w: World, run: seq<Invocation>)
    requires WorldInv(p, w) && SplitsInTwo(w)
    ensures SplitsInTwo(RunFrom(host, p, w, run))
    decreases |run|
  {
    hide WorldInv, SplitsInTwo, Advance;
    if run != [] {
      AdvanceKeepsInv(host, p, w, run[0]);
      AdvanceSplitsInTwo(host, p, w, run[0]);
      RunFromSplitsInTwo(host, p, Advance(host, p, w, run[0]), run[1..]);
    }
  }

  // In every run each split receipt has exactly two children.  They weigh what it
  // weighed, and each has half its bags, rounded down.
  lemma RunSplitsInTwo(host: Host, p: Product, run: seq<Invocation>)
    requires DistinctIds(p)
    ensures SplitsInTwo(Run(host, p, run))
  {
    hide WorldInv, RunFrom;
    GenesisInv(p);
    RunFromSplitsInTwo(host, p, GENESIS, run);
  }

  lemma GenesisInv(p: Product)
    requires DistinctIds(p)
    ensures WorldInv(p, GENESIS)
  {
  }

  // ----- Weight beyond that of the bags -------------------------------------------------

  function Excess(m: Metadata): int {
    m.totalWeightKg - m.bagCount * m.weightPerBagKg
  }

  lemma ExcessIsZero(m: Metadata)
    ensures WeightIsBagsTimesEach(m) <==> Excess(m) == 0
  {
  }

  // A split passes the excess on to the children, and adds to it the odd bag.
  lemma ExcessDivides(m: Metadata, x: Metadata, y: Metadata)
    requires x.weightPerBagKg == m.weightPerBagKg && y.weightPerBagKg == m.weightPerBagKg
    requires x.totalWeightKg + y.totalWeightKg == m.totalWeightKg
    requires x.bagCount == m.bagCount / 2 && y.bagCount == m.bagCount / 2
    ensures Excess(x) + Excess(y) == Excess(m) + (if m.bagCount % 2 == 1 then m.weightPerBagKg else 0)
  {
    var half, odd, each := m.bagCount / 2, m.bagCount % 2, m.weightPerBagKg;
    HalvedProduct(half, odd, each);
    OddPart(odd, each);
    assert m.bagCount == 2 * half + odd;
    assert m.bagCount * each == (2 * half + odd) * each;
  }

  ghost predicate LeavesMeetFormula(w: World) {
    forall k :: k in w.records && k !in w.split ==> WeightIsBagsTimesEach(w.records[k].token)
  }

  ghost predicate AllMeetFormula(records: map<Bytes, Record>) {
    forall k :: k in records ==> WeightIsBagsTimesEach(records[k].token)
  }

  // Every child has exactly half of an even number of bags and of the weight.
  ghost predicate SplitsHalveEvenly(records: map<Bytes, Record>) {
    forall parent, k :: IsParentOf(records, parent, k) ==>
      HalvesEvenly(records[parent].token, records[k].token.totalWeightKg)
  }

  ghost predicate Lots(w: World) {
    RecordsComplete(w) && Linked(w.records) && ParentsAreSplit(w) && SplitsInTwo(w) && MintWeights(w)
  }

  lemma ParentDivides(w: World, id: Bytes) returns (a: Bytes, b: Bytes)
    requires Lots(w) && id in w.split
    ensures Divides(w.records, id, a, b)
    ensures var m, x, y := w.records[id].token, w.records[a].token, w.records[b].token;
            && Excess(x) + Excess(y) == Excess(m) + (if m.bagCount % 2 == 1 then m.weightPerBagKg else 0)
            && x.weightPerBagKg == m.weightPerBagKg && y.weightPerBagKg == m.weightPerBagKg
            && w.records[id].serial < w.records[a].serial <= w.ledger.counter
            && w.records[id].serial < w.records[b].serial <= w.ledger.counter
  {
    a, b :| Divides(w.records, id, a, b);
    assert SameLot(w.records[id].token, w.records[a].token) && SameLot(w.records[id].token, w.records[b].token);
    ExcessDivides(w.records[id].token, w.records[a].token, w.records[b].token);
  }

  // If the receipts that were never split meet the formula, none has an excess ...
  lemma {:induction false} NoExcess(w: World, k: Bytes)
    requires Lots(w) && LeavesMeetFormula(w) && k in w.records
    ensures Excess(w.records[k].token) <= 0
    decreases w.ledger.counter - w.records[k].serial
  {
    if k in w.split {
      var a, b := ParentDivides(w, k);
      NoExcess(w, a);
      NoExcess(w, b);
    } else {
      ExcessIsZero(w.records[k].token);
    }
  }

  // ... and as the deposits meet it, nothing below them can fall short.
  lemma {:induction false} NoShortfall(w: World, k: Bytes)
    requires Lots(w) && LeavesMeetFormula(w) && k in w.records
    ensures Excess(w.records[k].token) == 0 && 0 < w.records[k].token.weightPerBagKg
    decreases w.records[k].serial
  {
    var m := w.records[k].token;
    if m.parentTokenId.Some? {
      var parent := m.parentTokenId.value;
      NoShortfall(w, parent);
      NothingLost(w, parent);
      assert IsParentOf(w.records, parent, k);
    } else {
      assert IsMinted(w.records, k);
    }
  }

  lemma NothingLost(w: World, id: Bytes)
    requires Lots(w) && LeavesMeetFormula(w) && id in w.split && id in w.records
    requires Excess(w.records[id].token) == 0 && 0 < w.records[id].token.weightPerBagKg
    ensures var m := w.records[id].token;
            && m.bagCount % 2 == 0
            && forall k :: IsParentOf(w.records, id, k) ==>
                 Excess(w.records[k].token) == 0 && w.records[k].token.weightPerBagKg == m.weightPerBagKg
  {
    var a, b := ParentDivides(w, id);
    hide Excess, Lots, LeavesMeetFormula;
    NoExcess(w, a);
    NoExcess(w, b);
  }

  // A child of an even parent, both of them on the formula, has half its weight.
  lemma EvenChild(m: Metadata, x: Metadata)
    requires Excess(m) == 0 && Excess(x) == 0 && m.bagCount % 2 == 0
    requires x.bagCount == m.bagCount / 2 && x.weightPerBagKg == m.weightPerBagKg
    ensures 2 * x.totalWeightKg == m.totalWeightKg
  {
    HalvedProduct(x.bagCount, 0, x.weightPerBagKg);
    assert m.bagCount * m.weightPerBagKg == (2 * x.bagCount) * x.weightPerBagKg;
  }

  lemma LeavesDecide(w: World)
    requires Lots(w) && LeavesMeetFormula(w)
    ensures AllMeetFormula(w.records) && SplitsHalveEvenly(w.records)
  {
    forall k | k in w.records
      ensures WeightIsBagsTimesEach(w.records[k].token)
    {
      NoShortfall(w, k);
      ExcessIsZero(w.records[k].token);
    }
    forall parent, k | IsParentOf(w.records, parent, k)
      ensures HalvesEvenly(w.records[parent].token, w.records[k].token.totalWeightKg)
    {
      NoShortfall(w, parent);
      NoShortfall(w, k);
      NothingLost(w, parent);
      var a, b := ParentDivides(w, parent);
      EvenChild(w.records[parent].token, w.records[k].token);
    }
  }

  lemma HalfOnFormula(m: Metadata, x: Metadata)
    requires Excess(m) == 0 && HalvesEvenly(m, x.totalWeightKg)
    requires x.bagCount == m.bagCount / 2 && x.weightPerBagKg == m.weightPerBagKg
    ensures Excess(x) == 0
  {
    HalvedProduct(x.bagCount, 0, x.weightPerBagKg);
    assert m.bagCount * m.weightPerBagKg == (2 * x.bagCount) * x.weightPerBagKg;
  }

  lemma {:induction false} EvenSplitsKeepFormula(w: World, k: Bytes)
    requires Lots(w) && SplitsHalveEvenly(w.records) && k in w.records
    ensures Excess(w.records[k].token) == 0
    decreases w.records[k].serial
  {
    var m := w.records[k].token;
    if m.parentTokenId.Some? {
      var parent := m.parentTokenId.value;
      EvenSplitsKeepFormula(w, parent);
      var a, b := ParentDivides(w, parent);
      assert IsParentOf(w.records, parent, k);
      HalfOnFormula(w.records[parent].token, m);
    } else {
      assert IsMinted(w.records, k);
    }
  }

  lemma FormulaIff(w: World)
    requires Lots(w)
    ensures LeavesMeetFormula(w) <==> SplitsHalveEvenly(w.records)
    ensures AllMeetFormula(w.records) <==> SplitsHalveEvenly(w.records)
  {
    if AllMeetFormula(w.records) || LeavesMeetFormula(w) {
      LeavesDecide(w);
    }
    if SplitsHalveEvenly(w.records) {
      forall k | k in w.records
        ensures WeightIsBagsTimesEach(w.records[k].token)
      {
        EvenSplitsKeepFormula(w, k);
        ExcessIsZero(w.records[k].token);
      }
    }
  }

  // ----- Over runs ------------------------------------------------------------------

  // The call is no split that goes through, or one that halves evenly; a caller can
  // tell before it calls.
  predicate KeepsFormula(p: Product, w: World, i: Invocation) {
    MoveOf(p, w, i).Divided? ==>
      i.call.tokenId in w.ledger.meta && HalvesEvenly(w.ledger.meta[i.call.tokenId], i.call.amountKg)
  }

  predicate AllKeepFormula(host: Host, p: Product, w: World, run: seq<Invocation>)
    decreases |run|
  {
    run == [] || (KeepsFormula(p, w, run[0]) && AllKeepFormula(host, p, Advance(host, p, w, run[0]), run[1..]))
  }

  ghost predicate ParentsKnown(records: map<Bytes, Record>) {
    forall k :: k in records && records[k].token.parentTokenId.Some? ==>
      records[k].token.parentTokenId.value in records
  }

  lemma AllParentsKnown(p: Product, w: World)
    requires WorldInv(p, w)
    ensures ParentsKnown(w.records)
  {
  }

  // A receipt is entered: minted, or as the child of one that was issued before.
  lemma EnterHalves(records: map<Bytes, Record>, k: Bytes, r: Record, records': map<Bytes, Record>)
    requires ParentsKnown(records) && k !in records && records' == records[k := r]
    requires r.token.parentTokenId.Some? ==> r.token.parentTokenId.value in records
    ensures ParentsKnown(records')
    ensures SplitsHalveEvenly(records') <==>
              && SplitsHalveEvenly(records)
              && (r.token.parentTokenId.Some? ==>
                    HalvesEvenly(records[r.token.parentTokenId.value].token, r.token.totalWeightKg))
  {
    hide HalvesEvenly;
    forall parent, j | IsParentOf(records, parent, j)
      ensures IsParentOf(records', parent, j) && parent != k && j != k
    {
    }
    forall parent, j | IsParentOf(records', parent, j)
      ensures parent != k && (j == k || IsParentOf(records, parent, j))
    {
    }
    if r.token.parentTokenId.Some? {
      assert IsParentOf(records', r.token.parentTokenId.value, k);
    }
  }

  lemma TwoChildrenHalve(w: World, c: Call, a: Record, b: Record)
    requires ParentsKnown(w.records) && c.Split? && c.tokenId in w.ledger.meta && Children(w, c, a, b)
    ensures SplitsHalveEvenly(w.records[a.token.tokenId := a][b.token.tokenId := b]) <==>
              SplitsHalveEvenly(w.records) && HalvesEvenly(w.ledger.meta[c.tokenId], c.amountKg)
  {
    hide SplitsHalveEvenly, ParentsKnown, IsParentOf;
    var records1 := w.records[a.token.tokenId := a];
    assert records1[c.tokenId] == w.records[c.tokenId] && b.token.tokenId !in records1;
    EnterHalves(w.records, a.token.tokenId, a, records1);
    EnterHalves(records1, b.token.tokenId, b, records1[b.token.tokenId := b]);
  }

  lemma ChildrenHalve(p: Product, env: Env, w: World, c: Call)
    requires WorldInv(p, w) && c.Split? && SplitCheck(p, env, w.ledger, c).Ok?
    ensures SplitsHalveEvenly(EnterChildren(p, env, w, c).records) <==>
              SplitsHalveEvenly(w.records) && HalvesEvenly(w.ledger.meta[c.tokenId], c.amountKg)
  {
    hide WorldInv, SplitCheck, EnterChildren, SplitsHalveEvenly, HalvesEvenly, ParentsKnown, Children;
    AllParentsKnown(p, w);
    var a, b := SplitChildren(p, env, w, c);
    TwoChildrenHalve(w, c, a, b);
  }

  lemma AdvanceHalves(host: Host, p: Product, w: World, i: Invocation)
    requires WorldInv(p, w)
    ensures SplitsHalveEvenly(Advance(host, p, w, i).records) <==>
              SplitsHalveEvenly(w.records) && KeepsFormula(p, w, i)
  {
    hide WorldInv, Advance, MintCheck, SplitCheck, EnterChildren, SplitsHalveEvenly, HalvesEvenly, ParentsKnown;
    AllParentsKnown(p, w);
    AdvanceByMove(host, p, w, i);
    match MoveOf(p, w, i) {
      case Idle =>
      case Deposited =>
        DepositIsFirst(p, i.env, w, i.call);
        var m := Deposit(p, i.env, w.ledger, i.call);
        EnterHalves(w.records, m.tokenId, Record(m, w.ledger.counter + 1), Advance(host, p, w, i).records);
      case Exited =>
      case Divided => ChildrenHalve(p, i.env, w, i.call);
    }
  }

  lemma {:induction false} RunFromHalves(host: Host, p: Product, w: World, run: seq<Invocation>)
    requires WorldInv(p, w)
    ensures SplitsHalveEvenly(RunFrom(host, p, w, run).records) <==>
              SplitsHalveEvenly(w.records) && AllKeepFormula(host, p, w, run)
    decreases |run|
  {
    hide WorldInv, SplitsHalveEvenly, Advance, KeepsFormula;
    if run != [] {
      AdvanceKeepsInv(host, p, w, run[0]);
      AdvanceHalves(host, p, w, run[0]);
      RunFromHalves(host, p, Advance(host, p, w, run[0]), run[1..]);
    }
  }

  // When the weight of every receipt is bags times weight per bag, over whole runs:
  // exactly when every split that went through halved an even number of bags and
  // the weight.  To know it of all receipts ever issued it is enough to know it of
  // those that were never split: once a run has left the formula, a live or burned
  // receipt is off it.
  lemma FormulaOverRuns(host: Host, p: Product, run: seq<Invocation>)
    requires DistinctIds(p)
    ensures var w := Run(host, p, run);
            && (AllMeetFormula(w.records) <==> AllKeepFormula(host, p, GENESIS, run))
            && (AllMeetFormula(w.records) <==> SplitsHalveEvenly(w.records))
            && (AllMeetFormula(w.records) <==> LeavesMeetFormula(w))
  {
    RunKeepsInv(host, p, run);
    RunSplitsInTwo(host, p, run);
    RunMintWeights(host, p, run);
    GenesisInv(p);
    hide Inv, RecordsComplete, Partitioned, Linked, ParentsAreSplit, SplitsInTwo, MintWeights, RunFrom;
    hide AllMeetFormula, LeavesMeetFormula, AllKeepFormula;
    FormulaIff(Run(host, p, run));
    RunFromHalves(host, p, GENESIS, run);
  }
}
