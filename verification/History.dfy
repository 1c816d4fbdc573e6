/** The world invariant holds along every run, and history only grows. */
module History {
  import opened Prelude
  import opened TokenIds
  import opened ReceiptSpec
  import opened Worlds
  import opened Invariants

  // A world never strays from the ledger the contract keeps.
  lemma AdvanceFollowsStep(host: Host, p: Product, w: World, i: Invocation)
    ensures Advance(host, p, w, i).ledger == Step(host, p, i.env, w.ledger, i.call)
  {
  }

  lemma AdvanceByMove(host: Host, p: Product, w: World, i: Invocation)
    ensures var w', c, st := Advance(host, p, w, i), i.call, w.ledger;
            match MoveOf(p, w, i)
            case Idle => SameReceipts(w, w')
            case Deposited => w' == EnterMinted(p, i.env, w, c)
            case Exited => c.tokenId in st.meta && w' == LeaveBurned(w, c.tokenId)
            case Divided => c.tokenId in st.meta && c.tokenId in st.owner && w' == EnterChildren(p, i.env, w, c)
  {
  }

  lemma EnterKeepsRecords(w: World, m: Metadata, owner: Address, n: u64)
    requires RecordsComplete(w) && m.tokenId !in w.ledger.all
    requires w.ledger.counter < n && WellFormed(m.tokenId, Record(m, n))
    ensures RecordsComplete(Enter(w, m, owner, n))
  {
  }

  lemma EnterKeepsPartition(w: World, m: Metadata, owner: Address, n: u64)
    requires Partitioned(w) && m.tokenId !in w.records && !m.isLocked
    ensures Partitioned(Enter(w, m, owner, n))
  {
  }

  lemma EnterKeepsLinks(w: World, m: Metadata, owner: Address, n: u64)
    requires Linked(w.records) && ParentsAreSplit(w) && RecordsComplete(w) && Partitioned(w)
    requires m.tokenId !in w.records && w.ledger.counter < n
    requires m.parentTokenId.Some? ==>
               && m.parentTokenId.value in w.split
               && SameLot(w.records[m.parentTokenId.value].token, m)
    ensures Linked(Enter(w, m, owner, n).records) && ParentsAreSplit(Enter(w, m, owner, n))
  {
  }

  // What a token must satisfy to be entered under a counter value.
  ghost predicate Enterable(p: Product, w: World, m: Metadata, t: u64, n: u64) {
    && w.ledger.admin.Some? && w.ledger.counter < n && p.issue(t, n) == Some(m.tokenId)
    && WellFormed(m.tokenId, Record(m, n))
    && (m.parentTokenId.Some? ==>
          && m.parentTokenId.value in w.split && m.parentTokenId.value in w.records
          && SameLot(w.records[m.parentTokenId.value].token, m))
  }

  lemma EnterKeepsInv(p: Product, w: World, m: Metadata, owner: Address, t: u64, n: u64)
    requires WorldInv(p, w) && Enterable(p, w, m, t, n)
    ensures WorldInv(p, Enter(w, m, owner, n))
  {
    AddKeepsInv(p, w.ledger, m, owner, t, n);
    EnterKeepsRecords(w, m, owner, n);
    EnterKeepsPartition(w, m, owner, n);
    EnterKeepsLinks(w, m, owner, n);
  }

  lemma StillEnterable(p: Product, w: World, a: Metadata, owner: Address, t: u64, n: u64, b: Metadata)
    requires n + 1 < TWO_TO_THE_64 && Enterable(p, w, b, t, n + 1) && a.tokenId !in w.records
    ensures Enterable(p, Enter(w, a, owner, n), b, t, n + 1)
  {
    hide WellFormed, SameLot;
  }

  lemma EnterTwoKeepsInv(p: Product, w: World, a: Metadata, b: Metadata, owner: Address, t: u64, n: u64)
    requires WorldInv(p, w) && n + 1 < TWO_TO_THE_64 && a.tokenId !in w.records
    requires Enterable(p, w, a, t, n) && Enterable(p, w, b, t, n + 1)
    ensures WorldInv(p, Enter(Enter(w, a, owner, n), b, owner, n + 1))
  {
    hide WorldInv, Enterable;
    EnterKeepsInv(p, w, a, owner, t, n);
    StillEnterable(p, w, a, owner, t, n, b);
    EnterKeepsInv(p, Enter(w, a, owner, n), b, owner, t, n + 1);
  }

  lemma ChildrenAreNew(p: Product, env: Env, w: World, c: Call)
    requires WorldInv(p, w) && c.Split? && SplitCheck(p, env, w.ledger, c).Ok?
    ensures ChildrenNew(p, env, w, c)
  {
  }

  lemma LeaveBurnedKeepsInv(p: Product, w: World, id: Bytes)
    requires WorldInv(p, w) && id in w.ledger.meta
    ensures WorldInv(p, LeaveBurned(w, id))
  {
  }

  lemma LeaveSplitKeepsInv(p: Product, w: World, id: Bytes)
    requires WorldInv(p, w) && id in w.ledger.meta
    ensures WorldInv(p, LeaveSplit(w, id))
  {
  }

  lemma DepositWellFormed(p: Product, env: Env, st: Ledger, c: Call)
    requires c.Mint? && MintCheck(p, env, st, c).Ok?
    ensures var m := Deposit(p, env, st, c);
            WellFormed(m.tokenId, Record(m, st.counter + 1)) && m.parentTokenId.None?
  {
  }

  // A custodian can only have been registered by an administrator.
  lemma MintNeedsAdmin(p: Product, env: Env, st: Ledger, c: Call)
    requires Inv(p, st) && c.Mint? && MintCheck(p, env, st, c).Ok?
    ensures st.admin.Some?
  {
  }

  lemma DepositKeepsInv(p: Product, env: Env, w: World, c: Call) returns (m: Metadata)
    requires WorldInv(p, w) && c.Mint? && MintCheck(p, env, w.ledger, c).Ok?
    ensures m == Deposit(p, env, w.ledger, c)
    ensures WorldInv(p, Enter(w, m, c.farmer, w.ledger.counter + 1))
  {
    hide Inv, RecordsComplete, Partitioned, Linked, ParentsAreSplit;
    m := Deposit(p, env, w.ledger, c);
    MintNeedsAdmin(p, env, w.ledger, c);
    DepositWellFormed(p, env, w.ledger, c);
    assert Enterable(p, w, m, env.timestamp, w.ledger.counter + 1);
    EnterKeepsInv(p, w, m, c.farmer, env.timestamp, w.ledger.counter + 1);
  }

  lemma EnterMintedKeepsInv(p: Product, env: Env, w: World, c: Call)
    requires WorldInv(p, w) && c.Mint? && MintCheck(p, env, w.ledger, c).Ok?
    ensures WorldInv(p, EnterMinted(p, env, w, c))
  {
    hide WorldInv;
    var m := DepositKeepsInv(p, env, w, c);
  }

  lemma ChildrenEnterable(p: Product, env: Env, w: World, c: Call)
    requires WorldInv(p, w) && c.Split? && SplitCheck(p, env, w.ledger, c).Ok?
    ensures var w1, n := LeaveSplit(w, c.tokenId), w.ledger.counter + 1;
            && Enterable(p, w1, ChildA(p, env, w.ledger, c), env.timestamp, n)
            && Enterable(p, w1, ChildB(p, env, w.ledger, c), env.timestamp, n + 1)
  {
    ChildrenFit(p, env, w.ledger, c);
    assert w.records[c.tokenId].token == w.ledger.meta[c.tokenId].(isLocked := false);
    hide WorldInv, SplitCheck, ChildA, ChildB, WellFormed;
  }

  lemma EnterChildrenKeepsInv(p: Product, env: Env, w: World, c: Call)
    requires WorldInv(p, w) && c.Split? && SplitCheck(p, env, w.ledger, c).Ok?
    ensures WorldInv(p, EnterChildren(p, env, w, c))
  {
    hide WorldInv, SplitCheck, ChildA, ChildB, CanIssue, Enter, Enterable;
    SplitOk(p, env, w.ledger, c);
    ChildrenAreNew(p, env, w, c);
    ChildrenEnterable(p, env, w, c);
    LeaveSplitKeepsInv(p, w, c.tokenId);
    var st, id := w.ledger, c.tokenId;
    EnterTwoKeepsInv(p, LeaveSplit(w, id), ChildA(p, env, st, c), ChildB(p, env, st, c), st.owner[id],
                     env.timestamp, st.counter + 1);
  }

  // The calls that issue and remove nothing touch receipts only by their lock,
  // and no counter once there is a receipt.
  lemma OtherEffects(p: Product, env: Env, st: Ledger, c: Call)
    requires Inv(p, st) && Check(p, env, st, c).Ok? && !c.Mint? && !c.Split? && !c.Burn?
    ensures var st' := Effect(p, env, st, c);
            && st'.all == st.all && st'.meta.Keys == st.meta.Keys
            && (forall k :: k in st.meta ==> st'.meta[k].(isLocked := false) == st.meta[k].(isLocked := false))
            && (st'.counter == st.counter || st.all == [])
  {
  }

  lemma OtherAdvanceKeepsInv(p: Product, w: World, st': Ledger)
    requires WorldInv(p, w) && Inv(p, st')
    requires st'.all == w.ledger.all && st'.meta.Keys == w.ledger.meta.Keys
    requires forall k :: k in st'.meta ==> st'.meta[k].(isLocked := false) == w.ledger.meta[k].(isLocked := false)
    requires w.ledger.counter <= st'.counter || w.ledger.all == []
    ensures WorldInv(p, w.(ledger := st'))
  {
  }

  lemma IdleKeepsInv(host: Host, p: Product, w: World, i: Invocation)
    requires WorldInv(p, w) && MoveOf(p, w, i).Idle?
    ensures WorldInv(p, Advance(host, p, w, i))
  {
    hide Inv, RecordsComplete, Partitioned, Linked, ParentsAreSplit;
    if Check(p, i.env, w.ledger, i.call).Ok? {
      EffectKeepsInv(p, i.env, w.ledger, i.call);
      OtherEffects(p, i.env, w.ledger, i.call);
      OtherAdvanceKeepsInv(p, w, Effect(p, i.env, w.ledger, i.call));
    } else {
      StepKeepsInv(host, p, i.env, w.ledger, i.call);
      OtherAdvanceKeepsInv(p, w, Step(host, p, i.env, w.ledger, i.call));
    }
  }

  lemma AdvanceKeepsInv(host: Host, p: Product, w: World, i: Invocation)
    requires WorldInv(p, w)
    ensures WorldInv(p, Advance(host, p, w, i))
  {
    AdvanceByMove(host, p, w, i);
    match MoveOf(p, w, i) {
      case Idle => IdleKeepsInv(host, p, w, i);
      case Deposited => EnterMintedKeepsInv(p, i.env, w, i.call);
      case Exited => LeaveBurnedKeepsInv(p, w, i.call.tokenId);
      case Divided => EnterChildrenKeepsInv(p, i.env, w, i.call);
    }
  }

  lemma {:induction false} RunFromKeepsInv(host: Host, p: Product, w: World, run: seq<Invocation>)
    requires WorldInv(p, w)
    ensures WorldInv(p, RunFrom(host, p, w, run))
    decreases |run|
  {
    if run != [] {
      AdvanceKeepsInv(host, p, w, run[0]);
      RunFromKeepsInv(host, p, Advance(host, p, w, run[0]), run[1..]);
    }
  }

  lemma {:induction false} RunFromLast(host: Host, p: Product, w: World, run: seq<Invocation>, i: Invocation)
    ensures RunFrom(host, p, w, run + [i]) == Advance(host, p, RunFrom(host, p, w, run), i)
    decreases |run|
  {
    hide Advance;
    if run == [] {
      assert RunFrom(host, p, w, [i]) == RunFrom(host, p, Advance(host, p, w, i), []);
    } else {
      assert (run + [i])[1..] == run[1..] + [i];
      RunFromLast(host, p, Advance(host, p, w, run[0]), run[1..], i);
    }
  }

  // Every reachable world satisfies the invariant, rollback or not.
  lemma RunKeepsInv(host: Host, p: Product, run: seq<Invocation>)
    requires DistinctIds(p)
    ensures WorldInv(p, Run(host, p, run))
  {
    RunFromKeepsInv(host, p, GENESIS, run);
  }

  // ----- History only grows ----------------------------------------------------

  lemma EnterMintedExtends(p: Product, env: Env, w: World, c: Call)
    requires WorldInv(p, w) && c.Mint? && MintCheck(p, env, w.ledger, c).Ok?
    ensures Extends(w, EnterMinted(p, env, w, c))
  {
  }

  lemma EnterTwoExtends(w: World, a: Metadata, b: Metadata, owner: Address, n: u64)
    requires IsNew(w, a.tokenId) && IsNew(w, b.tokenId) && w.ledger.counter < n && n + 1 < TWO_TO_THE_64
    ensures Extends(w, Enter(Enter(w, a, owner, n), b, owner, n + 1))
  {
  }

  lemma LeaveSplitExtends(w: World, id: Bytes, w': World)
    requires Extends(LeaveSplit(w, id), w')
    ensures Extends(w, w')
  {
  }

  lemma EnterChildrenExtends(p: Product, env: Env, w: World, c: Call)
    requires WorldInv(p, w) && c.Split? && SplitCheck(p, env, w.ledger, c).Ok?
    ensures Extends(w, EnterChildren(p, env, w, c))
  {
    hide WorldInv, SplitCheck, ChildA, ChildB, CanIssue, Enter, Extends;
    SplitOk(p, env, w.ledger, c);
    ChildrenAreNew(p, env, w, c);
    var st, id := w.ledger, c.tokenId;
    EnterTwoExtends(LeaveSplit(w, id), ChildA(p, env, st, c), ChildB(p, env, st, c), st.owner[id], st.counter + 1);
    LeaveSplitExtends(w, id, EnterChildren(p, env, w, c));
  }

  lemma CounterNeverFalls(host: Host, p: Product, env: Env, st: Ledger, c: Call)
    requires Inv(p, st)
    ensures st.counter <= Step(host, p, env, st, c).counter
  {
  }

  lemma AdvanceExtends(host: Host, p: Product, w: World, i: Invocation)
    requires WorldInv(p, w)
    ensures Extends(w, Advance(host, p, w, i))
  {
    var c := i.call;
    AdvanceByMove(host, p, w, i);
    AdvanceFollowsStep(host, p, w, i);
    CounterNeverFalls(host, p, i.env, w.ledger, c);
    match MoveOf(p, w, i) {
      case Idle =>
      case Deposited => EnterMintedExtends(p, i.env, w, c);
      case Exited =>
      case Divided => EnterChildrenExtends(p, i.env, w, c);
    }
  }

  lemma {:induction false} RunFromExtends(host: Host, p: Product, w: World, run: seq<Invocation>)
    requires WorldInv(p, w)
    ensures Extends(w, RunFrom(host, p, w, run))
    decreases |run|
  {
    if run != [] {
      var w1 := Advance(host, p, w, run[0]);
      AdvanceKeepsInv(host, p, w, run[0]);
      AdvanceExtends(host, p, w, run[0]);
      RunFromExtends(host, p, w1, run[1..]);
    }
  }

  lemma {:induction false} ReplayFollowsRun(host: Host, p: Product, w: World, run: seq<Invocation>)
    ensures Replay(host, p, w.ledger, run).0 == RunFrom(host, p, w, run).ledger
    decreases |run|
  {
    if run != [] {
      AdvanceFollowsStep(host, p, w, run[0]);
      ReplayFollowsRun(host, p, Advance(host, p, w, run[0]), run[1..]);
    }
  }

  lemma ReplayFirst(host: Host, p: Product, st: Ledger, i: Invocation, rest: seq<Invocation>)
    ensures var s := Replay(host, p, Step(host, p, i.env, st, i.call), rest);
            Replay(host, p, st, [i] + rest) == (s.0, [Check(p, i.env, st, i.call)] + s.1)
  {
    assert ([i] + rest)[1..] == rest;
  }

  lemma ReplayNothing(host: Host, p: Product, st: Ledger)
    ensures Replay(host, p, st, []) == (st, [])
  {
  }
}
