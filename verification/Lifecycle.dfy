/** What a run can and cannot do to one receipt, and how many ids it issues. */
module Lifecycle {
  import opened TokenIds
  import opened ReceiptSpec
  import opened Worlds
  import opened Invariants
  import opened History

  // ----- Locked receipts -----------------------------------------------------------

  predicate Unlocks(p: Product, w: World, i: Invocation, id: Bytes) {
    i.call.Unlock? && i.call.tokenId == id && Check(p, i.env, w.ledger, i.call).Ok?
  }

  predicate Untouched(st: Ledger, st': Ledger, id: Bytes) {
    && id in st.meta && id in st'.meta && st'.meta[id] == st.meta[id]
    && id in st.owner && id in st'.owner && st'.owner[id] == st.owner[id]
  }

  lemma LockedSurvivesMint(p: Product, env: Env, st: Ledger, c: Call, id: Bytes)
    requires Inv(p, st) && id in st.meta && c.Mint? && MintCheck(p, env, st, c).Ok?
    ensures Untouched(st, AddToken(st, Deposit(p, env, st, c), c.farmer, st.counter + 1), id)
  {
  }

  lemma LockedSurvivesSplit(p: Product, env: Env, st: Ledger, c: Call, id: Bytes)
    requires Inv(p, st) && id in st.meta && c.Split? && SplitCheck(p, env, st, c).Ok? && c.tokenId != id
    ensures Untouched(st, Replace(st, c.tokenId, ChildA(p, env, st, c), ChildB(p, env, st, c)), id)
  {
  }

  lemma LockedEffect(p: Product, env: Env, st: Ledger, c: Call, id: Bytes)
    requires Inv(p, st) && id in st.meta && st.meta[id].isLocked && Check(p, env, st, c).Ok?
    ensures Untouched(st, Effect(p, env, st, c), id) <==> !(c.Unlock? && c.tokenId == id)
  {
    assert id in st.owner.Keys;
    match c {
      case Mint(_, _, _, _, _, _, _) => LockedSurvivesMint(p, env, st, c, id);
      case Split(_, _) => LockedSurvivesSplit(p, env, st, c, id);
      case _ =>
    }
  }

  // One call leaves a locked receipt as it is unless it is its unlocking.
  lemma LockedStep(host: Host, p: Product, w: World, i: Invocation, id: Bytes)
    requires WorldInv(p, w) && id in w.ledger.meta && w.ledger.meta[id].isLocked
    ensures Untouched(w.ledger, Advance(host, p, w, i).ledger, id) <==> !Unlocks(p, w, i, id)
  {
    AdvanceFollowsStep(host, p, w, i);
    assert id in w.ledger.owner.Keys;
    if Check(p, i.env, w.ledger, i.call).Ok? {
      LockedEffect(p, i.env, w.ledger, i.call, id);
    }
  }

  predicate NeverUnlocked(host: Host, p: Product, w: World, run: seq<Invocation>, id: Bytes)
    decreases |run|
  {
    run == [] || (!Unlocks(p, w, run[0], id) && NeverUnlocked(host, p, Advance(host, p, w, run[0]), run[1..], id))
  }

  // As long as it is not unlocked, a locked receipt stays live with the same
  // owner and the same metadata.
  lemma {:induction false} LockFreezes(host: Host, p: Product, w: World, run: seq<Invocation>, id: Bytes)
    requires WorldInv(p, w) && id in w.ledger.meta && w.ledger.meta[id].isLocked
    requires NeverUnlocked(host, p, w, run, id)
    ensures Untouched(w.ledger, RunFrom(host, p, w, run).ledger, id)
    decreases |run|
  {
    if run == [] {
      assert id in w.ledger.owner.Keys;
    } else {
      LockedStep(host, p, w, run[0], id);
      AdvanceKeepsInv(host, p, w, run[0]);
      LockFreezes(host, p, Advance(host, p, w, run[0]), run[1..], id);
    }
  }

  predicate Names(c: Call, id: Bytes) {
    (c.Transfer? || c.Burn? || c.Split?) && c.tokenId == id
  }

  // From the moment it is locked until it is unlocked a receipt keeps its owner and
  // what it said before, and nobody can transfer, burn or split it.
  lemma LockedUntilUnlocked(host: Host, p: Product, w: World, lock: Invocation, run: seq<Invocation>, id: Bytes,
                            i: Invocation)
    requires WorldInv(p, w) && lock.call.Lock? && lock.call.tokenId == id
    requires Check(p, lock.env, w.ledger, lock.call).Ok?
    requires NeverUnlocked(host, p, Advance(host, p, w, lock), run, id) && Names(i.call, id)
    ensures var st, st' := w.ledger, RunFrom(host, p, Advance(host, p, w, lock), run).ledger;
            && id in st.meta && !st.meta[id].isLocked && id in st.owner
            && id in st'.meta && st'.meta[id] == st.meta[id].(isLocked := true)
            && id in st'.owner && st'.owner[id] == st.owner[id]
            && LookupToken(st', id) == Found(st.meta[id].(isLocked := true))
            && LookupOwner(st', id) == Found(st.owner[id])
            && Check(p, i.env, st', i.call).Err?
  {
    hide WorldInv, Check, Advance, Written, Step;
    var w1 := Advance(host, p, w, lock);
    LockLocks(host, p, w, lock);
    AdvanceKeepsInv(host, p, w, lock);
    LockFreezes(host, p, w1, run, id);
    LockedRefuses(p, i.env, RunFrom(host, p, w1, run).ledger, i.call);
  }

  lemma LockLocks(host: Host, p: Product, w: World, lock: Invocation)
    requires WorldInv(p, w) && lock.call.Lock? && Check(p, lock.env, w.ledger, lock.call).Ok?
    ensures var id, st, st' := lock.call.tokenId, w.ledger, Advance(host, p, w, lock).ledger;
            && id in st.meta && !st.meta[id].isLocked && id in st.owner
            && id in st'.meta && st'.meta[id] == st.meta[id].(isLocked := true) && st'.owner == st.owner
  {
    assert lock.call.tokenId in w.ledger.owner.Keys;
  }

  lemma LockedRefuses(p: Product, env: Env, st: Ledger, c: Call)
    requires (c.Transfer? || c.Burn? || c.Split?) && c.tokenId in st.meta && st.meta[c.tokenId].isLocked
    ensures Check(p, env, st, c).Err?
  {
  }

  // ----- Dead receipts ---------------------------------------------------------------

  // Once an issued receipt has left the live set it never returns, and every later
  // transfer, burn, split or query of it fails as unknown.
  lemma DeadForEver(host: Host, p: Product, run: seq<Invocation>, more: seq<Invocation>, id: Bytes, i: Invocation)
    requires DistinctIds(p) && id in Run(host, p, run).records && id !in Run(host, p, run).ledger.meta
    requires Names(i.call, id)
    ensures var w' := RunFrom(host, p, Run(host, p, run), more);
            && id !in w'.ledger.meta && id !in w'.ledger.owner
            && LookupToken(w'.ledger, id) == Missing(TokenNotFound)
            && LookupOwner(w'.ledger, id) == Missing(TokenNotFound)
            && Check(p, i.env, w'.ledger, i.call) == Err(TokenNotFound)
            && Advance(host, p, w', i) == w'
  {
    var w := Run(host, p, run);
    var w' := RunFrom(host, p, w, more);
    RunKeepsInv(host, p, run);
    RunFromKeepsInv(host, p, w, more);
    RunFromExtends(host, p, w, more);
    hide WorldInv, Run, RunFrom, Check, Extends, Written, RefusedForOverflow;
    DeadStays(p, w, w', id);
    UnknownFails(p, i.env, w'.ledger, i.call, id);
  }

  lemma DeadStays(p: Product, w: World, w': World, id: Bytes)
    requires WorldInv(p, w) && WorldInv(p, w') && Extends(w, w') && id in w.records && id !in w.ledger.meta
    ensures id !in w'.ledger.meta && id !in w'.ledger.owner
  {
    assert id in w.burned || id in w.split;
    assert id !in w'.ledger.meta.Keys;
  }

  lemma UnknownFails(p: Product, env: Env, st: Ledger, c: Call, id: Bytes)
    requires Names(c, id) && id !in st.meta
    ensures Check(p, env, st, c) == Err(TokenNotFound)
    ensures Written(p, env, st, c) == st
  {
  }

  // ----- Custodians ------------------------------------------------------------------

  predicate Adds(p: Product, w: World, i: Invocation, custodian: Address) {
    i.call.AddCustodian? && i.call.custodian == custodian && Check(p, i.env, w.ledger, i.call).Ok?
  }

  predicate Removes(p: Product, w: World, i: Invocation, custodian: Address) {
    i.call.RemoveCustodian? && i.call.custodian == custodian && Check(p, i.env, w.ledger, i.call).Ok?
  }

  lemma RegistryStep(host: Host, p: Product, w: World, i: Invocation, custodian: Address)
    ensures custodian in Advance(host, p, w, i).ledger.custodians <==>
              Adds(p, w, i, custodian) || (custodian in w.ledger.custodians && !Removes(p, w, i, custodian))
  {
  }

  predicate AddsAt(host: Host, p: Product, w: World, run: seq<Invocation>, j: nat, custodian: Address)
    requires j < |run|
  {
    Adds(p, RunFrom(host, p, w, run[..j]), run[j], custodian)
  }

  predicate RemovesAt(host: Host, p: Product, w: World, run: seq<Invocation>, j: nat, custodian: Address)
    requires j < |run|
  {
    Removes(p, RunFrom(host, p, w, run[..j]), run[j], custodian)
  }

  predicate NotRemovedIn(host: Host, p: Product, w: World, run: seq<Invocation>, from: nat, to: nat,
                         custodian: Address)
    requires to <= |run|
  {
    forall k :: from <= k < to ==> !RemovesAt(host, p, w, run, k, custodian)
  }

  // Added by one of the first n calls, and not removed by a later one of them.
  predicate AddedToStay(host: Host, p: Product, w: World, run: seq<Invocation>, n: nat, custodian: Address)
    requires n <= |run|
  {
    exists j :: 0 <= j < n && AddsAt(host, p, w, run, j, custodian)
                && NotRemovedIn(host, p, w, run, j + 1, n, custodian)
  }

  // The registry holds whoever was added and not removed since, and whoever was
  // in it from the start and never removed.
  lemma {:induction false} RegistryOverRuns(host: Host, p: Product, w: World, run: seq<Invocation>, n: nat,
                                            custodian: Address)
    requires n <= |run|
    ensures custodian in RunFrom(host, p, w, run[..n]).ledger.custodians <==>
              || AddedToStay(host, p, w, run, n, custodian)
              || (custodian in w.ledger.custodians && NotRemovedIn(host, p, w, run, 0, n, custodian))
  {
    hide RunFrom, Advance, Adds, Removes;
    if n == 0 {
      RunFromNothing(host, p, w);
    } else {
      var last := run[n - 1];
      assert run[..n] == run[..n - 1] + [last];
      RunFromLast(host, p, w, run[..n - 1], last);
      RegistryStep(host, p, RunFrom(host, p, w, run[..n - 1]), last, custodian);
      RegistryOverRuns(host, p, w, run, n - 1, custodian);
      AddedOneLater(host, p, w, run, n, custodian);
    }
  }

  lemma RunFromNothing(host: Host, p: Product, w: World)
    ensures RunFrom(host, p, w, []) == w
  {
  }

  lemma AddedOneLater(host: Host, p: Product, w: World, run: seq<Invocation>, n: nat, custodian: Address)
    requires 0 < n <= |run|
    ensures AddedToStay(host, p, w, run, n, custodian) <==>
              || AddsAt(host, p, w, run, n - 1, custodian)
              || (AddedToStay(host, p, w, run, n - 1, custodian) && !RemovesAt(host, p, w, run, n - 1, custodian))
    ensures NotRemovedIn(host, p, w, run, 0, n, custodian) <==>
              NotRemovedIn(host, p, w, run, 0, n - 1, custodian) && !RemovesAt(host, p, w, run, n - 1, custodian)
  {
    hide AddsAt, RemovesAt;
    if AddsAt(host, p, w, run, n - 1, custodian) {
      assert NotRemovedIn(host, p, w, run, n, n, custodian);
    }
    if AddedToStay(host, p, w, run, n - 1, custodian) && !RemovesAt(host, p, w, run, n - 1, custodian) {
      var j :| 0 <= j < n - 1 && AddsAt(host, p, w, run, j, custodian)
               && NotRemovedIn(host, p, w, run, j + 1, n - 1, custodian);
      assert NotRemovedIn(host, p, w, run, j + 1, n, custodian);
    }
    if AddedToStay(host, p, w, run, n, custodian) && !AddsAt(host, p, w, run, n - 1, custodian) {
      var j :| 0 <= j < n && AddsAt(host, p, w, run, j, custodian)
               && NotRemovedIn(host, p, w, run, j + 1, n, custodian);
      assert NotRemovedIn(host, p, w, run, j + 1, n - 1, custodian);
    }
  }

  // Burning asks the receipt who its custodian is, not the registry.  Whatever
  // follows a removal, as long as the custodian is not added again it can issue
  // nothing, and yet it can burn whichever of its receipts are still live, exactly
  // as long as they are not locked.
  lemma RemovedCustodianBurns(host: Host, p: Product, w: World, remove: Invocation, run: seq<Invocation>,
                              custodian: Address, id: Bytes, i: Invocation)
    requires WorldInv(p, w) && Removes(p, w, remove, custodian)
    requires id in w.ledger.meta && w.ledger.meta[id].custodian == custodian
    requires forall j :: 0 <= j < |run| ==> !AddsAt(host, p, Advance(host, p, w, remove), run, j, custodian)
    requires id in RunFrom(host, p, Advance(host, p, w, remove), run).ledger.meta
    requires custodian in i.env.auths
    ensures var w' := RunFrom(host, p, Advance(host, p, w, remove), run);
            && custodian !in w'.ledger.custodians
            && (i.call.Mint? && i.call.custodian == custodian ==>
                  Check(p, i.env, w'.ledger, i.call) == Err(Unauthorized))
            && (i.call == Burn(custodian, id) ==>
                  && (Check(p, i.env, w'.ledger, i.call).Ok? <==> !w'.ledger.meta[id].isLocked)
                  && (!w'.ledger.meta[id].isLocked ==> id !in Advance(host, p, w', i).ledger.meta))
  {
    hide WorldInv, Advance, RunFrom, Extends, Check;
    var w1 := Advance(host, p, w, remove);
    var w' := RunFrom(host, p, w1, run);
    RemovalRemoves(host, p, w, remove, custodian);
    RegistryOverRuns(host, p, w1, run, |run|, custodian);
    assert run[..|run|] == run;
    AdvanceKeepsInv(host, p, w, remove);
    RunFromKeepsInv(host, p, w1, run);
    RunFromExtends(host, p, w1, run);
    CustodianStays(p, w1, w', id);
    UnregisteredBurns(host, p, w', i, custodian, id);
  }

  lemma RemovalRemoves(host: Host, p: Product, w: World, remove: Invocation, custodian: Address)
    requires Removes(p, w, remove, custodian)
    ensures var w1 := Advance(host, p, w, remove);
            custodian !in w1.ledger.custodians && w1.ledger.meta == w.ledger.meta
  {
  }

  // The custodian of a receipt never changes.
  lemma CustodianStays(p: Product, w: World, w': World, id: Bytes)
    requires WorldInv(p, w) && WorldInv(p, w') && Extends(w, w') && id in w.ledger.meta && id in w'.ledger.meta
    ensures w'.ledger.meta[id].custodian == w.ledger.meta[id].custodian
  {
    assert w.records[id].token == w.ledger.meta[id].(isLocked := false);
    assert w'.records[id].token == w'.ledger.meta[id].(isLocked := false);
  }

  lemma UnregisteredBurns(host: Host, p: Product, w: World, i: Invocation, custodian: Address, id: Bytes)
    requires id in w.ledger.meta && w.ledger.meta[id].custodian == custodian
    requires custodian !in w.ledger.custodians && custodian in i.env.auths
    ensures i.call.Mint? && i.call.custodian == custodian ==>
              Check(p, i.env, w.ledger, i.call) == Err(Unauthorized)
    ensures i.call == Burn(custodian, id) ==>
              && (Check(p, i.env, w.ledger, i.call).Ok? <==> !w.ledger.meta[id].isLocked)
              && (!w.ledger.meta[id].isLocked ==> id !in Advance(host, p, w, i).ledger.meta)
  {
  }

  // ----- Administrators ----------------------------------------------------------------

  // The administrator set first is the administrator for ever.
  lemma {:induction false} AdminIsFixed(host: Host, p: Product, w: World, run: seq<Invocation>)
    requires w.ledger.admin.Some?
    ensures RunFrom(host, p, w, run).ledger.admin == w.ledger.admin
    decreases |run|
  {
    if run != [] {
      AdvanceFollowsStep(host, p, w, run[0]);
      StepKeepsAdmin(host, p, run[0].env, w.ledger, run[0].call);
      AdminIsFixed(host, p, Advance(host, p, w, run[0]), run[1..]);
    }
  }

  lemma StepKeepsAdmin(host: Host, p: Product, env: Env, st: Ledger, c: Call)
    requires st.admin.Some?
    ensures Step(host, p, env, st, c).admin == st.admin
  {
  }

  // Initialising resets the counter only while no id has been issued.
  lemma InitResetsNothing(host: Host, p: Product, run: seq<Invocation>, i: Invocation)
    requires DistinctIds(p) && i.call.Init? && Check(p, i.env, Run(host, p, run).ledger, i.call).Ok?
    ensures var st := Run(host, p, run).ledger;
            st.all == [] && st.counter == 0 && st.meta == map[]
  {
    RunKeepsInv(host, p, run);
    var st := Run(host, p, run).ledger;
    assert forall k :: k in st.meta ==> k in st.all;
  }

  // ----- Issue accounting --------------------------------------------------------------

  datatype Tally = Tally(mints: nat, splits: nat, refused: nat)

  function Count(p: Product, w: World, i: Invocation): Tally {
    Tally(if MoveOf(p, w, i).Deposited? then 1 else 0,
          if MoveOf(p, w, i).Divided? then 1 else 0,
          if RefusedForOverflow(p, i.env, w.ledger, i.call) then 1 else 0)
  }

  function TallyOf(host: Host, p: Product, w: World, run: seq<Invocation>): Tally
    decreases |run|
  {
    if run == [] then Tally(0, 0, 0)
    else
      var first, rest := Count(p, w, run[0]), TallyOf(host, p, Advance(host, p, w, run[0]), run[1..]);
      Tally(first.mints + rest.mints, first.splits + rest.splits, first.refused + rest.refused)
  }

  lemma CountIssued(host: Host, p: Product, w: World, i: Invocation)
    requires Inv(p, w.ledger)
    ensures var t, st, st' := Count(p, w, i), w.ledger, Advance(host, p, w, i).ledger;
            && |st'.all| == |st.all| + t.mints + 2 * t.splits
            && st'.counter == st.counter + t.mints + 2 * t.splits + (if host.KeepWrites? then t.refused else 0)
  {
    AdvanceFollowsStep(host, p, w, i);
    OwnerLookupsSucceed(p, i.env, w.ledger, i.call);
    hide Inv;
    match MoveOf(p, w, i) {
      case Deposited =>
      case Divided =>
      case _ =>
    }
  }

  lemma {:induction false} CountRun(host: Host, p: Product, w: World, run: seq<Invocation>)
    requires WorldInv(p, w)
    ensures var t, st, st' := TallyOf(host, p, w, run), w.ledger, RunFrom(host, p, w, run).ledger;
            && |st'.all| == |st.all| + t.mints + 2 * t.splits
            && st'.counter == st.counter + t.mints + 2 * t.splits + (if host.KeepWrites? then t.refused else 0)
    decreases |run|
  {
    if run != [] {
      CountIssued(host, p, w, run[0]);
      AdvanceKeepsInv(host, p, w, run[0]);
      CountRun(host, p, Advance(host, p, w, run[0]), run[1..]);
    }
  }

  // The counter is the number of ids issued, one for a mint and two for a split,
  // exactly when no refused mint left its bump behind; rollback sees to that.
  lemma IssueAccounting(host: Host, p: Product, run: seq<Invocation>)
    requires DistinctIds(p)
    ensures var t, st := TallyOf(host, p, GENESIS, run), Run(host, p, run).ledger;
            && |st.all| == t.mints + 2 * t.splits
            && (host.Rollback? ==> st.counter == |st.all|)
            && (host.KeepWrites? ==> st.counter == |st.all| + t.refused)
  {
    CountRun(host, p, GENESIS, run);
  }
}
