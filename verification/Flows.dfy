/**
 * What one call moves.  For any value given to a live receipt and its owner, the
 * total over the live receipts changes by just what the call says; wallets and
 * the split potential are two such values.
 */
module Flows {
  import opened Prelude
  import opened TokenIds
  import opened ReceiptSpec
  import opened Worlds
  import opened Invariants
  import opened Sums

  ghost function LiveSum(st: Ledger, v: (Metadata, Address) -> int): int {
    Sum(st.all, Held(st, v))
  }

  ghost function Held(st: Ledger, v: (Metadata, Address) -> int): Bytes -> int {
    (k: Bytes) => if k in st.meta && k in st.owner then v(st.meta[k], st.owner[k]) else 0
  }

  // The change a call brings about.
  ghost function Flow(p: Product, env: Env, st: Ledger, c: Call, v: (Metadata, Address) -> int): int
    requires Inv(p, st)
  {
    if !Check(p, env, st, c).Ok? then 0
    else match c
      case Mint(_, farmer, _, _, _, _, _) => v(Deposit(p, env, st, c), farmer)
      case Burn(_, id) => -v(st.meta[id], st.owner[id])
      case Transfer(id, from, to) => v(st.meta[id], to) - v(st.meta[id], from)
      case Lock(_, id) => v(st.meta[id].(isLocked := true), st.owner[id]) - v(st.meta[id], st.owner[id])
      case Unlock(_, id) => v(st.meta[id].(isLocked := false), st.owner[id]) - v(st.meta[id], st.owner[id])
      case Split(id, _) =>
        var owner := st.owner[id];
        v(ChildA(p, env, st, c), owner) + v(ChildB(p, env, st, c), owner) - v(st.meta[id], owner)
      case _ => 0
  }

  lemma AddFlow(st: Ledger, m: Metadata, owner: Address, n: u64, v: (Metadata, Address) -> int)
    requires m.tokenId !in st.all
    ensures LiveSum(AddToken(st, m, owner, n), v) == LiveSum(st, v) + v(m, owner)
  {
    var st', id := AddToken(st, m, owner, n), m.tokenId;
    var f, g := Held(st, v), Held(st', v);
    assert st'.all == st.all + [id] && g(id) == v(m, owner);
    assert forall k :: k in st.all ==> f(k) == g(k);
    hide Held, AddToken;
    SumAppend(st.all, id, g);
    SumSame(st.all, f, g);
  }

  // One live receipt leaves, or is changed in place.
  lemma ChangeFlow(st: Ledger, st': Ledger, id: Bytes, v: (Metadata, Address) -> int)
    requires st'.all == st.all && NoDuplicates(st.all) && id in st.all
    requires forall k :: k != id ==> Held(st', v)(k) == Held(st, v)(k)
    ensures LiveSum(st', v) == LiveSum(st, v) + Held(st', v)(id) - Held(st, v)(id)
  {
    SumChange(st.all, Held(st, v), Held(st', v), id);
  }

  lemma SplitFlow(p: Product, env: Env, st: Ledger, c: Call, v: (Metadata, Address) -> int)
    requires Inv(p, st) && c.Split? && SplitCheck(p, env, st, c).Ok?
    ensures LiveSum(Effect(p, env, st, c), v) == LiveSum(st, v) + Flow(p, env, st, c, v)
  {
    SplitOk(p, env, st, c);
    SplitIdsNew(p, env, st, c);
    hide Inv, NoDuplicates, SplitCheck, CanIssue, IssuedId, ChildA, ChildB;
    var id, owner, n := c.tokenId, st.owner[c.tokenId], st.counter + 1;
    var a, b := ChildA(p, env, st, c), ChildB(p, env, st, c);
    var st1 := RemoveToken(st, id);
    var st2 := AddToken(st1, a, owner, n);
    ChangeFlow(st, st1, id, v);
    assert a.tokenId !in st1.all && b.tokenId !in st2.all;
    assert Held(st, v)(id) == v(st.meta[id], owner) && Held(st1, v)(id) == 0;
    hide AddToken, RemoveToken, Held, LiveSum;
    AddFlow(st1, a, owner, n, v);
    AddFlow(st2, b, owner, n + 1, v);
  }

  lemma EffectFlow(p: Product, env: Env, st: Ledger, c: Call, v: (Metadata, Address) -> int)
    requires Inv(p, st) && Check(p, env, st, c).Ok?
    ensures LiveSum(Effect(p, env, st, c), v) == LiveSum(st, v) + Flow(p, env, st, c, v)
  {
    var st' := Effect(p, env, st, c);
    match c {
      case Mint(_, farmer, _, _, _, _, _) => AddFlow(st, Deposit(p, env, st, c), farmer, st.counter + 1, v);
      case Split(_, _) => SplitFlow(p, env, st, c, v);
      case Burn(_, id) => ChangeFlow(st, st', id, v);
      case Transfer(id, _, _) => ChangeFlow(st, st', id, v);
      case Lock(_, id) => ChangeFlow(st, st', id, v);
      case Unlock(_, id) => ChangeFlow(st, st', id, v);
      case _ => SumSame(st.all, Held(st, v), Held(st', v));
    }
  }

  // With or without rollback, a call changes a total over the live receipts by
  // its flow and nothing else.
  lemma StepFlow(host: Host, p: Product, env: Env, st: Ledger, c: Call, v: (Metadata, Address) -> int)
    requires Inv(p, st)
    ensures LiveSum(Step(host, p, env, st, c), v) == LiveSum(st, v) + Flow(p, env, st, c, v)
  {
    if Check(p, env, st, c).Ok? {
      EffectFlow(p, env, st, c, v);
    } else {
      SumSame(st.all, Held(st, v), Held(Step(host, p, env, st, c), v));
    }
  }

  // ----- Wallets -------------------------------------------------------------------

  ghost function WalletWeight(st: Ledger, wallet: Address): int {
    LiveSum(st, (m: Metadata, owner: Address) => if owner == wallet then m.totalWeightKg else 0)
  }

  // A transfer moves the weight of one receipt from the sender to the receiver;
  // registering, locking and splitting move nothing.
  lemma WalletFlow(host: Host, p: Product, env: Env, st: Ledger, c: Call, wallet: Address)
    requires Inv(p, st)
    ensures var change := WalletWeight(Step(host, p, env, st, c), wallet) - WalletWeight(st, wallet);
            if !Check(p, env, st, c).Ok? then change == 0
            else match c
              case Mint(_, farmer, _, _, _, _, _) =>
                change == if farmer == wallet then c.bagCount * c.weightPerBagKg else 0
              case Burn(_, id) => -change == if st.owner[id] == wallet then st.meta[id].totalWeightKg else 0
              case Transfer(id, from, to) =>
                change == (if to == wallet then st.meta[id].totalWeightKg else 0)
                          - (if from == wallet then st.meta[id].totalWeightKg else 0)
              case _ => change == 0
  {
    StepFlow(host, p, env, st, c, (m: Metadata, owner: Address) => if owner == wallet then m.totalWeightKg else 0);
  }

  // ----- A measure that every split lowers -------------------------------------------

  ghost function SplitPotential(st: Ledger): int {
    LiveSum(st, (m: Metadata, _) => m.totalWeightKg - 1)
  }

  lemma SplitLowersPotential(host: Host, p: Product, env: Env, st: Ledger, c: Call)
    requires Inv(p, st)
    ensures SplitPotential(st) >= 0
    ensures c.Split? && Check(p, env, st, c).Ok? ==>
              SplitPotential(Step(host, p, env, st, c)) == SplitPotential(st) - 1
    ensures !c.Mint? ==> SplitPotential(Step(host, p, env, st, c)) <= SplitPotential(st)
  {
    var v := (m: Metadata, _: Address) => m.totalWeightKg - 1;
    StepFlow(host, p, env, st, c, v);
    var zero: Bytes -> int := k => 0;
    SumZero(st.all, zero);
    SumLe(st.all, zero, Held(st, v));
  }
}
