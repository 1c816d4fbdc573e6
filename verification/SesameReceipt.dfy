/**
 * The sesame receipt contract: storage entries as fields, calls as methods that
 * read and write them in the order of the source.  Where the
 * maize contract keeps one registry map that may be missing, this one keeps an
 * entry for every registered custodian.
 */
module SesameReceipt {
  import opened Prelude
  import opened TokenIds
  import opened ReceiptSpec
  import opened Worlds
  import opened Invariants
  import History
  import Calendar

  method NextId(env: Env, counter: u64) returns (id: Option<Bytes>)
    ensures id == SESAME.issue(env.timestamp, counter)
  {
    var year := Calendar.YearFromTimestamp(env.timestamp);
    id := GenerateTokenId(LETTER_S, year, counter);
  }

  class SesameReceiptContract {
    var admin: Option<Address>
    var custodians: map<Address, bool>
    var tokenMeta: map<Bytes, Metadata>
    var owner: map<Bytes, Address>
    var tokenCounter: Option<u64>
    var allTokens: Option<seq<Bytes>>

    ghost function Registered(): set<Address>
      reads this`custodians
    {
      custodians.Keys
    }

    ghost function View(): Ledger
      reads this
    {
      Ledger(admin, Registered(), tokenMeta, owner, tokenCounter.GetOr(0), allTokens.GetOr([]))
    }

    ghost predicate Valid()
      reads this
    {
      Inv(SESAME, View())
    }

    // A call ran: its result, and the storage it leaves unless it panicked.
    twostate predicate Ran(env: Env, c: Call, r: Outcome)
      reads this
    {
      && r == Check(SESAME, env, old(View()), c)
      && (r.Panic? || View() == Written(SESAME, env, old(View()), c))
    }

    constructor ()
      ensures Valid() && View() == EMPTY_LEDGER
    {
      admin, custodians, tokenMeta, owner, tokenCounter, allTokens := None, map[], map[], map[], None, None;
      new;
      ContractsIssueDistinctIds();
    }

    method Init(env: Env, admin: Address) returns (r: Outcome)
      modifies this
      ensures Ran(env, Call.Init(admin), r)
    {
      if this.admin.Some? {
        return Err(AlreadyInitialized);
      }
      this.admin := Some(admin);
      tokenCounter := Some(0);
      r := Ok([]);
    }

    method AddCustodian(env: Env, admin: Address, custodian: Address) returns (r: Outcome)
      modifies this
      ensures Ran(env, Call.AddCustodian(admin, custodian), r)
    {
      if admin !in env.auths { return Panic; }
      if this.admin.None? || admin != this.admin.value {
        return Err(Unauthorized);
      }
      custodians := custodians[custodian := true];
      r := Ok([]);
    }

    method RemoveCustodian(env: Env, admin: Address, custodian: Address) returns (r: Outcome)
      modifies this
      ensures Ran(env, Call.RemoveCustodian(admin, custodian), r)
    {
      if admin !in env.auths { return Panic; }
      if this.admin.None? || admin != this.admin.value {
        return Err(Unauthorized);
      }
      custodians := custodians - {custodian};
      r := Ok([]);
    }

    method Mint(env: Env, custodian: Address, farmer: Address, commodity: string, grade: string,
                bagCount: u32, weightPerBagKg: u32, warehouseId: string) returns (r: Outcome)
      modifies this
      ensures Ran(env, Call.Mint(custodian, farmer, commodity, grade, bagCount, weightPerBagKg, warehouseId), r)
    {
      hide IssueWith;
      if custodian !in env.auths { return Panic; }
      if custodian !in custodians {
        return Err(Unauthorized);
      }
      if commodity != "SESAME" {
        return Err(InvalidCommodity);
      }
      if bagCount == 0 {
        return Err(InvalidWeight);
      }
      if weightPerBagKg == 0 {
        return Err(InvalidWeight);
      }
      if tokenCounter.GetOr(0) + 1 >= TWO_TO_THE_64 { return Panic; }
      var counter: u64 := tokenCounter.GetOr(0) + 1;
      tokenCounter := Some(counter);
      var id := NextId(env, counter);
      if id.None? { return Panic; }
      var tokenId := id.value;
      if bagCount * weightPerBagKg >= TWO_TO_THE_32 {
        return Err(InvalidWeight);
      }
      var metadata := Metadata(tokenId, commodity, grade, bagCount, weightPerBagKg, bagCount * weightPerBagKg,
                               warehouseId, custodian, env.timestamp, false, None);
      tokenMeta := tokenMeta[tokenId := metadata];
      owner := owner[tokenId := farmer];
      var all := allTokens.GetOr([]);
      all := all + [tokenId];
      allTokens := Some(all);
      r := Ok([tokenId]);
    }

    method Transfer(env: Env, tokenId: Bytes, from: Address, to: Address) returns (r: Outcome)
      modifies this
      ensures Ran(env, Call.Transfer(tokenId, from, to), r)
    {
      if tokenId !in tokenMeta {
        return Err(TokenNotFound);
      }
      if tokenId !in owner {
        return Err(TokenNotFound);
      }
      if owner[tokenId] != from {
        return Err(Unauthorized);
      }
      if tokenMeta[tokenId].isLocked {
        return Err(TokenLocked);
      }
      if from !in env.auths { return Panic; }
      owner := owner[tokenId := to];
      r := Ok([]);
    }

    method Burn(env: Env, custodian: Address, tokenId: Bytes) returns (r: Outcome)
      modifies this
      ensures Ran(env, Call.Burn(custodian, tokenId), r)
    {
      if tokenId !in tokenMeta {
        return Err(TokenNotFound);
      }
      if tokenMeta[tokenId].isLocked {
        return Err(TokenLocked);
      }
      if tokenMeta[tokenId].custodian != custodian {
        return Err(Unauthorized);
      }
      if custodian !in env.auths { return Panic; }
      tokenMeta := tokenMeta - {tokenId};
      owner := owner - {tokenId};
      r := Ok([]);
    }

    method Lock(env: Env, admin: Address, tokenId: Bytes) returns (r: Outcome)
      modifies this
      ensures Ran(env, Call.Lock(admin, tokenId), r)
    {
      if admin !in env.auths { return Panic; }
      if this.admin.None? || admin != this.admin.value {
        return Err(Unauthorized);
      }
      if tokenId !in tokenMeta {
        return Err(TokenNotFound);
      }
      if tokenMeta[tokenId].isLocked {
        return Err(TokenLocked);
      }
      tokenMeta := tokenMeta[tokenId := tokenMeta[tokenId].(isLocked := true)];
      r := Ok([]);
    }

    method Unlock(env: Env, admin: Address, tokenId: Bytes) returns (r: Outcome)
      modifies this
      ensures Ran(env, Call.Unlock(admin, tokenId), r)
    {
      if admin !in env.auths { return Panic; }
      if this.admin.None? || admin != this.admin.value {
        return Err(Unauthorized);
      }
      if tokenId !in tokenMeta {
        return Err(TokenNotFound);
      }
      if !tokenMeta[tokenId].isLocked {
        return Err(TokenLocked);
      }
      tokenMeta := tokenMeta[tokenId := tokenMeta[tokenId].(isLocked := false)];
      r := Ok([]);
    }

    // The children are written before the parent is removed.
    method ReplaceByChildren(tokenId: Bytes, a: Metadata, b: Metadata, holder: Address)
      requires tokenId in owner && owner[tokenId] == holder
      modifies this
      ensures View() == SplitWrites(old(View()), tokenId, a, b)
    {
      tokenMeta := tokenMeta[a.tokenId := a];
      tokenMeta := tokenMeta[b.tokenId := b];
      owner := owner[a.tokenId := holder];
      owner := owner[b.tokenId := holder];
      tokenMeta := tokenMeta - {tokenId};
      owner := owner - {tokenId};
      var all := allTokens.GetOr([]);
      all := all + [a.tokenId];
      all := all + [b.tokenId];
      allTokens := Some(all);
    }

    method Split(env: Env, tokenId: Bytes, amountKg: u32) returns (r: Outcome)
      requires Valid()
      modifies this
      ensures Ran(env, Call.Split(tokenId, amountKg), r)
    {
      hide IssueWith, Inv, Written, ChildA, ChildB, SESAME;
      ghost var before, c := View(), Call.Split(tokenId, amountKg);
      if !SplitCheck(SESAME, env, before, c).Ok? {
        RefusedSplitWrites(SESAME, env, before, c);
      }
      if tokenId !in tokenMeta {
        return Err(TokenNotFound);
      }
      var original := tokenMeta[tokenId];
      if original.isLocked {
        return Err(TokenLocked);
      }
      if amountKg == 0 || amountKg >= original.totalWeightKg {
        return Err(InvalidWeight);
      }
      var remaining := original.totalWeightKg - amountKg;
      if tokenCounter.GetOr(0) + 1 >= TWO_TO_THE_64 { return Panic; }
      var counter: u64 := tokenCounter.GetOr(0) + 1;
      tokenCounter := Some(counter);
      var idA := NextId(env, counter);
      if idA.None? || counter + 1 >= TWO_TO_THE_64 { return Panic; }
      var counterB: u64 := counter + 1;
      tokenCounter := Some(counterB);
      var idB := NextId(env, counterB);
      if idB.None? { return Panic; }
      var a := Metadata(idA.value, original.commodity, original.grade, original.bagCount / 2,
                        original.weightPerBagKg, amountKg, original.warehouseId, original.custodian,
                        original.depositTs, false, Some(original.tokenId));
      var b := Metadata(idB.value, original.commodity, original.grade, original.bagCount / 2,
                        original.weightPerBagKg, remaining, original.warehouseId, original.custodian,
                        original.depositTs, false, Some(original.tokenId));
      if tokenId !in owner {
        return Err(TokenNotFound);
      }
      var holder := owner[tokenId];
      SplitDone(SESAME, env, before, c, a, b);
      hide SplitCheck, Check, SplitWrites;
      ReplaceByChildren(tokenId, a, b, holder);
      r := Ok([a.tokenId, b.tokenId]);
    }

    // The host: a call that does not return Ok leaves no trace.
    method Invoke(env: Env, c: Call) returns (r: Outcome)
      requires Valid()
      modifies this
      ensures Valid() && r == Check(SESAME, env, old(View()), c)
      ensures View() == Step(Rollback, SESAME, env, old(View()), c)
    {
      hide Inv, Check, Written;
      StepKeepsInv(Rollback, SESAME, env, View(), c);
      var snapshot := (admin, custodians, tokenMeta, owner, tokenCounter, allTokens);
      match c {
        case Init(admin) => r := Init(env, admin);
        case AddCustodian(admin, custodian) => r := AddCustodian(env, admin, custodian);
        case RemoveCustodian(admin, custodian) => r := RemoveCustodian(env, admin, custodian);
        case Mint(custodian, farmer, commodity, grade, bags, each, warehouse) =>
          r := Mint(env, custodian, farmer, commodity, grade, bags, each, warehouse);
        case Transfer(id, from, to) => r := Transfer(env, id, from, to);
        case Burn(custodian, id) => r := Burn(env, custodian, id);
        case Lock(admin, id) => r := Lock(env, admin, id);
        case Unlock(admin, id) => r := Unlock(env, admin, id);
        case Split(id, amount) => r := Split(env, id, amount);
      }
      if !r.Ok? {
        admin, custodians, tokenMeta, owner, tokenCounter, allTokens :=
          snapshot.0, snapshot.1, snapshot.2, snapshot.3, snapshot.4, snapshot.5;
      }
    }

    // A whole run on the object is the run of the specification, so that every
    // theorem about runs is one about the contract.
    method InvokeAll(run: seq<Invocation>) returns (rs: seq<Outcome>)
      requires Valid()
      modifies this
      ensures Valid() && View() == Replay(Rollback, SESAME, old(View()), run).0
      ensures rs == Replay(Rollback, SESAME, old(View()), run).1
      ensures old(View()) == EMPTY_LEDGER ==> View() == Run(Rollback, SESAME, run).ledger
    {
      History.ReplayFollowsRun(Rollback, SESAME, GENESIS, run);
      hide Inv, Check, Step, RunFrom;
      ghost var start := View();
      rs := [];
      assert run[0..] == run;
      for i := 0 to |run|
        invariant Valid()
        invariant Replay(Rollback, SESAME, start, run).0 == Replay(Rollback, SESAME, View(), run[i..]).0
        invariant Replay(Rollback, SESAME, start, run).1 == rs + Replay(Rollback, SESAME, View(), run[i..]).1
      {
        ghost var st := View();
        ghost var rest := run[i..];
        assert rest[0] == run[i] && rest[1..] == run[i + 1..];
        var r := Invoke(run[i].env, run[i].call);
        ghost var tail := Replay(Rollback, SESAME, View(), run[i + 1..]).1;
        assert rs + ([r] + tail) == (rs + [r]) + tail;
        rs := rs + [r];
      }
      assert run[|run|..] == [];
    }

    method GetTokenMetadata(tokenId: Bytes) returns (r: Lookup<Metadata>)
      ensures r == LookupToken(View(), tokenId)
    {
      r := if tokenId in tokenMeta then Found(tokenMeta[tokenId]) else Missing(TokenNotFound);
    }

    method GetOwner(tokenId: Bytes) returns (r: Lookup<Address>)
      ensures r == LookupOwner(View(), tokenId)
    {
      r := if tokenId in owner then Found(owner[tokenId]) else Missing(TokenNotFound);
    }
  }
}
