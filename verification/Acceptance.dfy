/**
 * Which calls go through, what each refusal means, and what the queries show
 * afterwards: the contract as its callers see it.
 */
module Acceptance {
  import opened Prelude
  import opened TokenIds
  import opened ReceiptSpec
  import opened Worlds
  import opened Invariants
  import opened History
  import Balances

  // ----- Acceptance -------------------------------------------------------------------

  predicate ByAdmin(env: Env, st: Ledger, admin: Address) {
    admin in env.auths && st.admin == Some(admin)
  }

  predicate ByCustodian(env: Env, st: Ledger, custodian: Address) {
    custodian in env.auths && custodian in st.custodians
  }

  predicate Lives(st: Ledger, id: Bytes, locked: bool) {
    id in st.meta && st.meta[id].isLocked == locked
  }

  // There is an id for the k-th counter value from here.
  predicate Issues(p: Product, env: Env, st: Ledger, k: nat) {
    st.counter + k < 0x1_0000_0000_0000_0000 && p.issue(env.timestamp, st.counter + k).Some?
  }

  // A call goes through exactly when it has what is listed here.  A burn does not
  // ask the registry, a split asks for nobody, and the owner's entry that follows
  // the metadata's is never missing.
  lemma AcceptedExactly(p: Product, env: Env, st: Ledger, c: Call)
    requires Inv(p, st)
    ensures Check(p, env, st, c).Ok? <==>
              match c
              case Init(_) => st.admin.None?
              case AddCustodian(admin, _) => ByAdmin(env, st, admin)
              case RemoveCustodian(admin, _) => ByAdmin(env, st, admin)
              case Mint(custodian, _, commodity, _, bags, each, _) =>
                && ByCustodian(env, st, custodian) && commodity in p.commodities
                && 0 < bags && 0 < each && bags * each < 0x1_0000_0000 && Issues(p, env, st, 1)
              case Transfer(id, from, _) =>
                Lives(st, id, false) && LookupOwner(st, id) == Found(from) && from in env.auths
              case Burn(custodian, id) =>
                Lives(st, id, false) && st.meta[id].custodian == custodian && custodian in env.auths
              case Lock(admin, id) => ByAdmin(env, st, admin) && Lives(st, id, false)
              case Unlock(admin, id) => ByAdmin(env, st, admin) && Lives(st, id, true)
              case Split(id, amount) =>
                && Lives(st, id, false) && 0 < amount < st.meta[id].totalWeightKg
                && Issues(p, env, st, 1) && Issues(p, env, st, 2)
  {
    assert forall id :: id in st.meta ==> id in st.owner.Keys;
  }

  // ----- Refusals, error by error ---------------------------------------------------------

  // The receipt a call looks for, if it gets that far.
  function Sought(env: Env, st: Ledger, c: Call): Option<Bytes> {
    match c
    case Transfer(id, _, _) => Some(id)
    case Burn(_, id) => Some(id)
    case Split(id, _) => Some(id)
    case Lock(admin, id) => if ByAdmin(env, st, admin) then Some(id) else None
    case Unlock(admin, id) => if ByAdmin(env, st, admin) then Some(id) else None
    case _ => None
  }

  // The administrator a call names under that name's signature.
  function Claimed(env: Env, c: Call): Option<Address> {
    if (c.AddCustodian? || c.RemoveCustodian? || c.Lock? || c.Unlock?) && c.admin in env.auths
    then Some(c.admin) else None
  }

  // The receipt sought is not live; or it is locked where an unlocked one is needed,
  // or the other way round, and nothing else was wrong before that.
  lemma ReceiptErrorsMean(p: Product, env: Env, st: Ledger, c: Call)
    requires Inv(p, st)
    ensures Check(p, env, st, c) == Err(TokenNotFound) <==>
              Sought(env, st, c).Some? && Sought(env, st, c).value !in st.meta
    ensures Check(p, env, st, c) == Err(TokenLocked) <==>
              && Sought(env, st, c).Some? && Lives(st, Sought(env, st, c).value, !c.Unlock?)
              && (c.Transfer? ==> LookupOwner(st, c.tokenId) == Found(c.from))
  {
    assert forall id :: id in st.meta ==> id in st.owner.Keys;
  }

  lemma DepositErrorsMean(p: Product, env: Env, st: Ledger, c: Call)
    requires Inv(p, st)
    ensures Check(p, env, st, c) == Err(AlreadyInitialized) <==> c.Init? && st.admin.Some?
    ensures Check(p, env, st, c) == Err(InvalidCommodity) <==>
              c.Mint? && ByCustodian(env, st, c.custodian) && c.commodity !in p.commodities
    ensures Check(p, env, st, c) == Err(InvalidWeight) <==>
              || (&& c.Mint? && ByCustodian(env, st, c.custodian) && c.commodity in p.commodities
                  && (|| c.bagCount == 0 || c.weightPerBagKg == 0
                      || (c.bagCount * c.weightPerBagKg >= 0x1_0000_0000 && Issues(p, env, st, 1))))
              || (&& c.Split? && Lives(st, c.tokenId, false)
                  && (c.amountKg == 0 || c.amountKg >= st.meta[c.tokenId].totalWeightKg))
  {
  }

  lemma UnauthorizedMeans(p: Product, env: Env, st: Ledger, c: Call)
    requires Inv(p, st)
    ensures Check(p, env, st, c) == Err(Unauthorized) <==>
              || (Claimed(env, c).Some? && st.admin != Claimed(env, c))
              || (c.Mint? && c.custodian in env.auths && c.custodian !in st.custodians)
              || (c.Transfer? && c.tokenId in st.meta && LookupOwner(st, c.tokenId) != Found(c.from))
              || (c.Burn? && Lives(st, c.tokenId, false) && st.meta[c.tokenId].custodian != c.custodian)
  {
    assert forall id :: id in st.meta ==> id in st.owner.Keys;
  }

  // The commodities, by name.
  lemma CommoditiesAccepted(env: Env, st: Ledger, c: Call)
    requires c.Mint? && ByCustodian(env, st, c.custodian)
    ensures Check(MAIZE, env, st, c) == Err(InvalidCommodity) <==>
              c.commodity != "MAIZE_WHITE" && c.commodity != "MAIZE_YELLOW"
    ensures Check(SESAME, env, st, c) == Err(InvalidCommodity) <==> c.commodity != "SESAME"
  {
    hide IssueWith;
  }

  // ----- What the queries show ----------------------------------------------------------

  // A mint shows what it was called with and the ledger time, and nothing else
  // changes.
  lemma MintShows(host: Host, p: Product, env: Env, st: Ledger, c: Call)
    requires Inv(p, st) && c.Mint? && Check(p, env, st, c).Ok?
    ensures c.bagCount * c.weightPerBagKg < 0x1_0000_0000 && Issues(p, env, st, 1)
    ensures var st', id := Step(host, p, env, st, c), p.issue(env.timestamp, st.counter + 1).value;
            var m := Metadata(id, c.commodity, c.grade, c.bagCount, c.weightPerBagKg,
                              c.bagCount * c.weightPerBagKg, c.warehouseId, c.custodian, env.timestamp, false, None);
            && Check(p, env, st, c) == Ok([id]) && st'.all == st.all + [id]
            && LookupToken(st, id) == Missing(TokenNotFound)
            && LookupToken(st', id) == Found(m) && LookupOwner(st', id) == Found(c.farmer)
            && (forall k :: k != id ==>
                  LookupToken(st', k) == LookupToken(st, k) && LookupOwner(st', k) == LookupOwner(st, k))
            && st'.admin == st.admin && st'.custodians == st.custodians
  {

  }

  // A transfer shows the new owner, and nothing else changes.
  lemma TransferShows(host: Host, p: Product, env: Env, st: Ledger, c: Call)
    requires Inv(p, st) && c.Transfer? && Check(p, env, st, c).Ok?
    ensures var st' := Step(host, p, env, st, c);
            && Check(p, env, st, c) == Ok([]) && LookupOwner(st', c.tokenId) == Found(c.to)
            && (forall k :: k != c.tokenId ==> LookupOwner(st', k) == LookupOwner(st, k))
            && (forall k :: LookupToken(st', k) == LookupToken(st, k))
            && st'.all == st.all && st'.admin == st.admin && st'.custodians == st.custodians
  {
  }

  // Locking and unlocking show in the flag and nowhere else.
  lemma LockShows(host: Host, p: Product, env: Env, st: Ledger, c: Call)
    requires Inv(p, st) && (c.Lock? || c.Unlock?) && Check(p, env, st, c).Ok?
    ensures var st', id := Step(host, p, env, st, c), c.tokenId;
            && Check(p, env, st, c) == Ok([]) && id in st.meta
            && LookupToken(st', id) == Found(st.meta[id].(isLocked := c.Lock?))
            && (forall k :: k != id ==> LookupToken(st', k) == LookupToken(st, k))
            && (forall k :: LookupOwner(st', k) == LookupOwner(st, k))
            && st'.all == st.all && st'.admin == st.admin && st'.custodians == st.custodians
  {
  }

  // A burned receipt is gone, and nothing else changes.
  lemma BurnShows(host: Host, p: Product, env: Env, st: Ledger, c: Call)
    requires Inv(p, st) && c.Burn? && Check(p, env, st, c).Ok?
    ensures var st' := Step(host, p, env, st, c);
            && Check(p, env, st, c) == Ok([])
            && LookupToken(st', c.tokenId) == Missing(TokenNotFound)
            && LookupOwner(st', c.tokenId) == Missing(TokenNotFound)
            && (forall k :: k != c.tokenId ==>
                  LookupToken(st', k) == LookupToken(st, k) && LookupOwner(st', k) == LookupOwner(st, k))
            && st'.all == st.all && st'.admin == st.admin && st'.custodians == st.custodians
  {
  }

  // What a child shows: the parent's contents, but for its own id and weight, half
  // the bags, no lock and the link to the parent.
  predicate ShowsChild(st: Ledger, st': Ledger, parent: Bytes, id: Bytes, weight: int) {
    && LookupToken(st, parent).Found? && LookupToken(st', id).Found?
    && var m, x := LookupToken(st, parent).value, LookupToken(st', id).value;
       && x.tokenId == id && x.totalWeightKg == weight && x.bagCount == m.bagCount / 2
       && !x.isLocked && x.parentTokenId == Some(parent)
       && x.commodity == m.commodity && x.grade == m.grade && x.weightPerBagKg == m.weightPerBagKg
       && x.warehouseId == m.warehouseId && x.custodian == m.custodian && x.depositTs == m.depositTs
       && LookupOwner(st', id) == LookupOwner(st, parent)
  }

  // A split shows the two children in the place of the parent, with the parent's
  // owner; nothing else changes.
  lemma SplitShows(host: Host, p: Product, env: Env, st: Ledger, c: Call) returns (a: Bytes, b: Bytes)
    requires Inv(p, st) && c.Split? && Check(p, env, st, c).Ok?
    ensures Check(p, env, st, c) == Ok([a, b])
    ensures Issues(p, env, st, 1) && p.issue(env.timestamp, st.counter + 1).value == a
    ensures Issues(p, env, st, 2) && p.issue(env.timestamp, st.counter + 2).value == b
    ensures var st', id := Step(host, p, env, st, c), c.tokenId;
            && id in st.meta && st'.all == st.all + [a, b]
            && ShowsChild(st, st', id, a, c.amountKg)
            && ShowsChild(st, st', id, b, st.meta[id].totalWeightKg - c.amountKg)
            && LookupToken(st', id) == Missing(TokenNotFound) && LookupOwner(st', id) == Missing(TokenNotFound)
            && (forall k :: k != a && k != b && k != id ==>
                  LookupToken(st', k) == LookupToken(st, k) && LookupOwner(st', k) == LookupOwner(st, k))
            && st'.admin == st.admin && st'.custodians == st.custodians
  {
    a, b := IssuedId(p, env, st.counter + 1), IssuedId(p, env, st.counter + 2);
    SplitOk(p, env, st, c);
    SplitIdsNew(p, env, st, c);
    OwnerLookupsSucceed(p, env, st, c);
  }

  // Initialisation names the administrator, and the other two calls change one
  // entry of the registry; receipts and ids stay as they are.
  lemma GovernanceShows(host: Host, p: Product, env: Env, st: Ledger, c: Call)
    requires (c.Init? || c.AddCustodian? || c.RemoveCustodian?) && Check(p, env, st, c).Ok?
    ensures var st' := Step(host, p, env, st, c);
            && Check(p, env, st, c) == Ok([])
            && st'.admin == (if c.Init? then Some(c.newAdmin) else st.admin)
            && (forall a :: a in st'.custodians <==>
                  if !c.Init? && a == c.custodian then c.AddCustodian? else a in st.custodians)
            && (forall k :: LookupToken(st', k) == LookupToken(st, k) && LookupOwner(st', k) == LookupOwner(st, k))
            && st'.all == st.all
  {
  }

  // In every run the queries agree: a receipt has an owner exactly when it is live,
  // it is shown as it was issued but for the lock, and it is in the balance of its
  // owner and in no other.
  lemma QueriesAgree(host: Host, p: Product, run: seq<Invocation>, id: Bytes, wallet: Address)
    requires DistinctIds(p)
    ensures var w := Run(host, p, run);
            var token, owner := LookupToken(w.ledger, id), LookupOwner(w.ledger, id);
            && (token.Found? <==> owner.Found?) && (token.Found? <==> id in w.ledger.meta)
            && (token.Missing? ==> token.error == TokenNotFound && owner.error == TokenNotFound)
            && (token.Found? ==> id in w.records && token.value.(isLocked := false) == w.records[id].token)
            && (id in Balances.Balance(w.ledger, wallet) <==> owner == Found(wallet))
  {
    RunKeepsInv(host, p, run);
    var w := Run(host, p, run);
    hide Run;
    Balances.BalancesPartition(p, w.ledger, id, wallet);
    assert id in w.ledger.meta <==> id in w.ledger.owner.Keys;
    if id in w.ledger.meta {
      assert w.records[id].token == w.ledger.meta[id].(isLocked := false);
    }
  }

  // ----- What can always be done ----------------------------------------------------------

  // Unlocking, where it is needed.
  function Opening(env: Env, st: Ledger, id: Bytes): seq<Invocation>
    requires id in st.meta && (st.meta[id].isLocked ==> st.admin.Some?)
  {
    if st.meta[id].isLocked then [Invocation(env, Unlock(st.admin.value, id))] else []
  }

  predicate CanOpen(env: Env, st: Ledger, id: Bytes)
    requires id in st.meta
  {
    st.meta[id].isLocked ==> st.admin.Some? && st.admin.value in env.auths
  }

  // The ledger with the receipt unlocked.
  function Opened(st: Ledger, id: Bytes): Ledger
    requires id in st.meta
  {
    st.(meta := st.meta[id := st.meta[id].(isLocked := false)])
  }

  lemma OpeningOpens(host: Host, p: Product, env: Env, st: Ledger, id: Bytes, i: Invocation)
    requires id in st.meta && CanOpen(env, st, id)
    ensures var r := Replay(host, p, st, Opening(env, st, id) + [i]);
            && r.0 == Step(host, p, i.env, Opened(st, id), i.call)
            && r.1 == (if st.meta[id].isLocked then [Ok([])] else []) + [Check(p, i.env, Opened(st, id), i.call)]
  {
    var st1 := Opened(st, id);
    ReplayFirst(host, p, st1, i, []);
    ReplayNothing(host, p, Step(host, p, i.env, st1, i.call));
    assert [i] + [] == [i];
    if st.meta[id].isLocked {
      var unlock := Invocation(env, Unlock(st.admin.value, id));
      assert Check(p, env, st, unlock.call) == Ok([]) && Step(host, p, env, st, unlock.call) == st1;
      hide Check, Step, Replay;
      ReplayFirst(host, p, st, unlock, [i]);
    } else {
      assert st1 == st;
      assert [] + [i] == [i];
    }
  }

  lemma OpenedKeepsInv(p: Product, st: Ledger, id: Bytes)
    requires Inv(p, st) && id in st.meta
    ensures Inv(p, Opened(st, id)) && id in st.owner
  {
    assert id in st.owner.Keys;
  }

  // In every run the custodian named in a live receipt can burn it, registered or
  // not, after the administrator's unlocking if it is locked; and its owner can
  // hand it to anybody.
  lemma AlwaysBurnable(host: Host, p: Product, run: seq<Invocation>, env: Env, id: Bytes)
    requires DistinctIds(p) && id in Run(host, p, run).ledger.meta && CanOpen(env, Run(host, p, run).ledger, id)
    requires Run(host, p, run).ledger.meta[id].custodian in env.auths
    ensures var st := Run(host, p, run).ledger;
            var burn := Invocation(env, Burn(st.meta[id].custodian, id));
            var r := Replay(host, p, st, Opening(env, st, id) + [burn]);
            && r.1 == (if st.meta[id].isLocked then [Ok([])] else []) + [Ok([])]
            && LookupToken(r.0, id) == Missing(TokenNotFound) && LookupOwner(r.0, id) == Missing(TokenNotFound)
  {
    var st := Run(host, p, run).ledger;
    RunKeepsInv(host, p, run);
    OpenedKeepsInv(p, st, id);
    hide Run, Inv, Replay, Opening, Check, Step;
    var burn := Invocation(env, Burn(st.meta[id].custodian, id));
    OpeningOpens(host, p, env, st, id, burn);
    AcceptedExactly(p, env, Opened(st, id), burn.call);
    BurnShows(host, p, env, Opened(st, id), burn.call);
  }

  lemma AlwaysTransferable(host: Host, p: Product, run: seq<Invocation>, env: Env, id: Bytes, to: Address)
    requires DistinctIds(p) && id in Run(host, p, run).ledger.meta && CanOpen(env, Run(host, p, run).ledger, id)
    requires id in Run(host, p, run).ledger.owner && Run(host, p, run).ledger.owner[id] in env.auths
    ensures var st := Run(host, p, run).ledger;
            var transfer := Invocation(env, Transfer(id, st.owner[id], to));
            var r := Replay(host, p, st, Opening(env, st, id) + [transfer]);
            && r.1 == (if st.meta[id].isLocked then [Ok([])] else []) + [Ok([])]
            && LookupOwner(r.0, id) == Found(to)
            && LookupToken(r.0, id) == Found(st.meta[id].(isLocked := false))
  {
    var st := Run(host, p, run).ledger;
    RunKeepsInv(host, p, run);
    OpenedKeepsInv(p, st, id);
    hide Run, Inv, Replay, Opening, Check, Step;
    var transfer := Invocation(env, Transfer(id, st.owner[id], to));
    OpeningOpens(host, p, env, st, id, transfer);
    AcceptedExactly(p, env, Opened(st, id), transfer.call);
    TransferShows(host, p, env, Opened(st, id), transfer.call);
  }
}
