/**
 * The state machine both receipt contracts implement, as functions on values.
 * Apply gives the storage a call leaves behind and its result; Step adds what
 * the host does with it.  The two contracts are classes of their own, each
 * proved against these functions.
 */
module ReceiptSpec {
  import opened Prelude
  import opened TokenIds
  import Calendar

  datatype Address = Address(strkey: string)

  datatype Metadata = Metadata(
    tokenId: Bytes,
    commodity: string,
    grade: string,
    bagCount: u32,
    weightPerBagKg: u32,
    totalWeightKg: u32,
    warehouseId: string,
    custodian: Address,
    depositTs: u64,
    isLocked: bool,
    parentTokenId: Option<Bytes>)

  datatype ContractError =
    | AlreadyInitialized | Unauthorized | TokenNotFound | TokenLocked | InvalidCommodity | InvalidWeight

  // What distinguishes the contracts: the commodities they accept, and the id
  // they make from a ledger time and a counter (None when making it panics).
  // Serial reads the counter back from an id; only proofs use it.
  datatype Product = Product(commodities: set<string>, issue: (u64, u64) -> Option<Bytes>, serial: Bytes -> nat)

  function IssueWith(letter: u8): (u64, u64) -> Option<Bytes> {
    (timestamp: u64, counter: u64) =>
      var year := Calendar.YearFromTimestamp(timestamp);
      if IdFits(year, counter) then Some(TokenId(letter, year, counter)) else None
  }

  function ParsedCounter(): Bytes -> nat {
    (id: Bytes) => match ParseTokenId(id)
      case Some(parts) => parts.counter
      case None => 0
  }

  const MAIZE := Product({"MAIZE_WHITE", "MAIZE_YELLOW"}, IssueWith(LETTER_K), ParsedCounter())
  const SESAME := Product({"SESAME"}, IssueWith(LETTER_S), ParsedCounter())

  // What the host gives a call: the addresses that authorised it and the ledger
  // time, of which nothing is assumed.
  datatype Env = Env(auths: set<Address>, timestamp: u64)

  // The storage as both contracts see it: absent entries read as empty.
  datatype Ledger = Ledger(
    admin: Option<Address>,
    custodians: set<Address>,
    meta: map<Bytes, Metadata>,
    owner: map<Bytes, Address>,
    counter: u64,
    all: seq<Bytes>)

  const EMPTY_LEDGER := Ledger(None, {}, map[], map[], 0, [])

  datatype Call =
    | Init(newAdmin: Address)
    | AddCustodian(admin: Address, custodian: Address)
    | RemoveCustodian(admin: Address, custodian: Address)
    | Mint(custodian: Address, farmer: Address, commodity: string, grade: string,
           bagCount: u32, weightPerBagKg: u32, warehouseId: string)
    | Transfer(tokenId: Bytes, from: Address, to: Address)
    | Burn(custodian: Address, tokenId: Bytes)
    | Lock(admin: Address, tokenId: Bytes)
    | Unlock(admin: Address, tokenId: Bytes)
    | Split(tokenId: Bytes, amountKg: u32)

  // Ok lists the ids the call issued.  Panic stands for a failed authorisation,
  // an arithmetic overflow and an index out of bounds alike.
  datatype Outcome = Ok(issued: seq<Bytes>) | Err(error: ContractError) | Panic

  // ----- The calls -----------------------------------------------------------

  predicate CanIssue(p: Product, env: Env, counter: nat) {
    counter < TWO_TO_THE_64 && p.issue(env.timestamp, counter).Some?
  }

  function IssuedId(p: Product, env: Env, counter: nat): Bytes
    requires CanIssue(p, env, counter)
  {
    p.issue(env.timestamp, counter).value
  }

  function AdminCheck(env: Env, st: Ledger, admin: Address): Outcome {
    if admin !in env.auths then Panic
    else if st.admin != Some(admin) then Err(Unauthorized)
    else Ok([])
  }

  function MintCheck(p: Product, env: Env, st: Ledger, c: Call): Outcome
    requires c.Mint?
  {
    if c.custodian !in env.auths then Panic
    else if c.custodian !in st.custodians then Err(Unauthorized)
    else if c.commodity !in p.commodities then Err(InvalidCommodity)
    else if c.bagCount == 0 || c.weightPerBagKg == 0 then Err(InvalidWeight)
    else if !CanIssue(p, env, st.counter + 1) then Panic
    else if c.bagCount * c.weightPerBagKg >= TWO_TO_THE_32 then Err(InvalidWeight)
    else Ok([IssuedId(p, env, st.counter + 1)])
  }

  // The one refusal that comes after a write: the counter is already bumped.
  predicate RefusedForOverflow(p: Product, env: Env, st: Ledger, c: Call) {
    c.Mint? && MintCheck(p, env, st, c) == Err(InvalidWeight) && c.bagCount != 0 && c.weightPerBagKg != 0
  }

  function Deposit(p: Product, env: Env, st: Ledger, c: Call): Metadata
    requires c.Mint? && MintCheck(p, env, st, c).Ok?
  {
    Metadata(IssuedId(p, env, st.counter + 1), c.commodity, c.grade, c.bagCount, c.weightPerBagKg,
             c.bagCount * c.weightPerBagKg, c.warehouseId, c.custodian, env.timestamp, false, None)
  }

  function TransferCheck(env: Env, st: Ledger, c: Call): Outcome
    requires c.Transfer?
  {
    if c.tokenId !in st.meta || c.tokenId !in st.owner then Err(TokenNotFound)
    else if st.owner[c.tokenId] != c.from then Err(Unauthorized)
    else if st.meta[c.tokenId].isLocked then Err(TokenLocked)
    else if c.from !in env.auths then Panic
    else Ok([])
  }

  function BurnCheck(env: Env, st: Ledger, c: Call): Outcome
    requires c.Burn?
  {
    if c.tokenId !in st.meta then Err(TokenNotFound)
    else if st.meta[c.tokenId].isLocked then Err(TokenLocked)
    else if st.meta[c.tokenId].custodian != c.custodian then Err(Unauthorized)
    else if c.custodian !in env.auths then Panic
    else Ok([])
  }

  // Lock asks for an unlocked token, unlock for a locked one; both refuse with
  // the same error.
  function LockCheck(env: Env, st: Ledger, admin: Address, tokenId: Bytes, lock: bool): Outcome {
    var check := AdminCheck(env, st, admin);
    if !check.Ok? then check
    else if tokenId !in st.meta then Err(TokenNotFound)
    else if st.meta[tokenId].isLocked == lock then Err(TokenLocked)
    else Ok([])
  }

  function SplitCheck(p: Product, env: Env, st: Ledger, c: Call): Outcome
    requires c.Split?
  {
    if c.tokenId !in st.meta then Err(TokenNotFound)
    else if st.meta[c.tokenId].isLocked then Err(TokenLocked)
    else if c.amountKg == 0 || c.amountKg >= st.meta[c.tokenId].totalWeightKg then Err(InvalidWeight)
    else if !CanIssue(p, env, st.counter + 1) || !CanIssue(p, env, st.counter + 2) then Panic
    else if c.tokenId !in st.owner then Err(TokenNotFound)
    else Ok([IssuedId(p, env, st.counter + 1), IssuedId(p, env, st.counter + 2)])
  }

  function ChildToken(parent: Metadata, id: Bytes, weight: u32): Metadata {
    parent.(tokenId := id, bagCount := parent.bagCount / 2, totalWeightKg := weight,
            isLocked := false, parentTokenId := Some(parent.tokenId))
  }

  function Check(p: Product, env: Env, st: Ledger, c: Call): Outcome {
    match c
    case Init(_) => if st.admin.Some? then Err(AlreadyInitialized) else Ok([])
    case AddCustodian(admin, _) => AdminCheck(env, st, admin)
    case RemoveCustodian(admin, _) => AdminCheck(env, st, admin)
    case Mint(_, _, _, _, _, _, _) => MintCheck(p, env, st, c)
    case Transfer(_, _, _) => TransferCheck(env, st, c)
    case Burn(_, _) => BurnCheck(env, st, c)
    case Lock(admin, id) => LockCheck(env, st, admin, id, true)
    case Unlock(admin, id) => LockCheck(env, st, admin, id, false)
    case Split(_, _) => SplitCheck(p, env, st, c)
  }

  // A token enters under a fresh counter value ...
  function AddToken(st: Ledger, m: Metadata, owner: Address, n: u64): Ledger {
    st.(counter := n, meta := st.meta[m.tokenId := m], owner := st.owner[m.tokenId := owner],
        all := st.all + [m.tokenId])
  }

  // ... and leaves the two maps, but not the list of issued ids.
  function RemoveToken(st: Ledger, id: Bytes): Ledger {
    st.(meta := st.meta - {id}, owner := st.owner - {id})
  }

  function SetLock(st: Ledger, id: Bytes, lock: bool): Ledger
    requires id in st.meta
  {
    st.(meta := st.meta[id := st.meta[id].(isLocked := lock)])
  }

  function ChildA(p: Product, env: Env, st: Ledger, c: Call): Metadata
    requires c.Split? && SplitCheck(p, env, st, c).Ok?
  {
    ChildToken(st.meta[c.tokenId], IssuedId(p, env, st.counter + 1), c.amountKg)
  }

  function ChildB(p: Product, env: Env, st: Ledger, c: Call): Metadata
    requires c.Split? && SplitCheck(p, env, st, c).Ok?
  {
    ChildToken(st.meta[c.tokenId], IssuedId(p, env, st.counter + 2),
               st.meta[c.tokenId].totalWeightKg - c.amountKg)
  }

  function Replace(st: Ledger, id: Bytes, a: Metadata, b: Metadata): Ledger
    requires id in st.owner && st.counter + 2 < TWO_TO_THE_64
  {
    AddToken(AddToken(RemoveToken(st, id), a, st.owner[id], st.counter + 1), b, st.owner[id], st.counter + 2)
  }

  // The storage after a call that went through.
  function Effect(p: Product, env: Env, st: Ledger, c: Call): Ledger
    requires Check(p, env, st, c).Ok?
  {
    match c
    case Init(admin) => st.(admin := Some(admin), counter := 0)
    case AddCustodian(_, custodian) => st.(custodians := st.custodians + {custodian})
    case RemoveCustodian(_, custodian) => st.(custodians := st.custodians - {custodian})
    case Mint(_, farmer, _, _, _, _, _) =>
      AddToken(st, Deposit(p, env, st, c), farmer, st.counter + 1)
    case Transfer(id, _, to) => st.(owner := st.owner[id := to])
    case Burn(_, id) => RemoveToken(st, id)
    case Lock(_, id) => SetLock(st, id, true)
    case Unlock(_, id) => SetLock(st, id, false)
    case Split(id, _) => Replace(st, id, ChildA(p, env, st, c), ChildB(p, env, st, c))
  }

  // A split that finds the metadata but no owner fails after both counter bumps.
  predicate SplitWithoutOwner(p: Product, env: Env, st: Ledger, c: Call) {
    c.Split? && c.tokenId in st.meta && SplitCheck(p, env, st, c) == Err(TokenNotFound)
  }

  // The storage as the contract code leaves it, before the host decides.
  function Written(p: Product, env: Env, st: Ledger, c: Call): Ledger {
    if Check(p, env, st, c).Ok? then Effect(p, env, st, c)
    else if RefusedForOverflow(p, env, st, c) then st.(counter := st.counter + 1)
    else if SplitWithoutOwner(p, env, st, c) then st.(counter := st.counter + 2)
    else st
  }

  // The host discards the writes of a call that returns an error.  KeepWrites is
  // the host without that rule, to show which properties depend on it.  A panic
  // never leaves anything behind.
  datatype Host = Rollback | KeepWrites

  function Step(host: Host, p: Product, env: Env, st: Ledger, c: Call): Ledger {
    match Check(p, env, st, c)
    case Ok(_) => Written(p, env, st, c)
    case Err(_) => if host.KeepWrites? then Written(p, env, st, c) else st
    case Panic => st
  }

  // ----- Queries --------------------------------------------------------------

  datatype Lookup<+T> = Found(value: T) | Missing(error: ContractError)

  function LookupToken(st: Ledger, id: Bytes): Lookup<Metadata> {
    if id in st.meta then Found(st.meta[id]) else Missing(TokenNotFound)
  }

  function LookupOwner(st: Ledger, id: Bytes): Lookup<Address> {
    if id in st.owner then Found(st.owner[id]) else Missing(TokenNotFound)
  }
}
