/**
 * Runs of a receipt contract, and what is claimed of the states they reach.  A
 * world is the ledger together with what the ledger forgets: every receipt as it
 * was issued, and which ones have since been burned or split.
 */
module Worlds {
  import opened Prelude
  import opened TokenIds
  import opened ReceiptSpec

  datatype Invocation = Invocation(env: Env, call: Call)

  // A receipt as issued, and the counter value it was issued under.
  datatype Record = Record(token: Metadata, serial: u64)

  datatype World = World(ledger: Ledger, records: map<Bytes, Record>, burned: set<Bytes>, split: set<Bytes>)

  const GENESIS := World(EMPTY_LEDGER, map[], {}, {})

  function Enter(w: World, m: Metadata, owner: Address, n: u64): World {
    w.(ledger := AddToken(w.ledger, m, owner, n), records := w.records[m.tokenId := Record(m, n)])
  }

  function LeaveBurned(w: World, id: Bytes): World {
    w.(ledger := RemoveToken(w.ledger, id), burned := w.burned + {id})
  }

  function LeaveSplit(w: World, id: Bytes): World {
    w.(ledger := RemoveToken(w.ledger, id), split := w.split + {id})
  }

  function EnterMinted(p: Product, env: Env, w: World, c: Call): World
    requires c.Mint? && MintCheck(p, env, w.ledger, c).Ok?
  {
    Enter(w, Deposit(p, env, w.ledger, c), c.farmer, w.ledger.counter + 1)
  }

  function EnterChildren(p: Product, env: Env, w: World, c: Call): World
    requires c.Split? && SplitCheck(p, env, w.ledger, c).Ok?
  {
    var st := w.ledger;
    var w1 := Enter(LeaveSplit(w, c.tokenId), ChildA(p, env, st, c), st.owner[c.tokenId], st.counter + 1);
    Enter(w1, ChildB(p, env, st, c), st.owner[c.tokenId], st.counter + 2)
  }

  function Advance(host: Host, p: Product, w: World, i: Invocation): World {
    var env, c, st := i.env, i.call, w.ledger;
    if !Check(p, env, st, c).Ok? then w.(ledger := Step(host, p, env, st, c))
    else match c
      case Mint(_, _, _, _, _, _, _) => EnterMinted(p, env, w, c)
      case Burn(_, id) => LeaveBurned(w, id)
      case Split(_, _) => EnterChildren(p, env, w, c)
      case _ => w.(ledger := Effect(p, env, st, c))
  }

  function RunFrom(host: Host, p: Product, w: World, run: seq<Invocation>): World
    decreases |run|
  {
    if run == [] then w else RunFrom(host, p, Advance(host, p, w, run[0]), run[1..])
  }

  function Run(host: Host, p: Product, run: seq<Invocation>): World {
    RunFrom(host, p, GENESIS, run)
  }

  // The same run as callers see it: the ledger at the end and every result.
  function Replay(host: Host, p: Product, st: Ledger, run: seq<Invocation>): (Ledger, seq<Outcome>)
    decreases |run|
  {
    if run == [] then (st, [])
    else
      var rest := Replay(host, p, Step(host, p, run[0].env, st, run[0].call), run[1..]);
      (rest.0, [Check(p, run[0].env, st, run[0].call)] + rest.1)
  }

  // ----- Three kinds of step that matter to history ----------------------------

  datatype Move = Idle | Deposited | Exited | Divided

  function MoveOf(p: Product, w: World, i: Invocation): (move: Move)
    ensures move.Deposited? ==> i.call.Mint? && MintCheck(p, i.env, w.ledger, i.call).Ok?
    ensures move.Exited? ==> i.call.Burn? && BurnCheck(i.env, w.ledger, i.call).Ok?
    ensures move.Divided? ==> i.call.Split? && SplitCheck(p, i.env, w.ledger, i.call).Ok?
  {
    if !Check(p, i.env, w.ledger, i.call).Ok? then Idle
    else match i.call
      case Mint(_, _, _, _, _, _, _) => Deposited
      case Burn(_, _) => Exited
      case Split(_, _) => Divided
      case _ => Idle
  }

  ghost predicate SameReceipts(w: World, w': World) {
    && w'.ledger.all == w.ledger.all && w'.records == w.records && w'.burned == w.burned && w'.split == w.split
    && w'.ledger.meta.Keys == w.ledger.meta.Keys
  }

  // ----- The ledger invariant ---------------------------------------------------

  // An id tells the counter it was made under, so that ids made under different
  // counters differ, whatever the ledger times.
  ghost predicate DistinctIds(p: Product) {
    forall t: u64, n: u64 :: p.issue(t, n).Some? ==> p.serial(p.issue(t, n).value) == n
  }

  // No issued id was made under a counter the ledger has not reached.
  ghost predicate Fresh(p: Product, all: seq<Bytes>, counter: u64) {
    forall k :: k in all ==> p.serial(k) <= counter
  }

  ghost predicate Inv(p: Product, st: Ledger) {
    && DistinctIds(p)
    && NoDuplicates(st.all)
    && Fresh(p, st.all, st.counter)
    && st.meta.Keys == st.owner.Keys
    && (forall k :: k in st.meta ==> k in st.all && st.meta[k].tokenId == k && 0 < st.meta[k].totalWeightKg)
    && (st.admin.None? ==> st.all == [] && st.custodians == {} && st.counter == 0)
  }

  // ----- The world invariant ----------------------------------------------------

  // What a split hands down to both children.
  predicate SameLot(a: Metadata, b: Metadata) {
    && a.commodity == b.commodity && a.grade == b.grade && a.warehouseId == b.warehouseId
    && a.custodian == b.custodian && a.depositTs == b.depositTs && a.weightPerBagKg == b.weightPerBagKg
  }

  // Parents come first: following parent links always ends.
  ghost predicate Linked(records: map<Bytes, Record>) {
    forall k :: k in records && records[k].token.parentTokenId.Some? ==>
      var parent := records[k].token.parentTokenId.value;
      && parent in records
      && records[parent].serial < records[k].serial
      && SameLot(records[parent].token, records[k].token)
  }

  predicate WellFormed(k: Bytes, r: Record) {
    r.token.tokenId == k && !r.token.isLocked && 0 < r.token.totalWeightKg && 0 < r.serial
  }

  ghost predicate RecordsComplete(w: World) {
    && (forall k :: k in w.records <==> k in w.ledger.all)
    && (forall k :: k in w.records ==> WellFormed(k, w.records[k]) && w.records[k].serial <= w.ledger.counter)
  }

  // Every receipt is live, burned or split, and just one of these.  A live one
  // is as it was issued, but for the lock.
  ghost predicate Partitioned(w: World) {
    && w.records.Keys == w.ledger.meta.Keys + w.burned + w.split
    && w.ledger.meta.Keys !! w.burned && w.ledger.meta.Keys !! w.split && w.burned !! w.split
    && (forall k :: k in w.ledger.meta ==> w.ledger.meta[k].(isLocked := false) == w.records[k].token)
  }

  ghost predicate ParentsAreSplit(w: World) {
    forall k :: k in w.records && w.records[k].token.parentTokenId.Some? ==>
      w.records[k].token.parentTokenId.value in w.split
  }

  ghost predicate WorldInv(p: Product, w: World) {
    Inv(p, w.ledger) && RecordsComplete(w) && Partitioned(w) && Linked(w.records) && ParentsAreSplit(w)
  }

  ghost predicate IsNew(w: World, id: Bytes) {
    id !in w.records && id !in w.ledger.all && id !in w.split
  }

  ghost predicate ChildrenNew(p: Product, env: Env, w: World, c: Call)
    requires c.Split? && SplitCheck(p, env, w.ledger, c).Ok?
  {
    var a, b := ChildA(p, env, w.ledger, c).tokenId, ChildB(p, env, w.ledger, c).tokenId;
    IsNew(w, a) && IsNew(w, b) && a != b && c.tokenId != a && c.tokenId != b
    && w.ledger.meta[c.tokenId].tokenId == c.tokenId
  }

  // ----- History only grows -----------------------------------------------------

  // What was issued stays issued, as it was and in its place; what comes later is
  // made under larger counters.
  ghost predicate Extends(w: World, w': World) {
    && w.ledger.counter <= w'.ledger.counter
    && (forall k :: k in w'.records && k !in w.records ==> w.ledger.counter < w'.records[k].serial)
    && w.ledger.all <= w'.ledger.all && w.burned <= w'.burned && w.split <= w'.split
    && (forall k :: k in w.records ==> k in w'.records && w'.records[k] == w.records[k])
  }
}
