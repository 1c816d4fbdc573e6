/**
 * The two contracts are the same machine.  A pairing renames ids and commodities;
 * runs that differ only by it give the same results and matching ledgers.
 */
module Twins {
  import opened Prelude
  import opened TokenIds
  import opened ReceiptSpec
  import opened Worlds
  import opened Invariants
  import Calendar

  datatype Pairing = Pairing(id: Bytes -> Bytes, back: Bytes -> Bytes, commodity: string -> string)

  function PairId(x: Pairing, id: Option<Bytes>): Option<Bytes> {
    match id
    case None => None
    case Some(v) => Some(x.id(v))
  }

  ghost predicate Injective(x: Pairing) {
    forall k :: x.back(x.id(k)) == k
  }

  // The pairing matches the ids of p to those of q one to one, and the accepted
  // commodities of p to accepted ones of q.
  ghost predicate Pairs(p: Product, q: Product, x: Pairing) {
    && Injective(x)
    && (forall t: u64, n: u64 :: q.issue(t, n) == PairId(x, p.issue(t, n)))
    && (forall c :: c in p.commodities <==> x.commodity(c) in q.commodities)
  }

  function PairIds(x: Pairing, ids: seq<Bytes>): (r: seq<Bytes>)
    ensures |r| == |ids|
  {
    seq(|ids|, i requires 0 <= i < |ids| => x.id(ids[i]))
  }

  function PairMeta(x: Pairing, m: Metadata): Metadata {
    m.(tokenId := x.id(m.tokenId), commodity := x.commodity(m.commodity),
       parentTokenId := PairId(x, m.parentTokenId))
  }

  function PairCall(x: Pairing, c: Call): Call {
    match c
    case Mint(custodian, farmer, commodity, grade, bags, each, warehouse) =>
      Mint(custodian, farmer, x.commodity(commodity), grade, bags, each, warehouse)
    case Transfer(id, from, to) => Transfer(x.id(id), from, to)
    case Burn(custodian, id) => Burn(custodian, x.id(id))
    case Lock(admin, id) => Lock(admin, x.id(id))
    case Unlock(admin, id) => Unlock(admin, x.id(id))
    case Split(id, amount) => Split(x.id(id), amount)
    case _ => c
  }

  function PairOutcome(x: Pairing, o: Outcome): Outcome {
    if o.Ok? then Ok(PairIds(x, o.issued)) else o
  }

  ghost predicate MetaTwins(x: Pairing, a: map<Bytes, Metadata>, b: map<Bytes, Metadata>) {
    && (forall k :: k in a <==> x.id(k) in b)
    && (forall k :: k in a ==> b[x.id(k)] == PairMeta(x, a[k]))
  }

  ghost predicate OwnerTwins(x: Pairing, a: map<Bytes, Address>, b: map<Bytes, Address>) {
    && (forall k :: k in a <==> x.id(k) in b)
    && (forall k :: k in a ==> b[x.id(k)] == a[k])
  }

  ghost predicate Twin(x: Pairing, s: Ledger, t: Ledger) {
    && t.admin == s.admin && t.custodians == s.custodians && t.counter == s.counter
    && t.all == PairIds(x, s.all)
    && MetaTwins(x, s.meta, t.meta) && OwnerTwins(x, s.owner, t.owner)
  }

  // ----- One call ----------------------------------------------------------------

  lemma MetaSetTwins(x: Pairing, a: map<Bytes, Metadata>, b: map<Bytes, Metadata>, id: Bytes, m: Metadata)
    requires Injective(x) && MetaTwins(x, a, b)
    ensures MetaTwins(x, a[id := m], b[x.id(id) := PairMeta(x, m)])
  {
  }

  lemma OwnerSetTwins(x: Pairing, a: map<Bytes, Address>, b: map<Bytes, Address>, id: Bytes, owner: Address)
    requires Injective(x) && OwnerTwins(x, a, b)
    ensures OwnerTwins(x, a[id := owner], b[x.id(id) := owner])
  {
  }

  lemma MetaDropTwins(x: Pairing, a: map<Bytes, Metadata>, b: map<Bytes, Metadata>, id: Bytes)
    requires Injective(x) && MetaTwins(x, a, b)
    ensures MetaTwins(x, a - {id}, b - {x.id(id)})
  {
  }

  lemma OwnerDropTwins(x: Pairing, a: map<Bytes, Address>, b: map<Bytes, Address>, id: Bytes)
    requires Injective(x) && OwnerTwins(x, a, b)
    ensures OwnerTwins(x, a - {id}, b - {x.id(id)})
  {
  }

  lemma AddTwins(x: Pairing, s: Ledger, t: Ledger, m: Metadata, owner: Address, n: u64)
    requires Injective(x) && Twin(x, s, t)
    ensures Twin(x, AddToken(s, m, owner, n), AddToken(t, PairMeta(x, m), owner, n))
  {
    MetaSetTwins(x, s.meta, t.meta, m.tokenId, m);
    OwnerSetTwins(x, s.owner, t.owner, m.tokenId, owner);
    hide MetaTwins, OwnerTwins, Injective;
    assert PairIds(x, s.all + [m.tokenId]) == PairIds(x, s.all) + [x.id(m.tokenId)];
  }

  lemma RemoveTwins(x: Pairing, s: Ledger, t: Ledger, id: Bytes)
    requires Injective(x) && Twin(x, s, t)
    ensures Twin(x, RemoveToken(s, id), RemoveToken(t, x.id(id)))
  {
    MetaDropTwins(x, s.meta, t.meta, id);
    OwnerDropTwins(x, s.owner, t.owner, id);
    hide MetaTwins, OwnerTwins, Injective;
  }

  lemma IssueTwins(p: Product, q: Product, x: Pairing, env: Env, n: nat)
    requires Pairs(p, q, x)
    ensures CanIssue(q, env, n) <==> CanIssue(p, env, n)
    ensures CanIssue(p, env, n) ==> IssuedId(q, env, n) == x.id(IssuedId(p, env, n))
  {
  }

  lemma PairFew(x: Pairing, a: Bytes, b: Bytes)
    ensures PairIds(x, []) == [] && PairIds(x, [a]) == [x.id(a)] && PairIds(x, [a, b]) == [x.id(a), x.id(b)]
  {
  }

  lemma MintCheckTwins(p: Product, q: Product, x: Pairing, env: Env, s: Ledger, t: Ledger, c: Call)
    requires Pairs(p, q, x) && Twin(x, s, t) && c.Mint?
    ensures MintCheck(q, env, t, PairCall(x, c)) == PairOutcome(x, MintCheck(p, env, s, c))
  {
    hide MetaTwins, OwnerTwins, Injective;
    IssueTwins(p, q, x, env, s.counter + 1);
    if MintCheck(p, env, s, c).Ok? {
      PairFew(x, IssuedId(p, env, s.counter + 1), []);
    }
  }

  // What a call can see of a token, and of the rest of the ledger.
  ghost predicate SameView(x: Pairing, s: Ledger, t: Ledger, id: Bytes) {
    && t.admin == s.admin && t.custodians == s.custodians && t.counter == s.counter
    && (id in s.meta <==> x.id(id) in t.meta) && (id in s.owner <==> x.id(id) in t.owner)
    && (id in s.meta ==> t.meta[x.id(id)] == PairMeta(x, s.meta[id]))
    && (id in s.owner ==> t.owner[x.id(id)] == s.owner[id])
  }

  lemma TwinView(x: Pairing, s: Ledger, t: Ledger, id: Bytes)
    requires Twin(x, s, t)
    ensures SameView(x, s, t, id)
  {
  }

  lemma SplitCheckView(p: Product, q: Product, x: Pairing, env: Env, s: Ledger, t: Ledger, id: Bytes, amount: u32)
    requires SameView(x, s, t, id)
    requires forall n: nat :: CanIssue(q, env, n) <==> CanIssue(p, env, n)
    ensures var u, v := SplitCheck(p, env, s, Split(id, amount)), SplitCheck(q, env, t, Split(x.id(id), amount));
            (v.Ok? <==> u.Ok?) && (!u.Ok? ==> v == u)
  {
  }

  lemma SplitCheckTwins(p: Product, q: Product, x: Pairing, env: Env, s: Ledger, t: Ledger, c: Call)
    requires Pairs(p, q, x) && Twin(x, s, t) && c.Split?
    ensures SplitCheck(q, env, t, PairCall(x, c)) == PairOutcome(x, SplitCheck(p, env, s, c))
  {
    hide Pairs, MetaTwins, OwnerTwins, PairIds;
    TwinView(x, s, t, c.tokenId);
    forall n: nat
      ensures CanIssue(q, env, n) <==> CanIssue(p, env, n)
    {
      IssueTwins(p, q, x, env, n);
    }
    SplitCheckView(p, q, x, env, s, t, c.tokenId, c.amountKg);
    if SplitCheck(p, env, s, c).Ok? {
      IssueTwins(p, q, x, env, s.counter + 1);
      IssueTwins(p, q, x, env, s.counter + 2);
      PairFew(x, IssuedId(p, env, s.counter + 1), IssuedId(p, env, s.counter + 2));
    }
  }

  lemma TokenCheckTwins(x: Pairing, env: Env, s: Ledger, t: Ledger, c: Call)
    requires (c.Transfer? || c.Burn?) && SameView(x, s, t, c.tokenId)
    ensures c.Transfer? ==> TransferCheck(env, t, PairCall(x, c)) == TransferCheck(env, s, c)
    ensures c.Burn? ==> BurnCheck(env, t, PairCall(x, c)) == BurnCheck(env, s, c)
  {
  }

  lemma LockCheckTwins(x: Pairing, env: Env, s: Ledger, t: Ledger, admin: Address, id: Bytes, lock: bool)
    requires SameView(x, s, t, id)
    ensures LockCheck(env, t, admin, x.id(id), lock) == LockCheck(env, s, admin, id, lock)
  {
  }

  lemma OtherCheckTwins(p: Product, q: Product, x: Pairing, env: Env, s: Ledger, t: Ledger, c: Call)
    requires Twin(x, s, t) && !c.Mint? && !c.Split?
    ensures Check(q, env, t, PairCall(x, c)) == Check(p, env, s, c)
  {
    hide MetaTwins, OwnerTwins, PairIds, TransferCheck, BurnCheck, LockCheck, MintCheck, SplitCheck, SameView;
    match c {
      case Transfer(id, _, _) => TwinView(x, s, t, id); TokenCheckTwins(x, env, s, t, c);
      case Burn(_, id) => TwinView(x, s, t, id); TokenCheckTwins(x, env, s, t, c);
      case Lock(admin, id) => TwinView(x, s, t, id); LockCheckTwins(x, env, s, t, admin, id, true);
      case Unlock(admin, id) => TwinView(x, s, t, id); LockCheckTwins(x, env, s, t, admin, id, false);
      case _ =>
    }
  }

  lemma NothingIssued(p: Product, x: Pairing, env: Env, s: Ledger, c: Call)
    requires !c.Mint? && !c.Split?
    ensures PairOutcome(x, Check(p, env, s, c)) == Check(p, env, s, c)
  {
  }

  lemma CheckTwins(p: Product, q: Product, x: Pairing, env: Env, s: Ledger, t: Ledger, c: Call)
    requires Pairs(p, q, x) && Twin(x, s, t)
    ensures Check(q, env, t, PairCall(x, c)) == PairOutcome(x, Check(p, env, s, c))
  {
    hide Pairs, Twin;
    match c {
      case Mint(_, _, _, _, _, _, _) => MintCheckTwins(p, q, x, env, s, t, c);
      case Split(_, _) => SplitCheckTwins(p, q, x, env, s, t, c);
      case _ =>
        OtherCheckTwins(p, q, x, env, s, t, c);
        NothingIssued(p, x, env, s, c);
    }
  }

  lemma DepositTwins(p: Product, q: Product, x: Pairing, env: Env, s: Ledger, t: Ledger, c: Call)
    requires Pairs(p, q, x) && Twin(x, s, t) && c.Mint?
    requires MintCheck(p, env, s, c).Ok? && MintCheck(q, env, t, PairCall(x, c)).Ok?
    ensures Deposit(q, env, t, PairCall(x, c)) == PairMeta(x, Deposit(p, env, s, c))
  {
    hide Pairs, MetaTwins, OwnerTwins;
    IssueTwins(p, q, x, env, s.counter + 1);
  }

  lemma ChildrenTwins(p: Product, q: Product, x: Pairing, env: Env, s: Ledger, t: Ledger, c: Call)
    requires Pairs(p, q, x) && Twin(x, s, t) && c.Split?
    requires SplitCheck(p, env, s, c).Ok? && SplitCheck(q, env, t, PairCall(x, c)).Ok?
    ensures ChildA(q, env, t, PairCall(x, c)) == PairMeta(x, ChildA(p, env, s, c))
    ensures ChildB(q, env, t, PairCall(x, c)) == PairMeta(x, ChildB(p, env, s, c))
  {
    hide SplitCheck, CanIssue, IssuedId, ChildToken, PairMeta, Pairs, MetaTwins, OwnerTwins;
    SplitOk(p, env, s, c);
    SplitOk(q, env, t, PairCall(x, c));
    var n, m, amount := s.counter, s.meta[c.tokenId], c.amountKg;
    TwinView(x, s, t, c.tokenId);
    IssueTwins(p, q, x, env, n + 1);
    IssueTwins(p, q, x, env, n + 2);
    ChildTokenTwins(x, m, IssuedId(p, env, n + 1), amount);
    ChildTokenTwins(x, m, IssuedId(p, env, n + 2), m.totalWeightKg - amount);
  }

  lemma ChildTokenTwins(x: Pairing, m: Metadata, id: Bytes, weight: u32)
    ensures PairMeta(x, ChildToken(m, id, weight)) == ChildToken(PairMeta(x, m), x.id(id), weight)
    ensures PairMeta(x, m).totalWeightKg == m.totalWeightKg
  {
  }

  lemma AddTwoTwins(x: Pairing, s: Ledger, t: Ledger, a: Metadata, b: Metadata, owner: Address, n: u64)
    requires Injective(x) && Twin(x, s, t) && n + 1 < TWO_TO_THE_64
    ensures Twin(x, AddToken(AddToken(s, a, owner, n), b, owner, n + 1),
                 AddToken(AddToken(t, PairMeta(x, a), owner, n), PairMeta(x, b), owner, n + 1))
  {
    hide Twin, Injective, PairMeta, AddToken;
    AddTwins(x, s, t, a, owner, n);
    var s1, t1 := AddToken(s, a, owner, n), AddToken(t, PairMeta(x, a), owner, n);
    AddTwins(x, s1, t1, b, owner, n + 1);
  }

  lemma ReplaceTwins(x: Pairing, s: Ledger, t: Ledger, id: Bytes, a: Metadata, b: Metadata)
    requires Injective(x) && Twin(x, s, t) && id in s.owner && s.counter + 2 < TWO_TO_THE_64
    ensures x.id(id) in t.owner && t.counter == s.counter
    ensures Twin(x, Replace(s, id, a, b), Replace(t, x.id(id), PairMeta(x, a), PairMeta(x, b)))
  {
    hide Twin, Injective, PairMeta, AddToken, RemoveToken;
    TwinView(x, s, t, id);
    RemoveTwins(x, s, t, id);
    var s1, t1 := RemoveToken(s, id), RemoveToken(t, x.id(id));
    AddTwoTwins(x, s1, t1, a, b, s.owner[id], s.counter + 1);
  }

  lemma LockTwins(x: Pairing, s: Ledger, t: Ledger, id: Bytes, lock: bool)
    requires Injective(x) && Twin(x, s, t) && id in s.meta
    ensures x.id(id) in t.meta && Twin(x, SetLock(s, id, lock), SetLock(t, x.id(id), lock))
  {
    TwinView(x, s, t, id);
    MetaSetTwins(x, s.meta, t.meta, id, s.meta[id].(isLocked := lock));
    hide MetaTwins, OwnerTwins, Injective;
  }

  lemma TransferTwins(x: Pairing, s: Ledger, t: Ledger, id: Bytes, to: Address)
    requires Injective(x) && Twin(x, s, t)
    ensures Twin(x, s.(owner := s.owner[id := to]), t.(owner := t.owner[x.id(id) := to]))
  {
    OwnerSetTwins(x, s.owner, t.owner, id, to);
    hide MetaTwins, OwnerTwins, Injective;
  }

  lemma MintEffectTwins(p: Product, q: Product, x: Pairing, env: Env, s: Ledger, t: Ledger, c: Call)
    requires Pairs(p, q, x) && Twin(x, s, t) && c.Mint? && Check(p, env, s, c).Ok?
    requires Check(q, env, t, PairCall(x, c)).Ok?
    ensures Twin(x, Effect(p, env, s, c), Effect(q, env, t, PairCall(x, c)))
  {
    DepositTwins(p, q, x, env, s, t, c);
    var m := Deposit(p, env, s, c);
    AddTwins(x, s, t, m, c.farmer, s.counter + 1);
    hide Pairs, MetaTwins, OwnerTwins;
  }

  lemma SplitEffectTwins(p: Product, q: Product, x: Pairing, env: Env, s: Ledger, t: Ledger, c: Call)
    requires Pairs(p, q, x) && Twin(x, s, t) && c.Split? && Check(p, env, s, c).Ok?
    requires Check(q, env, t, PairCall(x, c)).Ok?
    ensures Twin(x, Effect(p, env, s, c), Effect(q, env, t, PairCall(x, c)))
  {
    hide Pairs, Twin, AddToken, RemoveToken, ChildA, ChildB;
    ChildrenTwins(p, q, x, env, s, t, c);
    SplitOk(p, env, s, c);
    var a, b := ChildA(p, env, s, c), ChildB(p, env, s, c);
    PairsInjective(p, q, x);
    ReplaceTwins(x, s, t, c.tokenId, a, b);
  }

  lemma PairsInjective(p: Product, q: Product, x: Pairing)
    requires Pairs(p, q, x)
    ensures Injective(x)
  {
  }

  lemma EffectTwins(p: Product, q: Product, x: Pairing, env: Env, s: Ledger, t: Ledger, c: Call)
    requires Pairs(p, q, x) && Twin(x, s, t) && Check(p, env, s, c).Ok?
    requires Check(q, env, t, PairCall(x, c)).Ok?
    ensures Twin(x, Effect(p, env, s, c), Effect(q, env, t, PairCall(x, c)))
  {
    hide Pairs, MetaTwins, OwnerTwins, Injective, PairIds, AddToken, RemoveToken, SetLock, Replace;
    PairsInjective(p, q, x);
    match c {
      case Mint(_, _, _, _, _, _, _) => MintEffectTwins(p, q, x, env, s, t, c);
      case Split(_, _) => SplitEffectTwins(p, q, x, env, s, t, c);
      case Burn(_, id) => RemoveTwins(x, s, t, id);
      case Transfer(id, _, to) => TransferTwins(x, s, t, id, to);
      case Lock(_, id) => LockTwins(x, s, t, id, true);
      case Unlock(_, id) => LockTwins(x, s, t, id, false);
      case _ =>
    }
  }

  lemma RefusalTwins(p: Product, q: Product, x: Pairing, env: Env, s: Ledger, t: Ledger, c: Call)
    requires Pairs(p, q, x) && Twin(x, s, t)
    ensures RefusedForOverflow(q, env, t, PairCall(x, c)) <==> RefusedForOverflow(p, env, s, c)
    ensures SplitWithoutOwner(q, env, t, PairCall(x, c)) <==> SplitWithoutOwner(p, env, s, c)
  {
    if c.Mint? {
      MintCheckTwins(p, q, x, env, s, t, c);
    } else if c.Split? {
      SplitCheckTwins(p, q, x, env, s, t, c);
      TwinView(x, s, t, c.tokenId);
    }
    hide Pairs, Twin, MintCheck, SplitCheck;
  }

  // One call on each side: the same result, and ledgers that still match.
  lemma StepTwins(host: Host, p: Product, q: Product, x: Pairing, env: Env, s: Ledger, t: Ledger, c: Call)
    requires Pairs(p, q, x) && Twin(x, s, t)
    ensures Check(q, env, t, PairCall(x, c)) == PairOutcome(x, Check(p, env, s, c))
    ensures Twin(x, Step(host, p, env, s, c), Step(host, q, env, t, PairCall(x, c)))
  {
    hide Pairs, MetaTwins, OwnerTwins, Check, PairCall, RefusedForOverflow, SplitWithoutOwner, Effect;
    CheckTwins(p, q, x, env, s, t, c);
    RefusalTwins(p, q, x, env, s, t, c);
    if Check(p, env, s, c).Ok? {
      EffectTwins(p, q, x, env, s, t, c);
    }
  }

  // ----- Runs ----------------------------------------------------------------------

  function PairRun(x: Pairing, run: seq<Invocation>): (r: seq<Invocation>)
    ensures |r| == |run|
  {
    seq(|run|, i requires 0 <= i < |run| => Invocation(run[i].env, PairCall(x, run[i].call)))
  }

  function PairOutcomes(x: Pairing, os: seq<Outcome>): (r: seq<Outcome>)
    ensures |r| == |os|
  {
    seq(|os|, i requires 0 <= i < |os| => PairOutcome(x, os[i]))
  }

  lemma {:induction false} ReplayTwins(host: Host, p: Product, q: Product, x: Pairing, s: Ledger, t: Ledger,
                                       run: seq<Invocation>)
    requires Pairs(p, q, x) && Twin(x, s, t)
    ensures var u, v := Replay(host, p, s, run), Replay(host, q, t, PairRun(x, run));
            Twin(x, u.0, v.0) && v.1 == PairOutcomes(x, u.1)
    decreases |run|
  {
    hide Pairs, Twin, Check, Step, PairCall, PairOutcome;
    if run != [] {
      var i := run[0];
      StepTwins(host, p, q, x, i.env, s, t, i.call);
      var s', t' := Step(host, p, i.env, s, i.call), Step(host, q, i.env, t, PairCall(x, i.call));
      ReplayTwins(host, p, q, x, s', t', run[1..]);
      assert PairRun(x, run)[1..] == PairRun(x, run[1..]);
      var u := Replay(host, p, s', run[1..]);
      assert PairOutcomes(x, [Check(p, i.env, s, i.call)] + u.1) ==
             [PairOutcome(x, Check(p, i.env, s, i.call))] + PairOutcomes(x, u.1);
    }
  }

  // ----- Maize and sesame -------------------------------------------------------------

  // K and S change places at the head of an id; any other string stays.
  function SwapLetter(id: Bytes): Bytes {
    if id == [] then id
    else if id[0] == LETTER_K then id[0 := LETTER_S]
    else if id[0] == LETTER_S then id[0 := LETTER_K]
    else id
  }

  const TO_SESAME := Pairing(
    (id: Bytes) => SwapLetter(id), (id: Bytes) => SwapLetter(id),
    (c: string) => if c in MAIZE.commodities then "SESAME" else if c == "SESAME" then "MAIZE_WHITE" else c)

  const TO_MAIZE := Pairing(
    (id: Bytes) => SwapLetter(id), (id: Bytes) => SwapLetter(id),
    (c: string) => if c == "SESAME" then "MAIZE_WHITE" else if c in MAIZE.commodities then "SESAME" else c)

  lemma SwapTwice(id: Bytes)
    ensures SwapLetter(SwapLetter(id)) == id
  {
  }

  // Matching ledgers hold nothing else: every entry of one side has its twin.
  lemma TwinsHoldTheSame(s: Ledger, t: Ledger)
    requires Twin(TO_SESAME, s, t)
    ensures t.meta.Keys == set k | k in s.meta :: SwapLetter(k)
    ensures t.owner.Keys == set k | k in s.owner :: SwapLetter(k)
  {
    forall j: Bytes
      ensures (j in t.meta <==> SwapLetter(j) in s.meta) && (j in t.owner <==> SwapLetter(j) in s.owner)
    {
      SwapTwice(j);
      TwinView(TO_SESAME, s, t, SwapLetter(j));
    }
    forall j: Bytes
      ensures SwapLetter(SwapLetter(j)) == j
    {
      SwapTwice(j);
    }
    hide SwapLetter, Twin;
  }

  lemma IssueSwapped(t: u64, n: u64)
    ensures IssueWith(LETTER_S)(t, n) == PairId(TO_SESAME, IssueWith(LETTER_K)(t, n))
    ensures IssueWith(LETTER_K)(t, n) == PairId(TO_MAIZE, IssueWith(LETTER_S)(t, n))
  {
    TokenIdSwapped(Calendar.YearFromTimestamp(t), n);
    hide TokenId, IdFits, SwapLetter, Calendar.YearFromTimestamp;
  }

  lemma TokenIdSwapped(year: nat, counter: nat)
    ensures SwapLetter(TokenId(LETTER_K, year, counter)) == TokenId(LETTER_S, year, counter)
    ensures SwapLetter(TokenId(LETTER_S, year, counter)) == TokenId(LETTER_K, year, counter)
  {
    hide Padded, SwapLetter;
    var y, c := Padded(year, 4), Padded(counter, 6);
    var rest := [LETTER_N, DASH] + y + [DASH] + c;
    assert TokenId(LETTER_K, year, counter) == [LETTER_K] + rest;
    assert TokenId(LETTER_S, year, counter) == [LETTER_S] + rest;
    HeadSwapped(rest);
  }

  lemma HeadSwapped(rest: Bytes)
    ensures SwapLetter([LETTER_K] + rest) == [LETTER_S] + rest
    ensures SwapLetter([LETTER_S] + rest) == [LETTER_K] + rest
  {
  }

  lemma MaizePairsWithSesame()
    ensures Pairs(MAIZE, SESAME, TO_SESAME) && Pairs(SESAME, MAIZE, TO_MAIZE)
  {
    forall id: Bytes
      ensures SwapLetter(SwapLetter(id)) == id
    {
      SwapTwice(id);
    }
    forall t: u64, n: u64
      ensures SESAME.issue(t, n) == PairId(TO_SESAME, MAIZE.issue(t, n))
      ensures MAIZE.issue(t, n) == PairId(TO_MAIZE, SESAME.issue(t, n))
    {
      IssueSwapped(t, n);
    }
    hide IssueWith, PairId, SwapLetter;
  }

  // Whatever one contract does from its creation, the other does to the paired
  // run: the same Ok and error codes in the same order, and matching ledgers.
  lemma ContractsAgree(host: Host, run: seq<Invocation>)
    ensures var m, s := Replay(host, MAIZE, EMPTY_LEDGER, run),
                        Replay(host, SESAME, EMPTY_LEDGER, PairRun(TO_SESAME, run));
            Twin(TO_SESAME, m.0, s.0) && s.1 == PairOutcomes(TO_SESAME, m.1)
    ensures var s, m := Replay(host, SESAME, EMPTY_LEDGER, run),
                        Replay(host, MAIZE, EMPTY_LEDGER, PairRun(TO_MAIZE, run));
            Twin(TO_MAIZE, s.0, m.0) && m.1 == PairOutcomes(TO_MAIZE, s.1)
  {
    MaizePairsWithSesame();
    assert Twin(TO_SESAME, EMPTY_LEDGER, EMPTY_LEDGER) && Twin(TO_MAIZE, EMPTY_LEDGER, EMPTY_LEDGER);
    hide Pairs, Twin;
    ReplayTwins(host, MAIZE, SESAME, TO_SESAME, EMPTY_LEDGER, EMPTY_LEDGER, run);
    ReplayTwins(host, SESAME, MAIZE, TO_MAIZE, EMPTY_LEDGER, EMPTY_LEDGER, run);
  }
}
