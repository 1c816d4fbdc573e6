/** Whose signature a change needs, and what a wallet that signs nothing can lose. */
module Authority {
  import opened TokenIds
  import opened ReceiptSpec
  import opened Worlds
  import opened Invariants
  import opened History
  import opened Lifecycle
  import opened Flows

  // ----- One receipt ------------------------------------------------------------------

  // The call names the receipt and asks for more than the owner it has already.
  predicate Targets(st: Ledger, c: Call, id: Bytes) {
    match c
    case Transfer(tokenId, from, to) => tokenId == id && from != to
    case Burn(_, tokenId) => tokenId == id
    case Lock(_, tokenId) => tokenId == id
    case Unlock(_, tokenId) => tokenId == id
    case Split(tokenId, _) => tokenId == id
    case _ => false
  }

  // Who has signed: the owner, the custodian named in the receipt, or the
  // administrator; for a split it need not be anybody.
  predicate SignedFor(env: Env, st: Ledger, c: Call, id: Bytes)
    requires id in st.meta && id in st.owner
  {
    match c
    case Transfer(_, _, _) => st.owner[id] in env.auths
    case Burn(_, _) => st.meta[id].custodian in env.auths
    case Lock(_, _) => st.admin.Some? && st.admin.value in env.auths
    case Unlock(_, _) => st.admin.Some? && st.admin.value in env.auths
    case Split(_, _) => true
    case _ => false
  }

  lemma EffectTargets(p: Product, env: Env, st: Ledger, c: Call, id: Bytes)
    requires Inv(p, st) && id in st.meta && id in st.owner && Check(p, env, st, c).Ok?
    ensures !Untouched(st, Effect(p, env, st, c), id) <==> Targets(st, c, id)
    ensures Targets(st, c, id) ==> SignedFor(env, st, c, id)
  {
    match c {
      case Mint(_, _, _, _, _, _, _) => LockedSurvivesMint(p, env, st, c, id);
      case Split(_, _) =>
        if c.tokenId == id {
          SplitReplaces(p, env, st, c);
        } else {
          LockedSurvivesSplit(p, env, st, c, id);
        }
      case _ =>
    }
  }

  lemma SplitReplaces(p: Product, env: Env, st: Ledger, c: Call)
    requires Inv(p, st) && c.Split? && SplitCheck(p, env, st, c).Ok?
    ensures c.tokenId !in Effect(p, env, st, c).meta
  {
    SplitIdsNew(p, env, st, c);
    hide Inv, ChildA, ChildB, SplitCheck;
  }

  // With or without rollback: a live receipt changes exactly when a call that
  // targets it goes through, and such a call has been signed for.
  lemma ChangeNeedsSignature(host: Host, p: Product, env: Env, st: Ledger, c: Call, id: Bytes)
    requires Inv(p, st) && id in st.meta
    ensures id in st.owner
    ensures !Untouched(st, Step(host, p, env, st, c), id) <==> Check(p, env, st, c).Ok? && Targets(st, c, id)
    ensures !Untouched(st, Step(host, p, env, st, c), id) ==> SignedFor(env, st, c, id)
  {
    assert id in st.owner.Keys;
    if Check(p, env, st, c).Ok? {
      hide Inv, Check, Effect, Targets, SignedFor, Untouched;
      EffectTargets(p, env, st, c, id);
    }
  }

  // ----- The administrator ------------------------------------------------------------

  predicate AdminSigned(env: Env, st: Ledger) {
    st.admin.Some? && st.admin.value in env.auths
  }

  // The registry of custodians and the lock of a receipt change only under the
  // administrator's signature.
  lemma GovernanceNeedsAdmin(host: Host, p: Product, env: Env, st: Ledger, c: Call, id: Bytes)
    requires Inv(p, st)
    ensures var st' := Step(host, p, env, st, c);
            && (st'.custodians != st.custodians ==> AdminSigned(env, st))
            && (id in st.meta && id in st'.meta && st'.meta[id].isLocked != st.meta[id].isLocked ==>
                  AdminSigned(env, st))
  {
    if id in st.meta {
      ChangeNeedsSignature(host, p, env, st, c, id);
      if c.Split? && c.tokenId == id && Check(p, env, st, c).Ok? {
        SplitReplaces(p, env, st, c);
      }
    }
  }

  // In a run the administrator signs nothing of, the registry stays as it is, and so
  // does the lock of every receipt that stays live.
  lemma {:induction false} AdminAloneGoverns(host: Host, p: Product, w: World, run: seq<Invocation>, id: Bytes)
    requires WorldInv(p, w) && w.ledger.admin.Some?
    requires forall i :: i in run ==> w.ledger.admin.value !in i.env.auths
    ensures var st, st' := w.ledger, RunFrom(host, p, w, run).ledger;
            && st'.admin == st.admin && st'.custodians == st.custodians
            && (id in st.meta && id in st'.meta ==> st'.meta[id].isLocked == st.meta[id].isLocked)
    decreases |run|
  {
    hide Inv, Advance, Step, WorldInv, Extends;
    if run != [] {
      var w1 := Advance(host, p, w, run[0]);
      assert Inv(p, w.ledger) by { InvOfWorld(p, w); }
      AdvanceKeepsInv(host, p, w, run[0]);
      AdvanceFollowsStep(host, p, w, run[0]);
      StepKeepsAdmin(host, p, run[0].env, w.ledger, run[0].call);
      GovernanceNeedsAdmin(host, p, run[0].env, w.ledger, run[0].call, id);
      assert run[0] in run && forall i :: i in run[1..] ==> i in run;
      AdminAloneGoverns(host, p, w1, run[1..], id);
      if id in w.ledger.meta && id !in w1.ledger.meta {
        AdvanceExtends(host, p, w, run[0]);
        RunFromKeepsInv(host, p, w1, run[1..]);
        RunFromExtends(host, p, w1, run[1..]);
        LiveWasIssued(p, w, w1, id);
        DeadStays(p, w1, RunFrom(host, p, w1, run[1..]), id);
      }
    }
  }

  lemma InvOfWorld(p: Product, w: World)
    requires WorldInv(p, w)
    ensures Inv(p, w.ledger)
  {
  }

  lemma LiveWasIssued(p: Product, w: World, w1: World, id: Bytes)
    requires WorldInv(p, w) && Extends(w, w1) && id in w.ledger.meta
    ensures id in w1.records
  {
    assert id in w.ledger.meta.Keys;
  }

  // Who signs a split makes no difference to it, nor that nobody does.
  lemma SplitAsksNobody(host: Host, p: Product, env: Env, st: Ledger, c: Call)
    requires c.Split?
    ensures var nobody := Env({}, env.timestamp);
            && Check(p, nobody, st, c) == Check(p, env, st, c)
            && Step(host, p, nobody, st, c) == Step(host, p, env, st, c)
  {
  }

  // ----- One wallet -------------------------------------------------------------------

  // Weight a wallet received by mint and transfer, sent, and had burned.
  datatype Turnover = Turnover(received: nat, sent: nat, burned: nat)

  ghost function StepTurnover(p: Product, env: Env, st: Ledger, c: Call, wallet: Address): Turnover
    requires Inv(p, st)
  {
    if !Check(p, env, st, c).Ok? then Turnover(0, 0, 0)
    else match c
      case Mint(_, farmer, _, _, _, _, _) =>
        Turnover(if farmer == wallet then Deposit(p, env, st, c).totalWeightKg else 0, 0, 0)
      case Burn(_, id) => Turnover(0, 0, if st.owner[id] == wallet then st.meta[id].totalWeightKg else 0)
      case Transfer(id, from, to) =>
        Turnover(if to == wallet then st.meta[id].totalWeightKg else 0,
                 if from == wallet then st.meta[id].totalWeightKg else 0, 0)
      case _ => Turnover(0, 0, 0)
  }

  ghost function RunTurnover(host: Host, p: Product, w: World, run: seq<Invocation>, wallet: Address): Turnover
    requires WorldInv(p, w)
    decreases |run|
  {
    if run == [] then Turnover(0, 0, 0)
    else
      AdvanceKeepsInv(host, p, w, run[0]);
      var t := StepTurnover(p, run[0].env, w.ledger, run[0].call, wallet);
      var rest := RunTurnover(host, p, Advance(host, p, w, run[0]), run[1..], wallet);
      Turnover(t.received + rest.received, t.sent + rest.sent, t.burned + rest.burned)
  }

  lemma StepAccount(host: Host, p: Product, env: Env, st: Ledger, c: Call, wallet: Address)
    requires Inv(p, st)
    ensures var t := StepTurnover(p, env, st, c, wallet);
            && WalletWeight(Step(host, p, env, st, c), wallet) + t.sent + t.burned ==
               WalletWeight(st, wallet) + t.received
            && (t.sent > 0 ==> wallet in env.auths)
  {
    WalletFlow(host, p, env, st, c, wallet);
    hide WalletWeight, Step, Inv;
  }

  // Over any run a wallet gains what it receives and loses what it sends and what
  // custodians burn of it.  It sends nothing unless it signs: while it signs
  // nothing, burning alone can lower its weight.
  lemma {:induction false} WalletAccount(host: Host, p: Product, w: World, run: seq<Invocation>, wallet: Address)
    requires WorldInv(p, w)
    ensures var t := RunTurnover(host, p, w, run, wallet);
            && WalletWeight(RunFrom(host, p, w, run).ledger, wallet) + t.sent + t.burned ==
               WalletWeight(w.ledger, wallet) + t.received
            && ((forall i :: i in run ==> wallet !in i.env.auths) ==> t.sent == 0)
    decreases |run|
  {
    hide Inv, WalletWeight, StepTurnover, Advance, Step;
    if run != [] {
      AdvanceKeepsInv(host, p, w, run[0]);
      AdvanceFollowsStep(host, p, w, run[0]);
      StepAccount(host, p, run[0].env, w.ledger, run[0].call, wallet);
      WalletAccount(host, p, Advance(host, p, w, run[0]), run[1..], wallet);
      assert run[0] in run && forall i :: i in run[1..] ==> i in run;
    }
  }
}
