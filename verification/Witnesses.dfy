/** Two runs from the empty ledger in which the code departs from the token standard. */
module Witnesses {
  import opened Prelude
  import opened TokenIds
  import opened ReceiptSpec
  import opened Worlds
  import opened History
  import opened Lineage
  import Calendar

  const ADMIN := Address("admin")
  const KEEPER := Address("keeper")
  const FARMER := Address("farmer")

  // Both sign every call, at the very start of 1970.
  const SIGNED := Env({ADMIN, KEEPER}, 0)

  const INIT := Invocation(SIGNED, Init(ADMIN))
  const REGISTER := Invocation(SIGNED, AddCustodian(ADMIN, KEEPER))
  const DEPOSIT := Invocation(SIGNED, Mint(KEEPER, FARMER, "MAIZE_WHITE", "A", 100, 50, "W1"))

  function Id(n: nat): Bytes {
    TokenId(LETTER_K, 1970, n)
  }

  function HundredBags(): Metadata {
    Metadata(Id(1), "MAIZE_WHITE", "A", 100, 50, 5000, "W1", KEEPER, 0, false, None)
  }

  // The ledger with the one deposit in it.
  function Stocked(): Ledger {
    Ledger(Some(ADMIN), {KEEPER}, map[Id(1) := HundredBags()], map[Id(1) := FARMER], 1, [Id(1)])
  }

  lemma MaizeIssues(n: u64)
    ensures MAIZE.issue(0, n) == Some(Id(n))
  {
    Calendar.YearFromTimestampCorrect(0, 1970);
    NearYearsFit(1970, n);
    hide Calendar.YearFromTimestamp, IdFits, TokenId;
  }

  lemma Stocking(host: Host)
    ensures var u := Step(host, MAIZE, SIGNED, EMPTY_LEDGER, INIT.call);
            var v := Step(host, MAIZE, SIGNED, u, REGISTER.call);
            && Check(MAIZE, SIGNED, EMPTY_LEDGER, INIT.call) == Ok([])
            && Check(MAIZE, SIGNED, u, REGISTER.call) == Ok([])
            && Check(MAIZE, SIGNED, v, DEPOSIT.call) == Ok([Id(1)])
            && Step(host, MAIZE, SIGNED, v, DEPOSIT.call) == Stocked()
  {
    hide IssueWith, Id;
    MaizeIssues(1);
  }

  lemma {:induction false} ReplayStocked(host: Host, rest: seq<Invocation>)
    ensures var r, s := Replay(host, MAIZE, EMPTY_LEDGER, [INIT, REGISTER, DEPOSIT] + rest),
                        Replay(host, MAIZE, Stocked(), rest);
            r.0 == s.0 && r.1 == [Ok([]), Ok([]), Ok([Id(1)])] + s.1
  {
    hide Check, Step, Stocked, Id;
    Stocking(host);
    var u := Step(host, MAIZE, SIGNED, EMPTY_LEDGER, INIT.call);
    var v := Step(host, MAIZE, SIGNED, u, REGISTER.call);
    ReplayFirst(host, MAIZE, EMPTY_LEDGER, INIT, [REGISTER, DEPOSIT] + rest);
    ReplayFirst(host, MAIZE, u, REGISTER, [DEPOSIT] + rest);
    ReplayFirst(host, MAIZE, v, DEPOSIT, rest);
    hide Replay;
    assert [INIT, REGISTER, DEPOSIT] + rest == [INIT] + ([REGISTER, DEPOSIT] + rest);
    assert [REGISTER, DEPOSIT] + rest == [REGISTER] + ([DEPOSIT] + rest);
  }

  lemma ChildrenDiffer()
    ensures Id(2) != Id(3)
  {
    hide TokenId;
    if Id(2) == Id(3) {
      TokenIdInjective(LETTER_K, 1970, 2, LETTER_K, 1970, 3);
    }
  }

  lemma SplitAllowed(env: Env, c: Call)
    requires env.timestamp == 0 && c == Split(Id(1), 30)
    ensures SplitCheck(MAIZE, env, Stocked(), c) == Ok([Id(2), Id(3)])
    ensures ChildA(MAIZE, env, Stocked(), c) == ChildToken(HundredBags(), Id(2), 30)
    ensures ChildA(MAIZE, env, Stocked(), c).tokenId == Id(2)
    ensures ChildB(MAIZE, env, Stocked(), c).tokenId == Id(3)
  {
    hide MAIZE, Id;
    MaizeIssues(2);
    MaizeIssues(3);
  }

  lemma SplitStocked(host: Host, split: Invocation)
    requires split.env.timestamp == 0 && split.call == Split(Id(1), 30)
    ensures Check(MAIZE, split.env, Stocked(), split.call) == Ok([Id(2), Id(3)])
    ensures var st := Step(host, MAIZE, split.env, Stocked(), split.call);
            Id(2) in st.meta && st.meta[Id(2)] == ChildToken(HundredBags(), Id(2), 30)
  {
    hide MAIZE, Id, SplitCheck, ChildA, ChildB, ChildToken, HundredBags, CanIssue;
    SplitAllowed(split.env, split.call);
    ChildrenDiffer();
  }

  // A hundred bags of 50 kg, split at 30 kg by whoever likes to, nobody's signature
  // being asked for: every call goes through, and a live receipt for fifty bags of
  // 50 kg weighs 30 kg.
  lemma SplitBreaksWeightFormula(host: Host, signers: set<Address>)
    ensures var run := [INIT, REGISTER, DEPOSIT] + [Invocation(Env(signers, 0), Split(Id(1), 30))];
            var r := Replay(host, MAIZE, EMPTY_LEDGER, run);
            && r.1 == [Ok([]), Ok([]), Ok([Id(1)])] + [Ok([Id(2), Id(3)])]
            && WeightIsBagsTimesEach(HundredBags())
            && Id(2) in r.0.meta && r.0.meta[Id(2)] == ChildToken(HundredBags(), Id(2), 30)
            && !WeightIsBagsTimesEach(r.0.meta[Id(2)])
  {
    hide Id, Check, Step, Stocked, Replay;
    var split := Invocation(Env(signers, 0), Split(Id(1), 30));
    ReplayStocked(host, [split]);
    SplitStocked(host, split);
    ReplayFirst(host, MAIZE, Stocked(), split, []);
    ReplayNothing(host, MAIZE, Step(host, MAIZE, split.env, Stocked(), split.call));
    assert [split] + [] == [split];
  }

  // A custodian is removed and burns the receipt it issued before.
  lemma RemovedKeeperBurns(host: Host)
    ensures var remove := Invocation(SIGNED, RemoveCustodian(ADMIN, KEEPER));
            var burn := Invocation(SIGNED, Burn(KEEPER, Id(1)));
            var r := Replay(host, MAIZE, EMPTY_LEDGER, [INIT, REGISTER, DEPOSIT] + [remove, burn]);
            && r.1 == [Ok([]), Ok([]), Ok([Id(1)])] + [Ok([]), Ok([])]
            && r.0 == Ledger(Some(ADMIN), {}, map[], map[], 1, [Id(1)])
  {
    var remove := Invocation(SIGNED, RemoveCustodian(ADMIN, KEEPER));
    var burn := Invocation(SIGNED, Burn(KEEPER, Id(1)));
    BurnStocked(host, remove, burn);
    hide Id, Check, Step, Stocked, Replay;
    var st := Step(host, MAIZE, SIGNED, Stocked(), remove.call);
    ReplayStocked(host, [remove, burn]);
    ReplayFirst(host, MAIZE, Stocked(), remove, [burn]);
    ReplayFirst(host, MAIZE, st, burn, []);
    ReplayNothing(host, MAIZE, Step(host, MAIZE, SIGNED, st, burn.call));
    assert [remove] + [burn] == [remove, burn] && [burn] + [] == [burn];
  }

  lemma BurnStocked(host: Host, remove: Invocation, burn: Invocation)
    requires remove == Invocation(SIGNED, RemoveCustodian(ADMIN, KEEPER))
    requires burn == Invocation(SIGNED, Burn(KEEPER, Id(1)))
    ensures var st := Step(host, MAIZE, SIGNED, Stocked(), remove.call);
            && Check(MAIZE, SIGNED, Stocked(), remove.call) == Ok([])
            && Check(MAIZE, SIGNED, st, burn.call) == Ok([])
            && Step(host, MAIZE, SIGNED, st, burn.call) == Ledger(Some(ADMIN), {}, map[], map[], 1, [Id(1)])
  {
    hide IssueWith, Id;
  }
}
