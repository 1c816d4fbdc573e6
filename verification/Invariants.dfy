/**
 * The representation invariant of the receipt ledger is kept by every call, on a
 * host that rolls refused calls back and on one that does not.
 */
module Invariants {
  import opened Prelude
  import opened TokenIds
  import opened ReceiptSpec
  import opened Worlds
  import Calendar

  lemma ContractsIssueDistinctIds()
    ensures DistinctIds(MAIZE) && DistinctIds(SESAME)
  {
    forall t: u64, n: u64
      ensures MAIZE.issue(t, n).Some? ==> MAIZE.serial(MAIZE.issue(t, n).value) == n
      ensures SESAME.issue(t, n).Some? ==> SESAME.serial(SESAME.issue(t, n).value) == n
    {
      TokenIdParses(LETTER_K, Calendar.YearFromTimestamp(t), n);
      TokenIdParses(LETTER_S, Calendar.YearFromTimestamp(t), n);
    }
  }

  // What an id says, whenever there is one: the calendar year of the ledger time
  // it was made at, as far as 32 bits hold it, and its counter.  For every year
  // below 10^8 there is one, whatever the counter, and it holds the year itself.
  lemma IdNamesYearAndCounter(letter: u8, timestamp: u64, counter: u64, year: int)
    requires Calendar.YearContains(year, timestamp / 86_400)
    ensures var id := IssueWith(letter)(timestamp, counter);
            && 0 <= year
            && (id.Some? ==> ParseTokenId(id.value) == Some(IdParts(letter, year % TWO_TO_THE_32, counter)))
            && (year < 100_000_000 ==> id.Some? && ParseTokenId(id.value) == Some(IdParts(letter, year, counter)))
  {
    hide Calendar.YearFromTimestamp, Calendar.YearContains, IdFits, TokenId, ParseTokenId;
    Calendar.YearFromTimestampCorrect(timestamp, year);
    Calendar.DecomposeYear(timestamp / 86_400, year);
    if year < 100_000_000 {
      NearYearsFit(year, counter);
    }
    TokenIdParses(letter, Calendar.YearFromTimestamp(timestamp), counter);
  }

  // Whatever a contract issues reads KN- or SN-, the year of the ledger time in at
  // least four decimal places, a dash, and the counter in at least six.
  lemma IssuedIdsRead(timestamp: u64, counter: u64) returns (j: nat)
    ensures var maize, sesame := MAIZE.issue(timestamp, counter), SESAME.issue(timestamp, counter);
            && (maize.Some? <==> sesame.Some?)
            && (maize.Some? ==>
                  var id := maize.value;
                  && 3 <= j < |id| && id[..3] == [75, 78, 45] && id[j] == 45
                  && Decimal(id[3..j], Calendar.YearFromTimestamp(timestamp), 4) && Decimal(id[j + 1..], counter, 6)
                  && sesame.value == [83] + id[1..])
  {
    hide Padded, Calendar.YearFromTimestamp, IdFits, Decimal, TokenId;
    var year := Calendar.YearFromTimestamp(timestamp);
    j := IdReads(LETTER_K, year, counter);
    LettersDiffer(year, counter);
  }

  lemma LettersDiffer(year: nat, counter: nat)
    ensures TokenId(LETTER_K, year, counter)[0] == 75
    ensures TokenId(LETTER_S, year, counter) == [83] + TokenId(LETTER_K, year, counter)[1..]
  {
    hide Padded;
  }

  lemma AddKeepsInv(p: Product, st: Ledger, m: Metadata, owner: Address, t: u64, n: u64)
    requires Inv(p, st) && st.admin.Some? && 0 < m.totalWeightKg
    requires st.counter < n && p.issue(t, n) == Some(m.tokenId)
    ensures Inv(p, AddToken(st, m, owner, n))
  {
  }

  lemma RemoveKeepsInv(p: Product, st: Ledger, id: Bytes)
    requires Inv(p, st)
    ensures Inv(p, RemoveToken(st, id))
  {
  }

  lemma MassPositive(bags: nat, each: nat)
    requires bags > 0 && each > 0
    ensures bags * each > 0
  {
  }

  // What an accepted split has found.
  lemma SplitOk(p: Product, env: Env, st: Ledger, c: Call)
    requires c.Split? && SplitCheck(p, env, st, c).Ok?
    ensures CanIssue(p, env, st.counter + 1) && CanIssue(p, env, st.counter + 2)
    ensures st.counter + 2 < TWO_TO_THE_64
    ensures c.tokenId in st.meta && c.tokenId in st.owner && 0 < c.amountKg < st.meta[c.tokenId].totalWeightKg
  {
  }

  lemma MintKeepsInv(p: Product, env: Env, st: Ledger, c: Call)
    requires Inv(p, st) && c.Mint? && Check(p, env, st, c).Ok?
    ensures Inv(p, Effect(p, env, st, c))
  {
    MassPositive(c.bagCount, c.weightPerBagKg);
    AddKeepsInv(p, st, Deposit(p, env, st, c), c.farmer, env.timestamp, st.counter + 1);
  }

  lemma AddTwoKeepsInv(p: Product, st: Ledger, a: Metadata, b: Metadata, owner: Address, t: u64, n: u64)
    requires Inv(p, st) && st.admin.Some? && 0 < a.totalWeightKg && 0 < b.totalWeightKg
    requires st.counter < n && n + 1 < TWO_TO_THE_64
    requires p.issue(t, n) == Some(a.tokenId) && p.issue(t, n + 1) == Some(b.tokenId)
    ensures Inv(p, AddToken(AddToken(st, a, owner, n), b, owner, n + 1))
  {
    hide Inv;
    AddKeepsInv(p, st, a, owner, t, n);
    AddKeepsInv(p, AddToken(st, a, owner, n), b, owner, t, n + 1);
  }

  lemma SplitKeepsInv(p: Product, env: Env, st: Ledger, c: Call)
    requires Inv(p, st) && c.Split? && Check(p, env, st, c).Ok?
    ensures Inv(p, Effect(p, env, st, c))
  {
    hide Inv, SplitCheck, ChildA, ChildB, CanIssue, AddToken, SameLot;
    SplitOk(p, env, st, c);
    ChildrenFit(p, env, st, c);
    RemoveKeepsInv(p, st, c.tokenId);
    AddTwoKeepsInv(p, RemoveToken(st, c.tokenId), ChildA(p, env, st, c), ChildB(p, env, st, c), st.owner[c.tokenId],
                   env.timestamp, st.counter + 1);
  }

  // What the invariant says of a parent and its children.
  lemma ChildrenFit(p: Product, env: Env, st: Ledger, c: Call)
    requires Inv(p, st) && c.Split? && SplitCheck(p, env, st, c).Ok?
    ensures var m, a, b := st.meta[c.tokenId], ChildA(p, env, st, c), ChildB(p, env, st, c);
            && st.admin.Some? && SameLot(m, a) && SameLot(m, b)
            && p.issue(env.timestamp, st.counter + 1) == Some(a.tokenId)
            && p.issue(env.timestamp, st.counter + 2) == Some(b.tokenId)
            && a.parentTokenId == b.parentTokenId == Some(c.tokenId)
            && WellFormed(a.tokenId, Record(a, st.counter + 1)) && WellFormed(b.tokenId, Record(b, st.counter + 2))
  {
  }

  lemma EffectKeepsInv(p: Product, env: Env, st: Ledger, c: Call)
    requires Inv(p, st) && Check(p, env, st, c).Ok?
    ensures Inv(p, Effect(p, env, st, c))
  {
    match c {
      case Mint(_, _, _, _, _, _, _) => MintKeepsInv(p, env, st, c);
      case Split(_, _) => SplitKeepsInv(p, env, st, c);
      case Burn(_, id) => RemoveKeepsInv(p, st, id);
      case _ =>
    }
  }

  // Whatever a call writes keeps the invariant, so it holds with and without
  // rollback.
  lemma StepKeepsInv(host: Host, p: Product, env: Env, st: Ledger, c: Call)
    requires Inv(p, st)
    ensures Inv(p, Step(host, p, env, st, c))
  {
    if Check(p, env, st, c).Ok? {
      EffectKeepsInv(p, env, st, c);
    }
  }

  // The owner lookups that come after the metadata lookup cannot fail.
  lemma OwnerLookupsSucceed(p: Product, env: Env, st: Ledger, c: Call)
    requires Inv(p, st)
    ensures !SplitWithoutOwner(p, env, st, c)
    ensures c.Transfer? && Check(p, env, st, c) == Err(TokenNotFound) ==> c.tokenId !in st.meta
  {
  }

  // The ids a split issues are new: they differ from the parent's, so removing
  // the parent after writing the children removes neither of them.
  lemma SplitIdsNew(p: Product, env: Env, st: Ledger, c: Call)
    requires Inv(p, st) && c.Split? && SplitCheck(p, env, st, c).Ok?
    ensures var a, b := ChildA(p, env, st, c).tokenId, ChildB(p, env, st, c).tokenId;
            && a !in st.all && b !in st.all && a != b && c.tokenId in st.all && NoDuplicates(st.all)
  {
  }

  lemma RemovalMissesChildren<V>(m: map<Bytes, V>, id: Bytes, a: Bytes, va: V, b: Bytes, vb: V)
    requires id != a && id != b
    ensures m[a := va][b := vb] - {id} == (m - {id})[a := va][b := vb]
  {
  }

  // The writes of a split that follow the two counter bumps, in the order of the
  // source: children, parent, list.
  function SplitWrites(st: Ledger, id: Bytes, a: Metadata, b: Metadata): Ledger
    requires id in st.owner
  {
    st.(meta := st.meta[a.tokenId := a][b.tokenId := b] - {id},
        owner := st.owner[a.tokenId := st.owner[id]][b.tokenId := st.owner[id]] - {id},
        all := st.all + [a.tokenId] + [b.tokenId])
  }

  lemma SplitOrderIsHarmless(p: Product, env: Env, st: Ledger, c: Call, a: Metadata, b: Metadata)
    requires Inv(p, st) && c.Split? && SplitCheck(p, env, st, c).Ok?
    requires a == ChildA(p, env, st, c) && b == ChildB(p, env, st, c)
    ensures SplitWrites(st.(counter := st.counter + 2), c.tokenId, a, b) == Written(p, env, st, c)
  {
    SplitIdsNew(p, env, st, c);
    hide Inv, ChildA, ChildB, SplitCheck;
    RemovalMissesChildren(st.meta, c.tokenId, a.tokenId, a, b.tokenId, b);
    RemovalMissesChildren(st.owner, c.tokenId, a.tokenId, st.owner[c.tokenId], b.tokenId, st.owner[c.tokenId]);
  }

  lemma RefusedSplitWrites(p: Product, env: Env, st: Ledger, c: Call)
    requires c.Split? && !SplitCheck(p, env, st, c).Ok?
    ensures SplitWithoutOwner(p, env, st, c) ==>
              st.counter + 2 < TWO_TO_THE_64 && Written(p, env, st, c) == st.(counter := st.counter + 2)
    ensures !SplitWithoutOwner(p, env, st, c) ==> Written(p, env, st, c) == st
  {
  }

  // What the calls have established when they write: the outcome and the storage
  // are those of an accepted split.
  lemma SplitDone(p: Product, env: Env, st: Ledger, c: Call, a: Metadata, b: Metadata)
    requires Inv(p, st) && c.Split? && c.tokenId in st.meta && c.tokenId in st.owner
    requires var m := st.meta[c.tokenId];
             && !m.isLocked && 0 < c.amountKg < m.totalWeightKg
             && a == ChildToken(m, a.tokenId, c.amountKg)
             && b == ChildToken(m, b.tokenId, m.totalWeightKg - c.amountKg)
    requires st.counter + 2 < TWO_TO_THE_64
    requires p.issue(env.timestamp, st.counter + 1) == Some(a.tokenId)
    requires p.issue(env.timestamp, st.counter + 2) == Some(b.tokenId)
    ensures Check(p, env, st, c) == Ok([a.tokenId, b.tokenId])
    ensures SplitWrites(st.(counter := st.counter + 2), c.tokenId, a, b) == Written(p, env, st, c)
  {
    hide Inv, Written, SplitWrites;
    SplitOrderIsHarmless(p, env, st, c, a, b);
  }
}
