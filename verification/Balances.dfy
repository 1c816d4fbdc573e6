/** The wallet query: a filter of the list of all ids ever issued. */
module Balances {
  import opened Prelude
  import opened TokenIds
  import opened ReceiptSpec
  import opened Worlds

  predicate Owns(st: Ledger, wallet: Address, id: Bytes) {
    id in st.owner && st.owner[id] == wallet
  }

  // The ids of a prefix of the list that the wallet owns now.
  function OwnedAmong(st: Ledger, wallet: Address, ids: seq<Bytes>): seq<Bytes> {
    if ids == [] then []
    else
      var before, id := OwnedAmong(st, wallet, ids[..|ids| - 1]), ids[|ids| - 1];
      if Owns(st, wallet, id) then before + [id] else before
  }

  function Balance(st: Ledger, wallet: Address): seq<Bytes> {
    OwnedAmong(st, wallet, st.all)
  }

  // Positions picks the entries of r out of ids from left to right.
  ghost predicate PicksInOrder(r: seq<Bytes>, ids: seq<Bytes>, positions: seq<nat>) {
    && |positions| == |r|
    && (forall i :: 0 <= i < |r| ==> positions[i] < |ids| && ids[positions[i]] == r[i])
    && (forall i, j :: 0 <= i < j < |r| ==> positions[i] < positions[j])
  }

  lemma {:induction false} OwnedAmongIs(st: Ledger, wallet: Address, ids: seq<Bytes>) returns (positions: seq<nat>)
    ensures var r := OwnedAmong(st, wallet, ids);
            && (forall id :: id in r <==> id in ids && Owns(st, wallet, id))
            && PicksInOrder(r, ids, positions)
  {
    if ids == [] {
      positions := [];
    } else {
      var last := |ids| - 1;
      positions := OwnedAmongIs(st, wallet, ids[..last]);
      assert ids == ids[..last] + [ids[last]];
      if Owns(st, wallet, ids[last]) {
        positions := positions + [last];
      }
    }
  }

  lemma PickedOnce(r: seq<Bytes>, ids: seq<Bytes>, positions: seq<nat>)
    requires PicksInOrder(r, ids, positions) && NoDuplicates(ids)
    ensures NoDuplicates(r)
  {
  }

  // Exactly the live receipts of the wallet, in order of issue and without
  // repeats, although the list still holds dead ids.
  lemma BalanceIsExact(p: Product, st: Ledger, wallet: Address) returns (positions: seq<nat>)
    requires Inv(p, st)
    ensures var r := Balance(st, wallet);
            && NoDuplicates(r) && PicksInOrder(r, st.all, positions)
            && forall id :: id in r <==> id in st.meta && Owns(st, wallet, id)
  {
    positions := OwnedAmongIs(st, wallet, st.all);
    PickedOnce(Balance(st, wallet), st.all, positions);
    assert forall id :: id in st.owner <==> id in st.owner.Keys;
  }

  // Over all wallets the balances partition the live receipts.
  lemma BalancesPartition(p: Product, st: Ledger, id: Bytes, wallet: Address)
    requires Inv(p, st)
    ensures id in Balance(st, wallet) <==> id in st.meta && id in st.owner && st.owner[id] == wallet
    ensures id in st.meta ==> id in st.owner && id in Balance(st, st.owner[id])
  {
    var positions := BalanceIsExact(p, st, wallet);
    if id in st.meta {
      assert id in st.owner.Keys;
      positions := BalanceIsExact(p, st, st.owner[id]);
    }
  }
}
