/** What one reconciliation pass achieves, and that a second one has nothing to do. */
module ReconcilePass {
  import opened Prelude
  import opened TokenRecords
  import opened Reconcile

  // ----- Lists of keys ----------------------------------------------------------

  lemma {:induction false} WithoutIs(ids: seq<string>, id: string)
    requires NoDuplicates(ids)
    ensures var r := Without(ids, id);
            && NoDuplicates(r) && (forall k :: k in r <==> k in ids && k != id)
            && |r| == |ids| - (if id in ids then 1 else 0)
  {
    if ids != [] {
      var before, last := ids[..|ids| - 1], ids[|ids| - 1];
      assert ids == before + [last];
      assert last !in before;
      WithoutIs(before, id);
      if last != id {
        LongerNoDuplicates(Without(before, id), last);
      }
    }
  }

  lemma LongerNoDuplicates(ids: seq<string>, id: string)
    requires NoDuplicates(ids) && id !in ids
    ensures NoDuplicates(ids + [id])
  {
  }

  lemma {:induction false} SizeOf(ids: seq<string>, keys: set<string>)
    requires NoDuplicates(ids) && forall k :: k in ids <==> k in keys
    ensures |ids| == |keys|
  {
    if ids == [] {
      assert keys == {};
    } else {
      var last := ids[|ids| - 1];
      var before := ids[..|ids| - 1];
      assert ids == before + [last];
      SizeOf(before, keys - {last});
    }
  }

  // ----- Every token gets its verdict ---------------------------------------------

  ghost predicate Settled(chain: Chain, before: map<string, TokenRecord>, after: map<string, TokenRecord>,
                          ids: seq<string>) {
    && (forall k :: k in after <==> k in before && (k in ids ==> Verdict(chain, k, before[k]).Some?))
    && (forall k :: k in after ==>
          after[k] == if k in ids then Verdict(chain, k, before[k]).value else before[k])
  }

  lemma NoDriftNoChange(chain: Chain, id: string, rec: TokenRecord)
    ensures Verdict(chain, id, rec).None? <==> Gone(chain, id)
    ensures Verdict(chain, id, rec) == Some(rec) <==>
              !Gone(chain, id) && !OwnerDrifted(chain, id, rec) && !ReceiptDrifted(chain, id, rec)
  {
  }

  // What drifted is what the verdict changes.
  lemma DriftIsChange(chain: Chain, id: string, rec: TokenRecord)
    ensures var v := Verdict(chain, id, rec);
            && (OwnerDrifted(chain, id, rec) <==> v.Some? && v.value.owner != rec.owner)
            && (ReceiptDrifted(chain, id, rec) <==> v.Some? && v.value.receipt != rec.receipt)
  {
    hide IsTokenNotFoundError, MapMetadataToReceipt;
  }

  lemma HandleSettles(chain: Chain, p: Progress, id: string, before: map<string, TokenRecord>, ids: seq<string>)
    requires Settled(chain, before, p.records, ids) && id !in ids
    ensures Settled(chain, before, Handle(chain, p, id).records, ids + [id])
  {
    if id in p.records {
      NoDriftNoChange(chain, id, p.records[id]);
    }
  }

  lemma {:induction false} AllSettled(chain: Chain, p: Progress, ids: seq<string>)
    requires NoDuplicates(ids)
    ensures Settled(chain, p.records, HandleAll(chain, p, ids).records, ids)
  {
    if ids != [] {
      var before := ids[..|ids| - 1];
      AllSettled(chain, p, before);
      HandleSettles(chain, HandleAll(chain, p, before), ids[|ids| - 1], p.records, before);
      assert ids == before + [ids[|ids| - 1]];
    }
  }

  // ----- Counts, keys and errors ----------------------------------------------------

  function OwnersOff(chain: Chain, records: map<string, TokenRecord>, ids: seq<string>): set<string> {
    set k | k in ids && k in records && OwnerDrifted(chain, k, records[k])
  }

  function ReceiptsOff(chain: Chain, records: map<string, TokenRecord>, ids: seq<string>): set<string> {
    set k | k in ids && k in records && ReceiptDrifted(chain, k, records[k])
  }

  function GoneOnes(chain: Chain, records: map<string, TokenRecord>, ids: seq<string>): set<string> {
    set k | k in ids && k in records && Gone(chain, k)
  }

  lemma OneMoreOwner(chain: Chain, records: map<string, TokenRecord>, ids: seq<string>, id: string)
    requires id !in ids && id in records
    ensures |OwnersOff(chain, records, ids + [id])| ==
            |OwnersOff(chain, records, ids)| + (if OwnerDrifted(chain, id, records[id]) then 1 else 0)
  {
    hide OwnerDrifted;
    var o := OwnersOff(chain, records, ids);
    assert OwnersOff(chain, records, ids + [id]) == if OwnerDrifted(chain, id, records[id]) then o + {id} else o;
  }

  lemma OneMoreReceipt(chain: Chain, records: map<string, TokenRecord>, ids: seq<string>, id: string)
    requires id !in ids && id in records
    ensures |ReceiptsOff(chain, records, ids + [id])| ==
            |ReceiptsOff(chain, records, ids)| + (if ReceiptDrifted(chain, id, records[id]) then 1 else 0)
  {
    hide ReceiptDrifted;
    var r := ReceiptsOff(chain, records, ids);
    assert ReceiptsOff(chain, records, ids + [id]) ==
           if ReceiptDrifted(chain, id, records[id]) then r + {id} else r;
  }

  lemma OneMoreGone(chain: Chain, records: map<string, TokenRecord>, ids: seq<string>, id: string)
    requires id !in ids && id in records
    ensures |GoneOnes(chain, records, ids + [id])| ==
            |GoneOnes(chain, records, ids)| + (if Gone(chain, id) then 1 else 0)
  {
    hide Gone;
    var g := GoneOnes(chain, records, ids);
    assert GoneOnes(chain, records, ids + [id]) == if Gone(chain, id) then g + {id} else g;
  }

  function AllErrors(chain: Chain, ids: seq<string>): seq<(string, string)> {
    if ids == [] then [] else AllErrors(chain, ids[..|ids| - 1]) + ErrorsOf(chain, ids[|ids| - 1])
  }

  ghost predicate Counted(chain: Chain, records: map<string, TokenRecord>, ids: seq<string>, s: Summary, n: nat) {
    && s.checked == n
    && s.ownerCorrected == |OwnersOff(chain, records, ids)|
    && s.metadataCorrected == |ReceiptsOff(chain, records, ids)|
    && s.deleted == |GoneOnes(chain, records, ids)|
    && s.errors == AllErrors(chain, ids)
  }

  lemma {:induction false} AllCounted(chain: Chain, p: Progress, ids: seq<string>)
    requires NoDuplicates(ids) && forall k :: k in ids ==> k in p.records
    requires p.summary == Summary(p.summary.checked, 0, 0, 0, [])
    ensures Counted(chain, p.records, ids, HandleAll(chain, p, ids).summary, p.summary.checked)
  {
    if ids == [] {
      assert OwnersOff(chain, p.records, []) == {} && ReceiptsOff(chain, p.records, []) == {};
      assert GoneOnes(chain, p.records, []) == {};
    } else {
      var before, id := ids[..|ids| - 1], ids[|ids| - 1];
      assert ids == before + [id] && id !in before && id in p.records;
      AllCounted(chain, p, before);
      AllSettled(chain, p, before);
      var q := HandleAll(chain, p, before);
      assert id in q.records && q.records[id] == p.records[id];
      OneMoreOwner(chain, p.records, before, id);
      OneMoreReceipt(chain, p.records, before, id);
      OneMoreGone(chain, p.records, before, id);
      HandleCounts(chain, q, id);
      hide OwnersOff, ReceiptsOff, GoneOnes, Settled, Handle, ErrorsOf, NoDuplicates;
    }
  }

  lemma HandleCounts(chain: Chain, p: Progress, id: string)
    requires id in p.records
    ensures var s, t, rec := p.summary, Handle(chain, p, id).summary, p.records[id];
            && t.checked == s.checked && t.errors == s.errors + ErrorsOf(chain, id)
            && t.ownerCorrected == s.ownerCorrected + (if OwnerDrifted(chain, id, rec) then 1 else 0)
            && t.metadataCorrected == s.metadataCorrected + (if ReceiptDrifted(chain, id, rec) then 1 else 0)
            && t.deleted == s.deleted + (if Gone(chain, id) then 1 else 0)
  {
  }

  lemma HandleKeepsConsistent(chain: Chain, p: Progress, id: string)
    requires Consistent(p.ids, p.records)
    ensures var r := Handle(chain, p, id);
            && Consistent(r.ids, r.records)
            && |r.ids| + r.summary.deleted == |p.ids| + p.summary.deleted
  {
    WithoutIs(p.ids, id);
    if id in p.records {
      NoDriftNoChange(chain, id, p.records[id]);
    }
  }

  lemma {:induction false} AllConsistent(chain: Chain, p: Progress, ids: seq<string>)
    requires Consistent(p.ids, p.records)
    ensures var r := HandleAll(chain, p, ids);
            && Consistent(r.ids, r.records)
            && |r.ids| + r.summary.deleted == |p.ids| + p.summary.deleted
  {
    if ids != [] {
      AllConsistent(chain, p, ids[..|ids| - 1]);
      HandleKeepsConsistent(chain, HandleAll(chain, p, ids[..|ids| - 1]), ids[|ids| - 1]);
    }
  }

  // The pass on a store with no other writer: every token gets its verdict,
  // whatever happens to the others; the counts are those of drifted and vanished
  // tokens; the store shrinks by the deletions.
  lemma PassMeetsSpec(chain: Chain, ids: seq<string>, records: map<string, TokenRecord>)
    requires Consistent(ids, records)
    ensures var r := Pass(chain, ids, records);
            && Consistent(r.ids, r.records)
            && (forall k :: k in r.records <==> k in records && !Gone(chain, k))
            && (forall k :: k in r.records ==> Verdict(chain, k, records[k]) == Some(r.records[k]))
            && Counted(chain, records, ids, r.summary, |records|)
            && |r.records| == |records| - r.summary.deleted
  {
    var start := Progress(ids, records, Summary(|ids|, 0, 0, 0, []), []);
    AllSettled(chain, start, ids);
    AllCounted(chain, start, ids);
    AllConsistent(chain, start, ids);
    var r := Pass(chain, ids, records);
    SizeOf(ids, records.Keys);
    SizeOf(r.ids, r.records.Keys);
    forall k | k in records
      ensures Verdict(chain, k, records[k]).None? <==> Gone(chain, k)
    {
      NoDriftNoChange(chain, k, records[k]);
    }
  }

  // The verdict in the words of its promises.  An error is reported exactly of
  // the tokens that are kept although a query about them failed.
  lemma VerdictPromises(chain: Chain, id: string, rec: TokenRecord)
    ensures var owner, token, v := chain.owner(id), chain.token(id), Verdict(chain, id, rec);
            && (owner.Failed? && IsTokenNotFoundError(owner.err) ==> v == None)
            && (owner.Failed? && !IsTokenNotFoundError(owner.err) ==> v == Some(rec))
            && (owner.Returned? ==>
                  && v.Some? && v.value.owner == owner.value
                  && v.value.tokenId == rec.tokenId && v.value.mintedAt == rec.mintedAt
                  && v.value.metadataUri == rec.metadataUri
                  && (token.Failed? ==> v.value.receipt == rec.receipt)
                  && (token.Returned? ==> v.value.receipt == MapMetadataToReceipt(chain, id, token.value)))
    ensures ErrorsOf(chain, id) ==
            if Gone(chain, id) then []
            else if chain.owner(id).Failed? then [(id, chain.owner(id).err.message)]
            else if chain.token(id).Failed? then [(id, "metadata query failed: " + chain.token(id).err.message)]
            else []
    ensures ErrorsOf(chain, id) != [] <==>
              Verdict(chain, id, rec).Some? && (chain.owner(id).Failed? || chain.token(id).Failed?)
    ensures forall e :: e in ErrorsOf(chain, id) ==> e.0 == id
  {
  }

  lemma {:induction false} ErrorIsListed(chain: Chain, ids: seq<string>, id: string, e: (string, string))
    requires id in ids && e in ErrorsOf(chain, id)
    ensures e in AllErrors(chain, ids)
  {
    if ids[|ids| - 1] != id {
      ErrorIsListed(chain, ids[..|ids| - 1], id, e);
    }
  }

  // The counts in terms of the store before and after: how many tokens have another
  // owner, how many another receipt, how many are gone.
  lemma CountsAreDifferences(chain: Chain, ids: seq<string>, records: map<string, TokenRecord>)
    requires Consistent(ids, records)
    ensures var r := Pass(chain, ids, records);
            && r.records.Keys <= records.Keys
            && r.summary.checked == |records|
            && r.summary.ownerCorrected == |set k | k in r.records && r.records[k].owner != records[k].owner|
            && r.summary.metadataCorrected == |set k | k in r.records && r.records[k].receipt != records[k].receipt|
            && r.summary.deleted == |set k | k in records && k !in r.records|
  {
    PassMeetsSpec(chain, ids, records);
    hide Pass, IsTokenNotFoundError, MapMetadataToReceipt;
    var r := Pass(chain, ids, records);
    forall k | k in records
      ensures OwnerDrifted(chain, k, records[k]) <==> k in r.records && r.records[k].owner != records[k].owner
      ensures ReceiptDrifted(chain, k, records[k]) <==> k in r.records && r.records[k].receipt != records[k].receipt
    {
      DriftIsChange(chain, k, records[k]);
      NoDriftNoChange(chain, k, records[k]);
    }
    hide Gone, OwnerDrifted, ReceiptDrifted, Verdict;
    assert OwnersOff(chain, records, ids) == set k | k in r.records && r.records[k].owner != records[k].owner;
    assert ReceiptsOff(chain, records, ids) == set k | k in r.records && r.records[k].receipt != records[k].receipt;
    assert GoneOnes(chain, records, ids) == set k | k in records && k !in r.records;
  }

  // ----- The receipts and writes of a pass --------------------------------------------

  // The receipt the job writes, field by field.
  lemma ReceiptShows(chain: Chain, ids: seq<string>, records: map<string, TokenRecord>, id: string)
    requires Consistent(ids, records) && id in records
    requires chain.owner(id).Returned? && chain.token(id).Returned?
    ensures var r, m := Pass(chain, ids, records).records, chain.token(id).value;
            && id in r && r[id].owner == chain.owner(id).value
            && var x := r[id].receipt;
               && x.id == id && x.commodity == m.commodity && x.quantity == m.totalWeightKg as real
               && x.unit == "kg" && x.gradeCode == m.grade && x.custodian == m.custodian
               && x.depositor == m.warehouseId && x.issuedAt == chain.millis(m.depositTs) && x.expiresAt == 0.0
  {
    PassMeetsSpec(chain, ids, records);
  }

  // What a pass writes for one token.
  function WriteFor(chain: Chain, id: string, rec: TokenRecord): seq<Write> {
    match Verdict(chain, id, rec)
    case None => [Write.DeleteToken(id)]
    case Some(rec') => if rec' == rec then [] else [Write.SetToken(id, rec')]
  }

  function WritesFor(chain: Chain, records: map<string, TokenRecord>, ids: seq<string>): seq<Write>
    requires forall k :: k in ids ==> k in records
  {
    if ids == [] then []
    else
      var last := ids[|ids| - 1];
      WritesFor(chain, records, ids[..|ids| - 1]) + WriteFor(chain, last, records[last])
  }

  lemma HandleWrites(chain: Chain, p: Progress, id: string)
    requires id in p.records
    ensures Handle(chain, p, id).writes == p.writes + WriteFor(chain, id, p.records[id])
  {
    NoDriftNoChange(chain, id, p.records[id]);
    hide IsTokenNotFoundError, MapMetadataToReceipt, Verdict;
  }

  lemma {:induction false} AllWritten(chain: Chain, p: Progress, ids: seq<string>)
    requires NoDuplicates(ids) && forall k :: k in ids ==> k in p.records
    ensures HandleAll(chain, p, ids).writes == p.writes + WritesFor(chain, p.records, ids)
  {
    if ids != [] {
      var before, id := ids[..|ids| - 1], ids[|ids| - 1];
      assert ids == before + [id] && id !in before && id in p.records;
      AllWritten(chain, p, before);
      AllSettled(chain, p, before);
      var q := HandleAll(chain, p, before);
      assert id in q.records && q.records[id] == p.records[id];
      hide Handle, Settled, Verdict;
      HandleWrites(chain, q, id);
    }
  }

  // One write at most for each token, and which.
  lemma {:induction false} WritesForAre(chain: Chain, records: map<string, TokenRecord>, ids: seq<string>)
    requires NoDuplicates(ids) && forall k :: k in ids ==> k in records
    ensures var ws := WritesFor(chain, records, ids);
            && (forall w :: w in ws <==> w.id in ids && w in WriteFor(chain, w.id, records[w.id]))
            && (forall i, j :: 0 <= i < j < |ws| ==> ws[i].id != ws[j].id)
  {
    if ids != [] {
      var before, id := ids[..|ids| - 1], ids[|ids| - 1];
      assert ids == before + [id] && id !in before;
      WritesForAre(chain, records, before);
    }
  }

  // The writes of a pass are the differences it makes, one for each token that
  // changed or went: a token in order is not written.
  lemma WritesAreDifferences(chain: Chain, ids: seq<string>, records: map<string, TokenRecord>)
    requires Consistent(ids, records)
    ensures var r := Pass(chain, ids, records);
            && (forall i, j :: 0 <= i < j < |r.writes| ==> r.writes[i].id != r.writes[j].id)
            && (forall w :: w in r.writes <==>
                  && w.id in records
                  && (if w.id !in r.records then w == Write.DeleteToken(w.id)
                      else r.records[w.id] != records[w.id] && w == Write.SetToken(w.id, r.records[w.id])))
  {
    var start := Progress(ids, records, Summary(|ids|, 0, 0, 0, []), []);
    PassMeetsSpec(chain, ids, records);
    AllWritten(chain, start, ids);
    WritesForAre(chain, records, ids);
    assert Pass(chain, ids, records).writes == WritesFor(chain, records, ids);
    forall k | k in records
      ensures Verdict(chain, k, records[k]).None? <==> Gone(chain, k)
    {
      NoDriftNoChange(chain, k, records[k]);
    }
    hide Pass, Verdict, Gone, Counted, WritesFor;
  }

  // The tokens that stay keep their order in the store.
  lemma {:induction false} WithoutKeepsOrder(before: seq<string>, id: string, after: seq<string>)
    requires NoDuplicates(before + [id] + after)
    ensures Without(before + [id] + after, id) == before + after
    decreases |after|
  {
    var ids := before + [id] + after;
    if after == [] {
      assert ids[..|ids| - 1] == before;
      assert forall k :: k in before ==> exists i :: 0 <= i < |before| && ids[i] == k;
      WithoutOther(before, id);
    } else {
      var rest := after[..|after| - 1];
      assert ids[..|ids| - 1] == before + [id] + rest;
      assert ids[|ids| - 1] != ids[|before|];
      WithoutKeepsOrder(before, id, rest);
      assert before + after == (before + rest) + [after[|after| - 1]];
    }
  }

  function Remaining(chain: Chain, ids: seq<string>): seq<string> {
    if ids == [] then []
    else
      var before, last := Remaining(chain, ids[..|ids| - 1]), ids[|ids| - 1];
      if Gone(chain, last) then before else before + [last]
  }

  lemma {:induction false} RemainingIn(chain: Chain, ids: seq<string>)
    requires NoDuplicates(ids)
    ensures NoDuplicates(Remaining(chain, ids)) && forall k :: k in Remaining(chain, ids) ==> k in ids
  {
    hide Gone;
    if ids != [] {
      var before, last := ids[..|ids| - 1], ids[|ids| - 1];
      assert ids == before + [last];
      assert last !in before;
      RemainingIn(chain, before);
      LongerNoDuplicates(Remaining(chain, before), last);
    }
  }

  lemma JoinNoDuplicates(xs: seq<string>, ys: seq<string>)
    requires NoDuplicates(xs) && NoDuplicates(ys) && forall k :: k in xs ==> k !in ys
    ensures NoDuplicates(xs + ys)
  {
    var s := xs + ys;
    forall i, j | 0 <= i < j < |s|
      ensures s[i] != s[j]
    {
      if i < |xs| <= j {
        assert s[i] in xs && s[j] == ys[j - |xs|] && ys[j - |xs|] in ys;
      }
    }
  }

  lemma RemainingRest(chain: Chain, ids: seq<string>, n: nat)
    requires NoDuplicates(ids) && n < |ids|
    ensures NoDuplicates(Remaining(chain, ids[..n]) + [ids[n]] + ids[n + 1..])
  {
    RemainingIn(chain, ids[..n]);
    hide Remaining;
    var kept := Remaining(chain, ids[..n]);
    assert [ids[n]] + ids[n + 1..] == ids[n..];
    assert kept + [ids[n]] + ids[n + 1..] == kept + ids[n..];
    JoinNoDuplicates(kept, ids[n..]);
  }

  lemma {:induction false} OrderAfter(chain: Chain, p: Progress, n: nat)
    requires Consistent(p.ids, p.records) && n <= |p.ids|
    ensures HandleAll(chain, p, p.ids[..n]).ids == Remaining(chain, p.ids[..n]) + p.ids[n..]
  {
    hide Handle, Gone, Verdict, Remaining, Settled, Consistent, HandleAll;
    if n == 0 {
      assert p.ids[..0] == [] && p.ids[0..] == p.ids;
      RemainingNone(chain, p);
    } else {
      OrderAfter(chain, p, n - 1);
      OneMoreInOrder(chain, p, n - 1);
    }
  }

  lemma OneMoreInOrder(chain: Chain, p: Progress, n: nat)
    requires Consistent(p.ids, p.records) && n < |p.ids|
    requires HandleAll(chain, p, p.ids[..n]).ids == Remaining(chain, p.ids[..n]) + p.ids[n..]
    ensures HandleAll(chain, p, p.ids[..n + 1]).ids == Remaining(chain, p.ids[..n + 1]) + p.ids[n + 1..]
  {
    hide Handle, Gone, Verdict, Remaining, Settled, HandleAll, Consistent, NoDuplicates, Without;
    NoRepeatedIds(p);
    StillThere(chain, p, n);
    RemainingRest(chain, p.ids, n);
    TakeNext(Remaining(chain, p.ids[..n]), p.ids, n, Gone(chain, p.ids[n]));
    assert p.ids[..n + 1][..n] == p.ids[..n];
    HandleIds(chain, HandleAll(chain, p, p.ids[..n]), p.ids[n]);
    HandleOneMore(chain, p, p.ids[..n + 1]);
    RemainingOneMore(chain, p.ids[..n + 1]);
  }

  lemma NoRepeatedIds(p: Progress)
    requires Consistent(p.ids, p.records)
    ensures NoDuplicates(p.ids)
  {
  }

  lemma TakeNext(kept: seq<string>, ids: seq<string>, n: nat, gone: bool)
    requires n < |ids| && NoDuplicates(kept + [ids[n]] + ids[n + 1..])
    ensures (if gone then Without(kept + ids[n..], ids[n]) else kept + ids[n..]) ==
            kept + (if gone then [] else [ids[n]]) + ids[n + 1..]
  {
    hide Without, NoDuplicates;
    var id, rest := ids[n], ids[n + 1..];
    assert ids[n..] == [id] + rest;
    assert kept + ids[n..] == kept + [id] + rest;
    assert kept + [] == kept;
    WithoutKeepsOrder(kept, id, rest);
  }

  lemma HandleOneMore(chain: Chain, p: Progress, ids: seq<string>)
    requires ids != []
    ensures HandleAll(chain, p, ids) == Handle(chain, HandleAll(chain, p, ids[..|ids| - 1]), ids[|ids| - 1])
  {
  }

  lemma StillThere(chain: Chain, p: Progress, n: nat)
    requires Consistent(p.ids, p.records) && n < |p.ids|
    ensures p.ids[n] in HandleAll(chain, p, p.ids[..n]).records
  {
    var id := p.ids[n];
    assert id !in p.ids[..n] && id in p.records;
    AllSettled(chain, p, p.ids[..n]);
  }

  lemma RemainingNone(chain: Chain, p: Progress)
    ensures Remaining(chain, []) == [] && HandleAll(chain, p, []) == p
  {
  }

  lemma HandleIds(chain: Chain, p: Progress, id: string)
    requires id in p.records
    ensures Handle(chain, p, id).ids == if Gone(chain, id) then Without(p.ids, id) else p.ids
  {
    NoDriftNoChange(chain, id, p.records[id]);
  }

  lemma RemainingOneMore(chain: Chain, ids: seq<string>)
    requires ids != []
    ensures var before, last := ids[..|ids| - 1], ids[|ids| - 1];
            Remaining(chain, ids) ==
            Remaining(chain, before) + (if Gone(chain, last) then [] else [last])
  {
  }

  // After a pass the store lists the tokens that remain, in the order it had.
  lemma OrderIsKept(chain: Chain, ids: seq<string>, records: map<string, TokenRecord>)
    requires Consistent(ids, records)
    ensures Pass(chain, ids, records).ids == Remaining(chain, ids)
  {
    OrderAfter(chain, Progress(ids, records, Summary(|ids|, 0, 0, 0, []), []), |ids|);
    assert ids[..|ids|] == ids && ids[|ids|..] == [];
  }

  lemma {:induction false} WithoutOther(ids: seq<string>, id: string)
    requires id !in ids
    ensures Without(ids, id) == ids
  {
    if ids != [] {
      WithoutOther(ids[..|ids| - 1], id);
    }
  }

  // What the job makes of an owner query whose error quotes its code, in text that
  // does not read as "not found" by itself: it removes the token for code 1 alone.
  // For every other code, among them the 3 of a burned token, the record stays as
  // it was and the error is reported.
  lemma OnlyCodeOneRemoves(chain: Chain, ids: seq<string>, records: map<string, TokenRecord>, id: string,
                           pre: string, code: string, post: string)
    requires Consistent(ids, records) && id in records && Numeric(code)
    requires !IsTokenNotFoundError(Thrown(true, pre)) && !IsTokenNotFoundError(Thrown(true, post))
    requires chain.owner(id) == Failed(Thrown(true, pre + Quote(code) + post))
    ensures var r := Pass(chain, ids, records);
            && (id in r.records <==> code != "1")
            && (code != "1" ==> r.records[id] == records[id] && (id, pre + Quote(code) + post) in r.summary.errors)
  {
    hide IsTokenNotFoundError, Quote, Pass, Numeric;
    OnlyCodeOneIsNotFound(pre, code, post);
    PassMeetsSpec(chain, ids, records);
    if code != "1" {
      ErrorIsListed(chain, ids, id, (id, pre + Quote(code) + post));
    }
  }

  // How the client words the failure of its owner query, and the host that of a call.
  const OWNER_QUERY_FAILED := "get_owner simulation failed: " + "HostError: "

  lemma QueryFailureLacks(letter: char)
    requires letter == 'T' || letter == 'k' || letter == '#'
    ensures letter !in OWNER_QUERY_FAILED
  {
    assert letter !in "get_owner simulation failed: " && letter !in "HostError: ";
  }

  // A token is burned, and the owner query fails with code 3: the store keeps it,
  // with the owner it had, and the pass reports an error.
  lemma BurnedTokenStays(chain: Chain, ids: seq<string>, records: map<string, TokenRecord>, id: string)
    requires Consistent(ids, records) && id in records
    requires chain.owner(id) == Failed(Thrown(true, OWNER_QUERY_FAILED + Quote("3")))
    ensures var r := Pass(chain, ids, records);
            && id in r.records && r.records[id] == records[id]
            && (id, OWNER_QUERY_FAILED + Quote("3")) in r.summary.errors
  {
    hide Pass, Quote, OWNER_QUERY_FAILED, IsTokenNotFoundError;
    QueryFailureLacks('T');
    QueryFailureLacks('k');
    QueryFailureLacks('#');
    NotFoundLetters(OWNER_QUERY_FAILED);
    NotFoundLetters("");
    assert OWNER_QUERY_FAILED + Quote("3") + "" == OWNER_QUERY_FAILED + Quote("3");
    OnlyCodeOneRemoves(chain, ids, records, id, OWNER_QUERY_FAILED, "3", "");
  }

  // One token's outcome depends on nothing but its own record and the chain's
  // answers about it.
  lemma FailuresAreIsolated(chain: Chain, chain': Chain, ids: seq<string>, ids': seq<string>,
                            records: map<string, TokenRecord>, records': map<string, TokenRecord>, id: string)
    requires Consistent(ids, records) && Consistent(ids', records')
    requires id in records && id in records' && records[id] == records'[id]
    requires chain.owner(id) == chain'.owner(id) && chain.token(id) == chain'.token(id)
    requires chain.millis == chain'.millis
    ensures var r, r' := Pass(chain, ids, records).records, Pass(chain', ids', records').records;
            (id in r <==> id in r') && (id in r ==> r[id] == r'[id])
  {
    PassMeetsSpec(chain, ids, records);
    PassMeetsSpec(chain', ids', records');
    assert Verdict(chain, id, records[id]) == Verdict(chain', id, records'[id]);
  }

  // ----- The second pass --------------------------------------------------------------

  // A verdict is final: applied again it changes nothing.
  lemma VerdictIsFixed(chain: Chain, id: string, rec: TokenRecord)
    requires Verdict(chain, id, rec).Some?
    ensures Verdict(chain, id, Verdict(chain, id, rec).value) == Verdict(chain, id, rec)
  {
  }

  lemma {:induction false} QuietPass(chain: Chain, p: Progress, ids: seq<string>)
    requires forall k :: k in ids ==> k in p.records && Verdict(chain, k, p.records[k]) == Some(p.records[k])
    ensures HandleAll(chain, p, ids) ==
            p.(summary := p.summary.(errors := p.summary.errors + AllErrors(chain, ids)))
  {
    if ids == [] {
      assert p.summary.errors + [] == p.summary.errors;
    } else {
      var before, id := ids[..|ids| - 1], ids[|ids| - 1];
      assert ids == before + [id];
      QuietPass(chain, p, before);
      NoDriftNoChange(chain, id, p.records[id]);
      assert (p.summary.errors + AllErrors(chain, before)) + ErrorsOf(chain, id) ==
             p.summary.errors + (AllErrors(chain, before) + ErrorsOf(chain, id));
    }
  }

  lemma {:induction false} ErrorsWithout(chain: Chain, ids: seq<string>, id: string)
    requires ErrorsOf(chain, id) == []
    ensures AllErrors(chain, Without(ids, id)) == AllErrors(chain, ids)
  {
    if ids != [] {
      var before, last := ids[..|ids| - 1], ids[|ids| - 1];
      ErrorsWithout(chain, before, id);
      if last != id {
        assert (Without(before, id) + [last])[..|Without(before, id)|] == Without(before, id);
      }
    }
  }

  lemma {:induction false} ErrorsRemain(chain: Chain, p: Progress, ids: seq<string>)
    ensures AllErrors(chain, HandleAll(chain, p, ids).ids) == AllErrors(chain, p.ids)
  {
    if ids != [] {
      var before, id := ids[..|ids| - 1], ids[|ids| - 1];
      ErrorsRemain(chain, p, before);
      var q := HandleAll(chain, p, before);
      if id in q.records && Verdict(chain, id, q.records[id]).None? {
        ErrorsWithout(chain, q.ids, id);
      }
    }
  }

  // Against the same chain a second pass leaves the store as it is, writes
  // nothing, corrects and deletes nothing, and reports the same errors.
  lemma SecondPassIsIdle(chain: Chain, ids: seq<string>, records: map<string, TokenRecord>)
    requires Consistent(ids, records)
    ensures var first := Pass(chain, ids, records);
            var second := Pass(chain, first.ids, first.records);
            && second.ids == first.ids && second.records == first.records && second.writes == []
            && second.summary == Summary(|first.records|, 0, 0, 0, first.summary.errors)
  {
    PassMeetsSpec(chain, ids, records);
    var first := Pass(chain, ids, records);
    forall k | k in first.ids
      ensures k in first.records && Verdict(chain, k, first.records[k]) == Some(first.records[k])
    {
      VerdictIsFixed(chain, k, records[k]);
    }
    var start := Progress(first.ids, first.records, Summary(|first.ids|, 0, 0, 0, []), []);
    QuietPass(chain, start, first.ids);
    ErrorsRemain(chain, Progress(ids, records, Summary(|ids|, 0, 0, 0, []), []), ids);
    SizeOf(first.ids, first.records.Keys);
  }
}
