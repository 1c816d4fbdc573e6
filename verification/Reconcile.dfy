/**
 * The reconciliation pass: it brings the service's token store into line with the
 * chain, one token at a time, and isolates the failure of one token from the rest.
 */
module Reconcile {
  import opened Prelude
  import opened TokenRecords

  datatype Summary = Summary(
    checked: nat, ownerCorrected: nat, metadataCorrected: nat, deleted: nat, errors: seq<(string, string)>)

  // A call that changed the store.
  datatype Write = SetToken(id: string, record: TokenRecord) | DeleteToken(id: string)

  // ----- The store ---------------------------------------------------------------

  // A keyed store lists its keys once each, oldest first.
  ghost predicate Consistent(ids: seq<string>, records: map<string, TokenRecord>) {
    NoDuplicates(ids) && forall k :: k in ids <==> k in records
  }

  function Without(ids: seq<string>, id: string): seq<string> {
    if ids == [] then []
    else if ids[|ids| - 1] == id then Without(ids[..|ids| - 1], id)
    else Without(ids[..|ids| - 1], id) + [ids[|ids| - 1]]
  }

  class TokenStore {
    var ids: seq<string>
    var records: map<string, TokenRecord>
    ghost var writes: seq<Write>

    constructor ()
      ensures Consistent(ids, records) && ids == [] && records == map[] && writes == []
    {
      ids, records, writes := [], map[], [];
    }

    method ListTokenIds() returns (r: seq<string>)
      ensures r == ids
    {
      r := ids;
    }

    method GetToken(id: string) returns (r: Option<TokenRecord>)
      ensures r == if id in records then Some(records[id]) else None
    {
      r := if id in records then Some(records[id]) else None;
    }

    method SetToken(id: string, record: TokenRecord)
      modifies this
      ensures records == old(records)[id := record] && writes == old(writes) + [Write.SetToken(id, record)]
      ensures ids == if id in old(records) then old(ids) else old(ids) + [id]
    {
      if id !in records {
        ids := ids + [id];
      }
      records := records[id := record];
      writes := writes + [Write.SetToken(id, record)];
    }

    method DeleteToken(id: string)
      modifies this
      ensures records == old(records) - {id} && ids == Without(old(ids), id)
      ensures writes == old(writes) + [Write.DeleteToken(id)]
    {
      records := records - {id};
      ids := Without(ids, id);
      writes := writes + [Write.DeleteToken(id)];
    }
  }

  // ----- What a pass does, token by token ------------------------------------------

  datatype Progress = Progress(
    ids: seq<string>, records: map<string, TokenRecord>, summary: Summary, writes: seq<Write>)

  predicate Gone(chain: Chain, id: string) {
    chain.owner(id).Failed? && IsTokenNotFoundError(chain.owner(id).err)
  }

  predicate OwnerDrifted(chain: Chain, id: string, rec: TokenRecord) {
    chain.owner(id).Returned? && chain.owner(id).value != rec.owner
  }

  predicate ReceiptDrifted(chain: Chain, id: string, rec: TokenRecord) {
    && chain.owner(id).Returned? && chain.token(id).Returned?
    && !ReceiptsEqual(rec.receipt, MapMetadataToReceipt(chain, id, chain.token(id).value))
  }

  // The error a token contributes, if any.
  function ErrorsOf(chain: Chain, id: string): seq<(string, string)> {
    match chain.owner(id)
    case Failed(err) => if IsTokenNotFoundError(err) then [] else [(id, err.message)]
    case Returned(_) =>
      match chain.token(id)
      case Failed(err) => [(id, "metadata query failed: " + err.message)]
      case Returned(_) => []
  }

  // The record a token ends up with; None when it is removed.
  function Verdict(chain: Chain, id: string, rec: TokenRecord): Option<TokenRecord> {
    match chain.owner(id)
    case Failed(err) => if IsTokenNotFoundError(err) then None else Some(rec)
    case Returned(owner) =>
      match chain.token(id)
      case Failed(_) => Some(rec.(owner := owner))
      case Returned(meta) => Some(rec.(owner := owner, receipt := MapMetadataToReceipt(chain, id, meta)))
  }

  function Handle(chain: Chain, p: Progress, id: string): Progress {
    if id !in p.records then p
    else
      var rec, sum := p.records[id], p.summary;
      var ownerOff, receiptOff := OwnerDrifted(chain, id, rec), ReceiptDrifted(chain, id, rec);
      var sum' := sum.(
        ownerCorrected := sum.ownerCorrected + (if ownerOff then 1 else 0),
        metadataCorrected := sum.metadataCorrected + (if receiptOff then 1 else 0),
        deleted := sum.deleted + (if Gone(chain, id) then 1 else 0),
        errors := sum.errors + ErrorsOf(chain, id));
      match Verdict(chain, id, rec)
      case None =>
        Progress(Without(p.ids, id), p.records - {id}, sum', p.writes + [Write.DeleteToken(id)])
      case Some(rec') =>
        if ownerOff || receiptOff
        then Progress(p.ids, p.records[id := rec'], sum', p.writes + [Write.SetToken(id, rec')])
        else Progress(p.ids, p.records, sum', p.writes)
  }

  function HandleAll(chain: Chain, p: Progress, ids: seq<string>): Progress {
    if ids == [] then p else Handle(chain, HandleAll(chain, p, ids[..|ids| - 1]), ids[|ids| - 1])
  }

  function Pass(chain: Chain, ids: seq<string>, records: map<string, TokenRecord>): Progress {
    HandleAll(chain, Progress(ids, records, Summary(|ids|, 0, 0, 0, []), []), ids)
  }

  method RunReconciliation(chain: Chain, store: TokenStore) returns (summary: Summary)
    modifies store
    ensures var r := Pass(chain, old(store.ids), old(store.records));
            && store.ids == r.ids && store.records == r.records && summary == r.summary
            && store.writes == old(store.writes) + r.writes
  {
    hide IsTokenNotFoundError, MapMetadataToReceipt, ReceiptsEqual, Without;
    ghost var start := Progress(store.ids, store.records, Summary(|store.ids|, 0, 0, 0, []), []);
    ghost var done := start;
    var tokenIds := store.ListTokenIds();
    summary := Summary(|tokenIds|, 0, 0, 0, []);
    for i := 0 to |tokenIds|
      invariant done == HandleAll(chain, start, tokenIds[..i])
      invariant store.ids == done.ids && store.records == done.records && summary == done.summary
      invariant store.writes == old(store.writes) + done.writes
    {
      var tokenId := tokenIds[i];
      assert tokenIds[..i + 1][..i] == tokenIds[..i];
      done := Handle(chain, done, tokenId);
      var dbRecord := store.GetToken(tokenId);
      if dbRecord.None? {
        continue;
      }
      var rec := dbRecord.value;
      var owner := chain.owner(tokenId);
      if owner.Failed? {
        if IsTokenNotFoundError(owner.err) {
          store.DeleteToken(tokenId);
          summary := summary.(deleted := summary.deleted + 1);
        } else {
          summary := summary.(errors := summary.errors + [(tokenId, owner.err.message)]);
        }
        continue;
      }
      var updated, ownerChanged := rec, false;
      if owner.value != rec.owner {
        updated := updated.(owner := owner.value);
        ownerChanged := true;
        summary := summary.(ownerCorrected := summary.ownerCorrected + 1);
      }
      var metadataChanged := false;
      var meta := chain.token(tokenId);
      if meta.Returned? {
        var liveReceipt := MapMetadataToReceipt(chain, tokenId, meta.value);
        if !ReceiptsEqual(rec.receipt, liveReceipt) {
          updated := updated.(receipt := liveReceipt);
          metadataChanged := true;
          summary := summary.(metadataCorrected := summary.metadataCorrected + 1);
        }
      } else {
        summary := summary.(errors := summary.errors + [(tokenId, "metadata query failed: " + meta.err.message)]);
      }
      if ownerChanged || metadataChanged {
        store.SetToken(tokenId, updated);
      }
    }
    assert tokenIds[..|tokenIds|] == tokenIds;
  }
}
