/**
 * The drift report of the verification endpoint, and how it agrees with
 * reconciliation: a second, narrower comparison of the same two states.
 */
module Drift {
  import opened Prelude
  import opened TokenRecords
  import opened Reconcile
  import opened ReconcilePass

  datatype Field = Owner | Commodity | Quantity | GradeCode | Custodian | Depositor

  datatype FieldValue = Text(text: string) | Number(number: real)

  datatype DriftField = DriftField(field: Field, dbValue: FieldValue, chainValue: FieldValue)

  function DbValue(rec: TokenRecord, f: Field): FieldValue {
    match f
    case Owner => Text(rec.owner)
    case Commodity => Text(rec.receipt.commodity)
    case Quantity => Number(rec.receipt.quantity)
    case GradeCode => Text(rec.receipt.gradeCode)
    case Custodian => Text(rec.receipt.custodian)
    case Depositor => Text(rec.receipt.depositor)
  }

  function ChainValue(meta: ChainMetadata, owner: string, f: Field): FieldValue {
    match f
    case Owner => Text(owner)
    case Commodity => Text(meta.commodity)
    case Quantity => Number(meta.totalWeightKg as real)
    case GradeCode => Text(meta.grade)
    case Custodian => Text(meta.custodian)
    case Depositor => Text(meta.warehouseId)
  }

  function Entry(rec: TokenRecord, meta: ChainMetadata, owner: string, f: Field): DriftField {
    DriftField(f, DbValue(rec, f), ChainValue(meta, owner, f))
  }

  predicate Differs(rec: TokenRecord, meta: ChainMetadata, owner: string, f: Field) {
    DbValue(rec, f) != ChainValue(meta, owner, f)
  }

  function Noted(drifts: seq<DriftField>, rec: TokenRecord, meta: ChainMetadata, owner: string, f: Field)
    : seq<DriftField>
  {
    if Differs(rec, meta, owner, f) then drifts + [Entry(rec, meta, owner, f)] else drifts
  }

  // The fields in the order of the report.
  function Report(rec: TokenRecord, meta: ChainMetadata, owner: string): seq<DriftField> {
    var d1 := Noted([], rec, meta, owner, Owner);
    var d2 := Noted(d1, rec, meta, owner, Commodity);
    var d3 := Noted(d2, rec, meta, owner, Quantity);
    var d4 := Noted(d3, rec, meta, owner, GradeCode);
    var d5 := Noted(d4, rec, meta, owner, Custodian);
    Noted(d5, rec, meta, owner, Depositor)
  }

  method DetectDrift(dbRecord: Option<TokenRecord>, chainMeta: ChainMetadata, chainOwner: string)
    returns (drifts: seq<DriftField>)
    ensures drifts == if dbRecord.None? then [] else Report(dbRecord.value, chainMeta, chainOwner)
  {
    if dbRecord.None? {
      return [];
    }
    var rec := dbRecord.value;
    drifts := [];
    if rec.owner != chainOwner {
      drifts := drifts + [DriftField(Owner, Text(rec.owner), Text(chainOwner))];
    }
    var r := rec.receipt;
    if r.commodity != chainMeta.commodity {
      drifts := drifts + [DriftField(Commodity, Text(r.commodity), Text(chainMeta.commodity))];
    }
    if r.quantity != chainMeta.totalWeightKg as real {
      drifts := drifts + [DriftField(Quantity, Number(r.quantity), Number(chainMeta.totalWeightKg as real))];
    }
    if r.gradeCode != chainMeta.grade {
      drifts := drifts + [DriftField(GradeCode, Text(r.gradeCode), Text(chainMeta.grade))];
    }
    if r.custodian != chainMeta.custodian {
      drifts := drifts + [DriftField(Custodian, Text(r.custodian), Text(chainMeta.custodian))];
    }
    if r.depositor != chainMeta.warehouseId {
      drifts := drifts + [DriftField(Depositor, Text(r.depositor), Text(chainMeta.warehouseId))];
    }
  }

  // The report holds one entry for each field that differs, and no other.
  lemma ReportIs(rec: TokenRecord, meta: ChainMetadata, owner: string, d: DriftField)
    ensures d in Report(rec, meta, owner) <==>
              Differs(rec, meta, owner, d.field) && d == Entry(rec, meta, owner, d.field)
  {
  }

  // The place of a field in a report.
  function Place(f: Field): nat {
    match f
    case Owner => 0
    case Commodity => 1
    case Quantity => 2
    case GradeCode => 3
    case Custodian => 4
    case Depositor => 5
  }

  // Fields come in this order, none of them twice.
  lemma ReportInOrder(rec: TokenRecord, meta: ChainMetadata, owner: string)
    ensures var ds := Report(rec, meta, owner);
            forall i, j :: 0 <= i < j < |ds| ==> Place(ds[i].field) < Place(ds[j].field)
  {
    hide Noted;
    var d1 := NotedInOrder([], rec, meta, owner, Owner);
    var d2 := NotedInOrder(d1, rec, meta, owner, Commodity);
    var d3 := NotedInOrder(d2, rec, meta, owner, Quantity);
    var d4 := NotedInOrder(d3, rec, meta, owner, GradeCode);
    var d5 := NotedInOrder(d4, rec, meta, owner, Custodian);
    var d6 := NotedInOrder(d5, rec, meta, owner, Depositor);
  }

  ghost predicate InOrder(ds: seq<DriftField>, end: nat) {
    && (forall d :: d in ds ==> Place(d.field) < end)
    && (forall i, j :: 0 <= i < j < |ds| ==> Place(ds[i].field) < Place(ds[j].field))
  }

  lemma NotedInOrder(ds: seq<DriftField>, rec: TokenRecord, meta: ChainMetadata, owner: string, f: Field)
    returns (ds': seq<DriftField>)
    requires InOrder(ds, Place(f))
    ensures ds' == Noted(ds, rec, meta, owner, f) && InOrder(ds', Place(f) + 1)
  {
    ds' := Noted(ds, rec, meta, owner, f);
  }

  lemma ReportEmptyIff(rec: TokenRecord, meta: ChainMetadata, owner: string)
    ensures Report(rec, meta, owner) == [] <==> forall f :: !Differs(rec, meta, owner, f)
  {
  }

  // ----- Agreement with reconciliation --------------------------------------------

  // Both queries of the token succeed.
  predicate Answered(chain: Chain, id: string) {
    chain.owner(id).Returned? && chain.token(id).Returned?
  }

  function DriftOf(chain: Chain, id: string, rec: TokenRecord): seq<DriftField>
    requires Answered(chain, id)
  {
    Report(rec, chain.token(id).value, chain.owner(id).value)
  }

  lemma VerdictSetsFields(chain: Chain, id: string, rec: TokenRecord, f: Field)
    requires Answered(chain, id)
    ensures var v := Verdict(chain, id, rec);
            v.Some? && DbValue(v.value, f) == ChainValue(chain.token(id).value, chain.owner(id).value, f)
  {
  }

  // A pass sets every reported field to exactly the reported chain value, and
  // leaves nothing to report.
  lemma PassRemovesDrift(chain: Chain, ids: seq<string>, records: map<string, TokenRecord>, id: string)
    requires Consistent(ids, records) && id in records && Answered(chain, id)
    ensures var after := Pass(chain, ids, records).records;
            && id in after
            && (forall d :: d in DriftOf(chain, id, records[id]) ==>
                  && d.dbValue == DbValue(records[id], d.field) && d.dbValue != d.chainValue
                  && DbValue(after[id], d.field) == d.chainValue)
            && DriftOf(chain, id, after[id]) == []
  {
    PassMeetsSpec(chain, ids, records);
    hide Consistent, Pass, Counted, Verdict, Report, DbValue, ChainValue;
    var rec := Pass(chain, ids, records).records[id];
    var meta, owner := chain.token(id).value, chain.owner(id).value;
    forall d
      ensures d in Report(records[id], meta, owner) <==>
                Differs(records[id], meta, owner, d.field) && d == Entry(records[id], meta, owner, d.field)
    {
      ReportIs(records[id], meta, owner, d);
    }
    forall f: Field
      ensures DbValue(rec, f) == ChainValue(meta, owner, f)
    {
      VerdictSetsFields(chain, id, records[id], f);
    }
    ReportEmptyIff(rec, meta, owner);
  }

  // The four receipt fields the report does not look at.
  predicate UnreportedMatch(chain: Chain, id: string, rec: TokenRecord)
    requires Answered(chain, id)
  {
    && rec.receipt.id == id && rec.receipt.unit == "kg"
    && rec.receipt.issuedAt == chain.millis(chain.token(id).value.depositTs) && rec.receipt.expiresAt == 0.0
  }

  // Reconciliation finds a token in order exactly when nothing is reported and
  // the unreported fields match too.
  lemma CleanExactlyWhen(chain: Chain, id: string, rec: TokenRecord)
    requires Answered(chain, id)
    ensures Verdict(chain, id, rec) == Some(rec) <==>
              DriftOf(chain, id, rec) == [] && UnreportedMatch(chain, id, rec)
  {
  }

  // So the converse fails: no drift is reported of a receipt in another unit, yet
  // a pass rewrites it.
  lemma SilentCorrection(chain: Chain, id: string, rec: TokenRecord)
    requires Answered(chain, id) && rec.owner == chain.owner(id).value
    requires rec.receipt == MapMetadataToReceipt(chain, id, chain.token(id).value).(unit := "bag")
    ensures DriftOf(chain, id, rec) == [] && ReceiptDrifted(chain, id, rec)
  {
  }
}
