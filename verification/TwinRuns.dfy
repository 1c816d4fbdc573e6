/** The two contract classes run side by side. */
module TwinRuns {
  import opened ReceiptSpec
  import opened Worlds
  import opened Twins
  import opened MaizeReceipt
  import opened SesameReceipt

  // Two contracts are created and run on paired calls: the sesame contract, with
  // its entry for each custodian, gives the results of the maize contract, with
  // its map of flags, and ends in the matching storage.
  method RunBoth(run: seq<Invocation>)
    returns (m: MaizeReceiptContract, s: SesameReceiptContract, rs: seq<Outcome>, rs': seq<Outcome>)
    ensures fresh(m) && fresh(s) && m.Valid() && s.Valid()
    ensures rs' == PairOutcomes(TO_SESAME, rs)
    ensures Twin(TO_SESAME, m.View(), s.View())
  {
    hide Twin, PairRun, PairOutcomes, Replay, Run;
    ContractsAgree(Rollback, run);
    m := new MaizeReceiptContract();
    rs := m.InvokeAll(run);
    s := new SesameReceiptContract();
    rs' := s.InvokeAll(PairRun(TO_SESAME, run));
  }
}
