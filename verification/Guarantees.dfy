/** What all of this means for the services: a summary for whoever calls them. */
module Guarantees {
  import opened Protocol
  import opened Quota
  import opened UploadSafety
  import opened SerialUploads
  import opened Lifecycle
  import opened ManifestAgreement
  import opened Backends
  import opened Uninterrupted
  import opened Disciplines

  /**
   A backend whose services started on empty accounts, whatever they were asked since. The first
   three promises need nothing; each of the others names the discipline it needs.
   */
  lemma BackendsKeepTheirPromises(b: Backend)
    requires b.Valid() && Initial(b.origin)
    ensures ContentAddressed(b.p, b.Snapshot())
    ensures AllTiled(b.Snapshot())
    ensures FilesAreRecorded(b.Snapshot())
    ensures TimelyRun(b.p, b.origin, b.trace) ==> Conserved(b.Snapshot())
    ensures ExclusiveRun(b.p, b.origin, b.trace) ==> RowsAreBacked(b.Snapshot())
    ensures SettledRun(b.p, b.origin, b.trace) ==> AllAgree(b.p, b.Snapshot())
    ensures SerialRun(b.p, b.origin, b.trace) && Injective(b.p.sha256) ==>
              && SettledRun(b.p, b.origin, b.trace)
              && HonestRows(b.p, b.Snapshot())
  {
    hide Run, Conserved, AllAgree, TimelyRun, ExclusiveRun, SettledRun, SerialRun, Injective, HonestRows, AllTiled;
    hide ContentAddressed, FilesAreRecorded;
    var p, s, events := b.p, b.origin, b.trace;
    EverythingHoldsAtTheStart(p, s);
    ContentStaysAddressedByItsHash(p, s, events);
    AcceptedRangesAlwaysTile(p, s, events);
    BuildFilesAreAlwaysRecorded(p, s, events);
    if TimelyRun(p, s, events) {
      QuotaIsConservedFromTheStart(p, s, events);
    }
    if ExclusiveRun(p, s, events) {
      EveryRowKeepsItsFile(p, s, events);
    }
    if SettledRun(p, s, events) {
      ManifestsAlwaysAgree(p, s, events);
    }
    if SerialRun(p, s, events) && Injective(p.sha256) {
      SerialRunsAreSettled(p, s, events);
      SerialRunsStayInOrder(p, s, events);
    }
  }

  /**
   A backend driven only by whole service calls and by what happens between them: every one of them
   leaves it quiet, and quiet it has all of the promises outright.
   */
  lemma QuietBackendsKeepAllPromises(b: Backend)
    requires b.Quiet() && Initial(b.origin)
    ensures ContentAddressed(b.p, b.Snapshot()) && AllTiled(b.Snapshot()) && FilesAreRecorded(b.Snapshot())
    ensures Conserved(b.Snapshot()) && RowsAreBacked(b.Snapshot()) && AllAgree(b.p, b.Snapshot())
    ensures HonestRows(b.p, b.Snapshot())
    ensures forall id <- b.store.staging :: id in b.accepted && b.store.staging[id] == Joined(b.accepted[id])
  {
    hide Run, Conserved, AllAgree, TimelyRun, ExclusiveRun, SettledRun, SerialRun, HonestRows, AllTiled;
    hide ContentAddressed, FilesAreRecorded, OneAtATime, SerialState, Orderly, RowsAreBacked;
    var p, s, events := b.p, b.origin, b.trace;
    EverythingHoldsAtTheStart(p, s);
    OneAtATimeKeepsTheDisciplines(p, s, events);
    BackendsKeepTheirPromises(b);
    SerialRunsStayInOrder(p, s, events);
    QuietFilesAreComplete(p, b.Snapshot());
  }

  lemma QuietFilesAreComplete(p: Settings, s: State)
    requires SerialState(p, s) && Idle(s.requests)
    ensures HonestRows(p, s)
    ensures forall id <- s.staging :: id in s.accepted && s.staging[id] == Joined(s.accepted[id])
  {
    hide HonestRows, AllTiled;
  }

  lemma EverythingHoldsAtTheStart(p: Settings, s: State)
    requires Initial(s)
    ensures ContentAddressed(p, s) && AllTiled(s) && FilesAreRecorded(s) && Backed(s)
    ensures AllAgree(p, s) && AllPrepared(p, s) && SerialState(p, s) && HonestPlans(p, s) && Orderly(s)
  {
  }
}
