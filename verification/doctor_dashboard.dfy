/**
 The doctor's dashboard: fixed figures for pending work, a summary of
 completed prediagnostics split by the urgency threshold, and a shortcut
 that jumps to a case named in the `testId` query parameter.
 */
module DoctorDashboard {
  import opened Common
  import opened Seqs
  import opened PrediagnosticService

  /** The completed prediagnostics the dashboard summarises. */
  const MockCompletedCases: seq<PreDiagnostic> := [
    PreDiagnostic("b150e640-3aec-4c3c-80ef-caedcd150c18", "test_patient_001", "completado",
                  "https://example.com/xrays/test_123.jpg", "2025-09-26T15:47:02.558000",
                  ModelResults(0.87, "Viral Pneumonia")),
    PreDiagnostic("da939374-aab5-40ab-9b78-0ec37b86d616", "P001", "completado",
                  "https://via.placeholder.com/400x300/1f2937/ffffff?text=Mock+P001", "2024-01-15T10:30:00Z",
                  ModelResults(0.85, "Neumonía")),
    PreDiagnostic("12345678-1234-5678-9012-123456789012", "P002", "completado",
                  "https://via.placeholder.com/400x300/065f46/ffffff?text=Mock+P002", "2024-01-14T14:20:00Z",
                  ModelResults(0.25, "Normal"))
  ]

  /** The fixed figures of the pending-work cards. */
  datatype PendingStats = PendingStats(total: nat, urgent: nat, routine: nat)

  const MockPendingStats: PendingStats := PendingStats(8, 3, 5)

  predicate AboveThreshold(p: PreDiagnostic)
  {
    p.resultadosModelo.probNeumonia > 0.7
  }

  predicate AtMostThreshold(p: PreDiagnostic)
  {
    p.resultadosModelo.probNeumonia <= 0.7
  }

  /** `completedUrgent` */
  function CompletedUrgent(cases: seq<PreDiagnostic>): nat
  {
    |Filter(AboveThreshold, cases)|
  }

  /** `completedRoutine` */
  function CompletedRoutine(cases: seq<PreDiagnostic>): nat
  {
    |Filter(AtMostThreshold, cases)|
  }

  /** The two strict/non-strict filters split the completed cases between them. */
  lemma CompletedSplit(cases: seq<PreDiagnostic>)
    ensures CompletedUrgent(cases) + CompletedRoutine(cases) == |cases|
    ensures Filter(AboveThreshold, cases) ==
            Filter((p: PreDiagnostic) => GetUrgencyLevel(p.resultadosModelo.probNeumonia) == Urgent, cases)
  {
    FilterNegationIsReject(AboveThreshold, AtMostThreshold, cases);
    FilterRejectPartition(AboveThreshold, cases);
    FilterExtensional(AboveThreshold,
                      (p: PreDiagnostic) => GetUrgencyLevel(p.resultadosModelo.probNeumonia) == Urgent, cases);
  }

  /** Of the sample cases, two are above the threshold and one is not. */
  lemma MockCompletedCounts()
    ensures CompletedUrgent(MockCompletedCases) == 2
    ensures CompletedRoutine(MockCompletedCases) == 1
  {
    var s := MockCompletedCases;
    assert s[1..][1..][1..] == [];
    assert s[1..][1..] == [s[2]];
    assert s[1..] == [s[1], s[2]];
  }

  /** The fixed pending figures are consistent, so the urgent banner shows. */
  lemma PendingStatsConsistent()
    ensures MockPendingStats.total == MockPendingStats.urgent + MockPendingStats.routine
    ensures ShowsUrgentBanner(MockPendingStats)
  {
  }

  /** The "casos urgentes pendientes" banner. */
  predicate ShowsUrgentBanner(stats: PendingStats)
  {
    stats.urgent > 0
  }

  /** The recent-cases summary: the first three completed cases. */
  function RecentCases(cases: seq<PreDiagnostic>): (r: seq<PreDiagnostic>)
    ensures |r| == if |cases| < 3 then |cases| else 3
    ensures r == cases[..|r|]
  {
    Take(cases, 3)
  }

  const CaseDetailPrefix: string := "/doctor/cases/"

  /** The redirect for a `testId` query parameter: only a non-empty value navigates. */
  function TestIdRedirect(testId: Option<string>): (target: Option<string>)
    ensures target.Some? <==> Truthy(testId)
    ensures target.Some? ==> target.value == CaseDetailPrefix + testId.value
    ensures target.Some? ==> target.value[|CaseDetailPrefix|..] == testId.value
  {
    if Truthy(testId) then Some(CaseDetailPrefix + testId.value) else None
  }
}
