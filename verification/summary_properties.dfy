/** What a reader of the assembled summary table and card can rely on. */
module SummaryProperties {
  import opened Wrappers
  import opened AdaptiveCard
  import opened TableRows
  import opened ProcessResults

  /**
   * Read by label, the summary table reports each count under its own label:
   * the flaky count only when it is non-zero, and under "Total tests" the suite's
   * test count rather than any sum of the other rows.
   */
  lemma SummaryLookup(counts: Counts, totalTests: nat)
    ensures Lookup(SummaryRows(counts, totalTests), Str("Type")) == Some(Str("Total"))
    ensures Lookup(SummaryRows(counts, totalTests), Str(PassedLabel)) == Some(Num(counts.passed))
    ensures Lookup(SummaryRows(counts, totalTests), Str(FlakyLabel))
         == if counts.flaky != 0 then Some(Num(counts.flaky)) else None
    ensures Lookup(SummaryRows(counts, totalTests), Str(FailedLabel)) == Some(Num(counts.failed))
    ensures Lookup(SummaryRows(counts, totalTests), Str(SkippedLabel)) == Some(Num(counts.skipped))
    ensures Lookup(SummaryRows(counts, totalTests), Str(TotalLabel)) == Some(Num(totalTests))
  {
    LookupHeader(counts, totalTests);
    LookupPassed(counts, totalTests);
    LookupFlaky(counts, totalTests);
    LookupFailed(counts, totalTests);
    LookupSkipped(counts, totalTests);
    LookupTotal(counts, totalTests);
  }

  lemma LookupHeader(counts: Counts, totalTests: nat)
    ensures Lookup(SummaryRows(counts, totalTests), Str("Type")) == Some(Str("Total"))
  {
    var rows := SummaryRows(counts, totalTests);
    assert RowValue(rows[0]) == Str("Total") by {
      assert CellTexts(rows[0])[1] == CellText(rows[0], 1);
    }
    FoundUnderLabel(counts, totalTests, 0);
  }

  lemma LookupPassed(counts: Counts, totalTests: nat)
    ensures Lookup(SummaryRows(counts, totalTests), Str(PassedLabel)) == Some(Num(counts.passed))
  {
    FoundUnderLabel(counts, totalTests, 1);
  }

  lemma LookupFlaky(counts: Counts, totalTests: nat)
    ensures Lookup(SummaryRows(counts, totalTests), Str(FlakyLabel))
         == if counts.flaky != 0 then Some(Num(counts.flaky)) else None
  {
    if counts.flaky != 0 {
      FoundUnderLabel(counts, totalTests, 2);
    } else {
      LabelsDistinct(counts);
    }
  }

  lemma LookupFailed(counts: Counts, totalTests: nat)
    ensures Lookup(SummaryRows(counts, totalTests), Str(FailedLabel)) == Some(Num(counts.failed))
  {
    FoundUnderLabel(counts, totalTests, |SummaryRows(counts, totalTests)| - 3);
  }

  lemma LookupSkipped(counts: Counts, totalTests: nat)
    ensures Lookup(SummaryRows(counts, totalTests), Str(SkippedLabel)) == Some(Num(counts.skipped))
  {
    FoundUnderLabel(counts, totalTests, |SummaryRows(counts, totalTests)| - 2);
  }

  lemma LookupTotal(counts: Counts, totalTests: nat)
    ensures Lookup(SummaryRows(counts, totalTests), Str(TotalLabel)) == Some(Num(totalTests))
  {
    FoundUnderLabel(counts, totalTests, |SummaryRows(counts, totalTests)| - 1);
  }

  /** Every summary row is what a lookup of its label finds. */
  lemma FoundUnderLabel(counts: Counts, totalTests: nat, i: nat)
    requires i < |SummaryRows(counts, totalTests)|
    ensures Lookup(SummaryRows(counts, totalTests), Str(SummaryLabels(counts)[i]))
         == Some(RowValue(SummaryRows(counts, totalTests)[i]))
  {
    LabelsDistinct(counts);
    LookupFirst(SummaryRows(counts, totalTests), i);
  }

  /** No two summary rows share a label, so reading the table by label is unambiguous. */
  lemma LabelsDistinct(counts: Counts)
    ensures forall i, j :: 0 <= i < j < |SummaryLabels(counts)| ==> SummaryLabels(counts)[i] != SummaryLabels(counts)[j]
    ensures counts.flaky == 0 ==> FlakyLabel !in SummaryLabels(counts)
  {
    var ls := SummaryLabels(counts);
    var n := |ls|;
    assert |ls[0]| == 4 && |ls[n - 2]| == 10 && |ls[n - 1]| == 11;
    assert |ls[1]| == 8 && |ls[n - 3]| == 8;
    assert ls[1][0] == '\U{2705}' && ls[n - 3][0] == '\U{274C}';
    if counts.flaky != 0 {
      assert |ls[2]| == 8 && ls[2][0] == '\U{26A0}';
    } else {
      assert FlakyLabel[0] == '\U{26A0}';
    }
  }
}
