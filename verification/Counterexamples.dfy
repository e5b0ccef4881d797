/** Inputs on which a promise of the source fails: one for each exact condition proved
    in the other modules. */
module Counterexamples {
  import opened Base
  import Markers
  import Merging
  import Projection
  import ReportText
  import ReportPrint
  import ReportRoundTrip
  import RunIds
  import Timeline

  /* ---- merging ---- */

  // A map, then a scalar, then a map at one key: the order of merging shows.
  lemma MergeOrderShows(d: Merging.Value<int>, w: Merging.Value<int>, n: Merging.Value<int>)
    requires d == Merging.Map(map["k" := Merging.Map(map["a" := Merging.Leaf(1)])])
    requires w == Merging.Map(map["k" := Merging.Leaf(0)])
    requires n == Merging.Map(map["k" := Merging.Map(map["b" := Merging.Leaf(2)])])
    ensures Merging.Left(d, w, n) != Merging.Right(d, w, n)
  {
    var dk := Merging.At(d.entries, "k");
    assert "a" in dk.entries && "a" !in n.entries["k"].entries;
    assert !Merging.Covered(dk, n.entries["k"]);
    assert !Merging.Regroups(d, w, n);
    hide Merging.Merged, Merging.Covered, Merging.Regroups;
    Merging.RegroupExact(d, w, n);
  }

  /* ---- reports ---- */

  function Summed(summary: string): ReportText.Report { ReportText.Report(true, "end", summary, "None") }

  lemma SummedSound(summary: string)
    requires summary != "" && !ReportText.Ws(summary[0]) && !ReportText.Ws(summary[|summary| - 1])
    ensures ReportPrint.Sound(Summed(summary))
  {
    ReportPrint.TrimFixed(summary);
    ReportPrint.TrimFixed("end");
    ReportPrint.TrimFixed("None");
    ReportPrint.WordLines("end");
  }

  // A first line that ends in a space comes back without it.
  lemma TrailingSpaceLost(order: seq<ReportText.Label>)
    requires ReportPrint.Permutation(order)
    ensures ReportText.Parsed(ReportPrint.Print(Summed("a \nb"), order)) != Some(Summed("a \nb"))
  {
    var first := "a ";
    assert "a \nb" == first + "\n" + "b";
    SummedSound("a \nb");
    ReportText.LinesAppend(first, "b");
    ReportPrint.WordLines(first);
    ReportPrint.TrimRightPrefix(first);
    assert !ReportPrint.Flush1("a \nb");
    hide ReportText.Parsed, ReportPrint.Print, ReportPrint.Sound, Summed;
    ReportRoundTrip.RoundTrip(Summed("a \nb"), order);
    assert Summed("a \nb").summary == "a \nb" by { SummedIs("a \nb"); }
  }

  lemma SummedIs(summary: string)
    ensures Summed(summary).summary == summary
  {
  }

  // A carriage return inside the first line hides the label it stands behind.
  lemma CarriageReturnRefused(order: seq<ReportText.Label>)
    requires ReportPrint.Permutation(order)
    ensures ReportText.Parsed(ReportPrint.Print(Summed("a\rb"), order)) != Some(Summed("a\rb"))
  {
    var v := "a\rb";
    SummedSound(v);
    ReportPrint.WordLines(v);
    ReportPrint.TrimRightPrefix(v);
    assert v[1] == '\r' && ReportText.Break(v[1]);
    assert !ReportPrint.Opens(v);
    hide ReportText.Parsed, ReportPrint.Print, ReportPrint.Sound, Summed;
    ReportRoundTrip.RoundTrip(Summed(v), order);
    SummedIs(v);
  }

  lemma StatusLineMarks()
    ensures ReportPrint.Marks("STATUS: b")
  {
    ReportPrint.TrimRightPrefix("b");
    ReportPrint.HeadReads(ReportText.Status, "b");
    ReportPrint.NameShape(ReportText.Status);
    assert ReportText.Name(ReportText.Status) + ": " + "b" == "STATUS: b";
    hide ReportText.MatchLabel, ReportText.TrimRight, ReportText.Known, ReportText.Name;
  }

  lemma Unlabelling(first: string, second: string)
    requires ReportPrint.Marks(second) && ReportText.NoNewline(first) && ReportText.NoNewline(second)
    ensures !ReportPrint.Unlabelled(first + "\n" + second)
  {
    ReportText.LinesAppend(first, second);
    ReportPrint.WordLines(first);
    ReportPrint.WordLines(second);
    hide ReportPrint.Marks, ReportText.Lines;
    assert ReportText.Lines(first + "\n" + second)[1] == second;
  }

  lemma Refused(v: string, order: seq<ReportText.Label>)
    requires ReportPrint.Permutation(order) && ReportPrint.Sound(Summed(v)) && !ReportRoundTrip.Keeps(v)
    ensures ReportText.Parsed(ReportPrint.Print(Summed(v), order)) != Some(Summed(v))
  {
    SummedIs(v);
    hide ReportText.Parsed, ReportPrint.Print, ReportPrint.Sound, Summed, ReportRoundTrip.Keeps;
    ReportRoundTrip.RoundTrip(Summed(v), order);
  }

  // A later line of a summary that reads as a label is taken for one.
  lemma LabelLineRefused(v: string, order: seq<ReportText.Label>)
    requires v == "a" + "\n" + "STATUS: b" && ReportPrint.Permutation(order)
    ensures ReportText.Parsed(ReportPrint.Print(Summed(v), order)) != Some(Summed(v))
  {
    SummedSound(v);
    StatusLineMarks();
    hide ReportText.Parsed, ReportPrint.Print, ReportPrint.Sound, Summed, ReportPrint.Marks, ReportPrint.Unlabelled, ReportPrint.Permutation;
    Unlabelling("a", "STATUS: b");
    Refused(v, order);
  }

  /* ---- run identifiers ---- */

  // A ticket named like a restart of another shares its identifier.
  lemma TicketPosesAsRestart()
    ensures RunIds.IdOf(RunIds.Execution("r", "w", "t~attempt~2", 1)) == RunIds.IdOf(RunIds.Execution("r", "w", "t", 2))
  {
    var a, b := RunIds.Execution("r", "w", "t~attempt~2", 1), RunIds.Execution("r", "w", "t", 2);
    assert RunIds.Decimal(2) == "2";
    assert a.ticket == b.ticket + RunIds.ATTEMPT + "2";
    hide RunIds.IdOf, RunIds.Decimal, RunIds.ATTEMPT;
    RunIds.ExecutionIdIff(a, b);
  }

  lemma PlainNames()
    ensures RunIds.AllPlain("a") && RunIds.AllPlain("team-a") && RunIds.Suffix("a", "team-a")
    ensures RunIds.Parts("team-a", "w", "t") && RunIds.Parts("a", "w", "t")
  {
  }

  // Cancelling in repo team-a marks the same ticket of repo a as cancelled.
  lemma CancellationAnswersTwice()
    ensures Markers.Contains(RunIds.CancellationMarker(RunIds.NewRunID("team-a", "w", "t")),
                             RunIds.CancellationMarker(RunIds.NewRunID("a", "w", "t")))
  {
    PlainNames();
    CancellationSuffix("team-a", "a", "w", "t");
  }

  lemma CancellationSuffix(longer: string, shorter: string, w: string, t: string)
    requires RunIds.AllPlain(longer) && RunIds.AllPlain(shorter) && RunIds.Suffix(shorter, longer)
    requires RunIds.Parts(longer, w, t) && RunIds.Parts(shorter, w, t)
    ensures Markers.Contains(RunIds.CancellationMarker(RunIds.NewRunID(longer, w, t)), RunIds.CancellationMarker(RunIds.NewRunID(shorter, w, t)))
  {
    RunIds.EscapePlain(longer);
    RunIds.EscapePlain(shorter);
    hide RunIds.Escape, RunIds.NewRunID, RunIds.CancellationMarker, Markers.Contains, RunIds.AllPlain, RunIds.CANCELLATION;
    RunIds.CancellationContains(longer, w, t, shorter, w, t);
  }

  /* ---- timelines ---- */

  // Cancellation while the first step's upsert was scheduled and had not run.
  lemma TimelinesDiffer(es: seq<Timeline.Event>, bs: seq<Timeline.Both>)
    requires es == [Timeline.Scheduled(Timeline.Upsert(0, Projection.StepRunning, false)), Timeline.Claim, Timeline.Observed,
                    Timeline.Scheduled(Timeline.Update(Projection.Canceled, true))]
    requires Timeline.Trace(es, bs)
    ensures Timeline.Track(es).Some? && Timeline.Track(es).value.stage == Timeline.Closed
    ensures bs[4].sql != bs[4].fold
  {
    assert es[..3][..2] == es[..2] && es[..2][..1] == es[..1] && es[..1][..0] == [];
    assert Timeline.Track(es[..0]) == Some(Timeline.Position(Timeline.Gap(0), Timeline.Going, Projection.Pending));
    assert Timeline.Track(es[..1]) == Some(Timeline.Position(Timeline.Opening(0), Timeline.Going, Projection.Pending));
    assert Timeline.Track(es[..2]) == Some(Timeline.Position(Timeline.Opening(0), Timeline.Going, Projection.Pending));
    assert Timeline.Track(es[..3]) == Some(Timeline.Position(Timeline.Opening(0), Timeline.Cleanup, Projection.Pending));
    assert Timeline.Track(es) == Some(Timeline.Position(Timeline.Opening(0), Timeline.Closed, Projection.Pending));
    hide Timeline.Track, Timeline.Trace, Timeline.Moved;
    Timeline.ClosedTimelines(es, bs);
  }
}
