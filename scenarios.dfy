/**
 * Worked runs at the default limits (warning 500, critical 1000).
 */
module Scenarios {
  import opened Wrappers
  import opened Text
  import opened Beanschk
  import opened Properties

  const Warn := 500
  const Crit := 1000

  /** Two tubes: their entries one after the other, the worse of their severities. */
  lemma Pair(a: Observation, b: Observation, warn: int, crit: int)
    ensures Breaches([a, b], warn, crit) == BreachOf(a, warn, crit) + BreachOf(b, warn, crit)
    ensures Severity([a, b], warn, crit) == Max(Contribution(a, warn, crit), Contribution(b, warn, crit))
  {
    assert [a, b] == [a] + [b];
    Concat([a], [b], warn, crit);
    Singleton(a, warn, crit);
    Singleton(b, warn, crit);
  }

  /** Three tubes: their entries in order, the worst of their severities. */
  lemma Triple(a: Observation, b: Observation, c: Observation, warn: int, crit: int)
    ensures Breaches([a, b, c], warn, crit)
         == BreachOf(a, warn, crit) + BreachOf(b, warn, crit) + BreachOf(c, warn, crit)
    ensures Severity([a, b, c], warn, crit)
         == Max(Max(Contribution(a, warn, crit), Contribution(b, warn, crit)), Contribution(c, warn, crit))
  {
    assert [a, b, c] == [a, b] + [c];
    Concat([a, b], [c], warn, crit);
    Singleton(c, warn, crit);
    Pair(a, b, warn, crit);
  }

  lemma Formatted700()
    ensures FormatInt(700) == "700"
  {
    assert FormatNat(7) == "7";
    assert FormatNat(70) == "70";
  }

  lemma Formatted1500()
    ensures FormatInt(1500) == "1500"
  {
    assert FormatNat(1) == "1";
    assert FormatNat(15) == "15";
    assert FormatNat(150) == "150";
  }

  /** The entries the examples produce, written out. */
  lemma EntriesOfExamples()
    ensures Entry("B", 700) == "B/700"
    ensures Entry("C", 1500) == "C/1500"
  {
    Formatted700();
    Formatted1500();
  }

  /** Tubes A, B, C at 200, 700 and 1500 ready jobs: B and C breach, in that order. */
  lemma MixedBreaches(a: Observation, b: Observation, c: Observation)
    requires Reads(a, 200) && Reads(b, 700) && Reads(c, 1500)
    requires b.name == "B" && c.name == "C"
    ensures Breaches([a, b, c], Warn, Crit) == ["B/700", "C/1500"]
    ensures Severity([a, b, c], Warn, Crit) == 2
  {
    Triple(a, b, c, Warn, Crit);
    EntriesOfExamples();
  }

  /** The report line for two breaches joins them with a comma and a space. */
  lemma MixedReport()
    ensures Report(["B/700", "C/1500"], 2) == Exit(" tube/jobs: B/700, C/1500", 2)
  {
    assert Join(["B/700", "C/1500"], ", ") == "B/700, C/1500";
  }

  /** Tubes A, B, C at 200, 700 and 1500 ready jobs: exit code 2 and both breaches listed. */
  lemma ExampleMixed(a: Observation, b: Observation, c: Observation)
    requires Reads(a, 200) && Reads(b, 700) && Reads(c, 1500)
    requires b.name == "B" && c.name == "C"
    ensures Outcome(Connected, Success([a, b, c]), Warn, Crit) == Exit(" tube/jobs: B/700, C/1500", 2)
  {
    MixedBreaches(a, b, c);
    MixedReport();
  }

  /** Tubes at 10 and 20 ready jobs: ok, exit code 0. */
  lemma ExampleHealthy(a: Observation, b: Observation)
    requires Reads(a, 10) && Reads(b, 20)
    ensures Outcome(Connected, Success([a, b]), Warn, Crit) == Exit(" ok", 0)
  {
    Pair(a, b, Warn, Crit);
  }

  /** No tubes at all: ok, exit code 0. */
  lemma ExampleEmpty(warn: int, crit: int)
    ensures Outcome(Connected, Success([]), warn, crit) == Exit(" ok", 0)
  {
  }

  /** The first tube's statistics fail, the second is at 700: only the second is listed. */
  lemma StatsFailureBreaches(a: Observation, b: Observation)
    requires a.stats.None? && Reads(b, 700) && b.name == "B"
    ensures Breaches([a, b], Warn, Crit) == ["B/700"]
    ensures Severity([a, b], Warn, Crit) == 1
  {
    Pair(a, b, Warn, Crit);
    EntriesOfExamples();
  }

  /** The report line for one warning-level breach. */
  lemma SingleReport()
    ensures Report(["B/700"], 1) == Exit(" tube/jobs: B/700", 1)
  {
  }

  /** A tube whose statistics failed is skipped; the others are evaluated normally. */
  lemma ExampleStatsFailure(a: Observation, b: Observation)
    requires a.stats.None? && Reads(b, 700) && b.name == "B"
    ensures Outcome(Connected, Success([a, b]), Warn, Crit) == Exit(" tube/jobs: B/700", 1)
  {
    StatsFailureBreaches(a, b);
    SingleReport();
  }

  /** A ready count that is not a number reads as 0, so that tube reports ok. */
  lemma ExampleUnparsable()
    ensures Outcome(Connected, Success([Observation("A", Some(map[ReadyStat := "lots"]))]), Warn, Crit)
         == Exit(" ok", 0)
  {
    var t := Observation("A", Some(map[ReadyStat := "lots"]));
    assert !IsDigit("lots"[0]);
    UnreadableCountIsZero(t.stats.value);
    Singleton(t, Warn, Crit);
  }

  /** A failed dial ends the run with the error text and code 2, whatever the listing. */
  lemma ExampleDialFailure(msg: string, listing: Result<seq<Observation>>)
    ensures Outcome(Refused(msg), listing, Warn, Crit) == Exit(" " + msg, 2)
  {
  }
}
