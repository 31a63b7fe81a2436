/**
 * What the probe promises, proved about the functions that specify it:
 * the exit code is a max-fold of the per-tube severities, the breach list
 * keeps enumeration order, the exit code is 0 exactly when nothing
 * breached, and the output line has the shape `exit` prints.
 */
module Properties {
  import opened Wrappers
  import opened Text
  import opened Beanschk

  /** A tube whose statistics were fetched and whose ready count is `count`. */
  predicate Reads(t: Observation, count: int) {
    t.stats.Some? && ReadyCount(t.stats.value) == count
  }

  // ---- one tube at a time: the effect of one iteration on the accumulators ----

  /** A tube whose statistics failed changes neither the list nor the exit code. */
  lemma StepSkipped(tubes: seq<Observation>, t: Observation, warn: int, crit: int)
    requires t.stats.None?
    ensures Breaches(tubes + [t], warn, crit) == Breaches(tubes, warn, crit)
    ensures Severity(tubes + [t], warn, crit) == Severity(tubes, warn, crit)
  {
  }

  /** With sane limits, a count below the warning limit changes nothing. */
  lemma StepHealthy(tubes: seq<Observation>, t: Observation, count: int, warn: int, crit: int)
    requires Reads(t, count) && count < warn && warn <= crit
    ensures Breaches(tubes + [t], warn, crit) == Breaches(tubes, warn, crit)
    ensures Severity(tubes + [t], warn, crit) == Severity(tubes, warn, crit)
  {
  }

  /** With the limits reversed, a count below the warning limit but at or above
      the critical limit is still critical. */
  lemma StepBelowWarnButCritical(tubes: seq<Observation>, t: Observation, count: int, warn: int, crit: int)
    requires Reads(t, count) && crit <= count < warn
    ensures Breaches(tubes + [t], warn, crit) == Breaches(tubes, warn, crit) + [Entry(t.name, count)]
    ensures Severity(tubes + [t], warn, crit) == 2
  {
  }

  /** A count in the warning band appends exactly its entry and raises the code to at least 1. */
  lemma StepWarning(tubes: seq<Observation>, t: Observation, count: int, warn: int, crit: int)
    requires Reads(t, count) && warn <= count < crit
    ensures Breaches(tubes + [t], warn, crit) == Breaches(tubes, warn, crit) + [t.name + "/" + FormatInt(count)]
    ensures Severity(tubes + [t], warn, crit) == Max(Severity(tubes, warn, crit), 1)
  {
  }

  /** A count at or above the critical limit appends its entry and sets the code to 2. */
  lemma StepCritical(tubes: seq<Observation>, t: Observation, count: int, warn: int, crit: int)
    requires Reads(t, count) && crit <= count
    ensures Breaches(tubes + [t], warn, crit) == Breaches(tubes, warn, crit) + [t.name + "/" + FormatInt(count)]
    ensures Severity(tubes + [t], warn, crit) == 2
  {
  }

  /**
   * When the warning limit is not below the critical one, no count is a
   * warning. A corollary of `Classify`'s contract, spelled out for this case.
   */
  lemma MisconfiguredNeverWarns(count: int, warn: int, crit: int)
    requires crit <= warn
    ensures Classify(count, warn, crit) != 1
    ensures Classify(count, warn, crit) == 2 <==> crit <= count
  {
  }

  /** More ready jobs never mean a lower severity, whatever the limits. */
  lemma ClassifyMonotone(c1: int, c2: int, warn: int, crit: int)
    requires c1 <= c2
    ensures Classify(c1, warn, crit) <= Classify(c2, warn, crit)
  {
  }

  /**
   * A statistic the probe cannot read counts as 0 ready jobs. A corollary of
   * `ReadyCount`'s contract that combines its two failure cases.
   */
  lemma UnreadableCountIsZero(stats: map<string, string>)
    requires ReadyStat !in stats || Atoi(stats[ReadyStat]).None?
    ensures ReadyCount(stats) == 0
  {
  }

  /** A statistic written as a decimal number is read back as that number. */
  lemma DecimalCountIsRead(stats: map<string, string>, k: int)
    requires ReadyStat in stats && stats[ReadyStat] == FormatInt(k)
    ensures ReadyCount(stats) == k
  {
  }

  // ---- the whole loop ----

  /** Evaluating two runs of tubes one after the other is evaluating their concatenation. */
  lemma {:induction false} Concat(a: seq<Observation>, b: seq<Observation>, warn: int, crit: int)
    ensures Breaches(a + b, warn, crit) == Breaches(a, warn, crit) + Breaches(b, warn, crit)
    ensures Severity(a + b, warn, crit) == Max(Severity(a, warn, crit), Severity(b, warn, crit))
    decreases |b|
  {
    if b == [] {
      assert a + b == a;
    } else {
      var b' := b[..|b| - 1];
      assert (a + b)[..|a + b| - 1] == a + b';
      assert (a + b)[|a + b| - 1] == b[|b| - 1];
      Concat(a, b', warn, crit);
    }
  }

  lemma Singleton(t: Observation, warn: int, crit: int)
    ensures Breaches([t], warn, crit) == BreachOf(t, warn, crit)
    ensures Severity([t], warn, crit) == Contribution(t, warn, crit)
  {
  }

  /** The exit code is the largest per-tube severity, or 0 when there is none. */
  lemma {:induction false} SeverityIsMaxFold(tubes: seq<Observation>, warn: int, crit: int)
    ensures forall i :: 0 <= i < |tubes| ==> Contribution(tubes[i], warn, crit) <= Severity(tubes, warn, crit)
    ensures Severity(tubes, warn, crit) == 0
         || exists i :: 0 <= i < |tubes| && Contribution(tubes[i], warn, crit) == Severity(tubes, warn, crit)
  {
    if tubes != [] {
      var init := tubes[..|tubes| - 1];
      SeverityIsMaxFold(init, warn, crit);
      assert forall i :: 0 <= i < |init| ==> tubes[i] == init[i];
    }
  }

  /** Nothing breached exactly when the exit code stayed 0. */
  lemma {:induction false} NoBreachesIffCodeZero(tubes: seq<Observation>, warn: int, crit: int)
    ensures Breaches(tubes, warn, crit) == [] <==> Severity(tubes, warn, crit) == 0
  {
    if tubes != [] {
      NoBreachesIffCodeZero(tubes[..|tubes| - 1], warn, crit);
    }
  }

  /** Each tube adds at most one entry, so there are never more entries than tubes. */
  lemma {:induction false} BreachesBounded(tubes: seq<Observation>, warn: int, crit: int)
    ensures |Breaches(tubes, warn, crit)| <= |tubes|
  {
    if tubes != [] {
      BreachesBounded(tubes[..|tubes| - 1], warn, crit);
    }
  }

  /** A tube whose statistics failed can be removed without changing the result. */
  lemma FailedStatsContributeNothing(a: seq<Observation>, t: Observation, b: seq<Observation>, warn: int, crit: int)
    requires t.stats.None?
    ensures Breaches(a + [t] + b, warn, crit) == Breaches(a + b, warn, crit)
    ensures Severity(a + [t] + b, warn, crit) == Severity(a + b, warn, crit)
  {
    Concat(a + [t], b, warn, crit);
    Concat(a, b, warn, crit);
    StepSkipped(a, t, warn, crit);
  }

  /** The breaches of a prefix of the tubes are a prefix of the breaches of all of them. */
  lemma PrefixBreaches(tubes: seq<Observation>, k: int, warn: int, crit: int)
    requires 0 <= k <= |tubes|
    ensures Breaches(tubes, warn, crit)
         == Breaches(tubes[..k], warn, crit) + Breaches(tubes[k..], warn, crit)
  {
    assert tubes == tubes[..k] + tubes[k..];
    Concat(tubes[..k], tubes[k..], warn, crit);
  }

  /** The entry of a breaching tube sits right after the entries of the tubes before it. */
  lemma EntryPosition(tubes: seq<Observation>, i: int, warn: int, crit: int)
    requires 0 <= i < |tubes| && BreachOf(tubes[i], warn, crit) != []
    ensures |Breaches(tubes[..i], warn, crit)| < |Breaches(tubes, warn, crit)|
    ensures Breaches(tubes, warn, crit)[|Breaches(tubes[..i], warn, crit)|] == BreachOf(tubes[i], warn, crit)[0]
  {
    var rest := tubes[i..];
    assert rest == [tubes[i]] + rest[1..];
    Concat([tubes[i]], rest[1..], warn, crit);
    Singleton(tubes[i], warn, crit);
    PrefixBreaches(tubes, i, warn, crit);
  }

  /** Two breaching tubes appear in the list in the order they were enumerated:
      each entry sits after the entries of the tubes before it. */
  lemma BreachesInOrder(tubes: seq<Observation>, i: int, j: int, warn: int, crit: int)
    requires 0 <= i < j < |tubes|
    requires BreachOf(tubes[i], warn, crit) != [] && BreachOf(tubes[j], warn, crit) != []
    ensures |Breaches(tubes[..i], warn, crit)| < |Breaches(tubes[..j], warn, crit)| < |Breaches(tubes, warn, crit)|
    ensures Breaches(tubes, warn, crit)[|Breaches(tubes[..i], warn, crit)|] == BreachOf(tubes[i], warn, crit)[0]
    ensures Breaches(tubes, warn, crit)[|Breaches(tubes[..j], warn, crit)|] == BreachOf(tubes[j], warn, crit)[0]
  {
    var upToJ := tubes[..j];
    assert upToJ[..i] == tubes[..i] && upToJ[i] == tubes[i];
    EntryPosition(upToJ, i, warn, crit);
    EntryPosition(tubes, i, warn, crit);
    EntryPosition(tubes, j, warn, crit);
  }

  /** The same tube enumerated twice is listed twice: there is no de-duplication. */
  lemma NoDeduplication(t: Observation, warn: int, crit: int)
    requires BreachOf(t, warn, crit) != []
    ensures Breaches([t, t], warn, crit) == BreachOf(t, warn, crit) + BreachOf(t, warn, crit)
    ensures |Breaches([t, t], warn, crit)| == 2
  {
    Concat([t], [t], warn, crit);
    Singleton(t, warn, crit);
    assert [t] + [t] == [t, t];
  }

  // ---- the report ----

  /**
   * Helper for `ReportedOutcome`: the two fixed report lines, with the space
   * `exit` puts before every message. Kept apart because these string facts
   * are much cheaper to prove on their own than inside the larger lemma.
   */
  lemma ReportLiterals()
    ensures " " + "ok" == " ok"
    ensures forall j: string :: " " + ("tube/jobs: " + j) == " tube/jobs: " + j
  {
  }

  /** A failed dial or a failed listing ends the run with code 2 and the error text. */
  lemma FatalOutcome(dial: Dial, listing: Result<seq<Observation>>, warn: int, crit: int)
    requires dial.Refused? || listing.Failure?
    ensures Outcome(dial, listing, warn, crit)
         == Exit(" " + (if dial.Refused? then dial.error else listing.error), 2)
  {
  }

  /** Without a fatal error: "ok" with code 0 when nothing breached, otherwise
      the breach list with the worst severity, which is then 1 or 2. */
  lemma ReportedOutcome(tubes: seq<Observation>, warn: int, crit: int)
    ensures 0 <= Outcome(Connected, Success(tubes), warn, crit).code <= 2
    ensures Breaches(tubes, warn, crit) == [] <==> Outcome(Connected, Success(tubes), warn, crit).code == 0
    ensures Breaches(tubes, warn, crit) == [] ==> Outcome(Connected, Success(tubes), warn, crit) == Exit(" ok", 0)
    ensures Breaches(tubes, warn, crit) != [] ==>
              (Outcome(Connected, Success(tubes), warn, crit)
               == Exit(" tube/jobs: " + Join(Breaches(tubes, warn, crit), ", "), Severity(tubes, warn, crit)))
  {
    NoBreachesIffCodeZero(tubes, warn, crit);
    ReportLiterals();
  }

  /** Without a fatal error, the exit code is 2 exactly when some tube is at or above the
      critical limit, and 1 exactly when some tube breached but none is critical. */
  lemma ExitCodeByTubes(tubes: seq<Observation>, warn: int, crit: int)
    ensures var code := Outcome(Connected, Success(tubes), warn, crit).code;
      && (code == 2 <==> exists i :: 0 <= i < |tubes| && Contribution(tubes[i], warn, crit) == 2)
      && (code == 1 <==>
            && (exists i :: 0 <= i < |tubes| && Contribution(tubes[i], warn, crit) == 1)
            && (forall i :: 0 <= i < |tubes| ==> Contribution(tubes[i], warn, crit) < 2))
  {
    SeverityIsMaxFold(tubes, warn, crit);
  }
}
