/**
 * A Nagios-style probe for a beanstalkd queue server. It reads the number of
 * ready jobs in every tube, compares it with a warning and a critical limit,
 * and ends with one output line and an exit code: 0 ok, 1 warning, 2 critical
 * (or a fatal error before any tube was looked at).
 *
 * The connection is abstracted away: the probe receives the outcome of
 * dialling the server, the outcome of listing its tubes and, per tube, the
 * outcome of fetching its statistics.
 */
module Beanschk {
  import opened Wrappers
  import opened Text

  /** The only statistic the probe reads. */
  const ReadyStat := "current-jobs-ready"

  /** One listed tube: its name and its statistics, or None when fetching them failed. */
  datatype Observation = Observation(name: string, stats: Option<map<string, string>>)

  /** The outcome of dialling the server: connected, or refused with an error text. */
  datatype Dial = Connected | Refused(error: string)

  /** What the process prints and the status it exits with. */
  datatype Exit = Exit(line: string, code: int)

  function Max(a: int, b: int): (m: int)
    ensures m >= a && m >= b && (m == a || m == b)
  {
    if a >= b then a else b
  }

  /** `exit(code, msg)`: one line, the message after a single space. */
  function ExitWith(code: int, msg: string): Exit {
    Exit(" " + msg, code)
  }

  /**
   * The ready count of one tube. A missing statistic reads as the empty
   * string, and the error of `Atoi` is discarded, so both count as 0.
   */
  function ReadyCount(stats: map<string, string>): (n: int)
    ensures ReadyStat !in stats ==> n == 0
    ensures ReadyStat in stats && Atoi(stats[ReadyStat]).None? ==> n == 0
    ensures ReadyStat in stats && Atoi(stats[ReadyStat]).Some? ==> n == Atoi(stats[ReadyStat]).value
  {
    Atoi(if ReadyStat in stats then stats[ReadyStat] else "").GetOr(0)
  }

  /**
   * The severity a ready count calls for. The warning case is tested first
   * but only applies below the critical limit, so a count at or above the
   * critical limit is critical whatever the warning limit is.
   */
  function Classify(count: int, warn: int, crit: int): (level: int)
    ensures 0 <= level <= 2
    ensures level == 2 <==> crit <= count
    ensures level == 1 <==> warn <= count < crit
    ensures level == 0 <==> count < warn && count < crit
  {
    if count >= warn && count < crit then 1
    else if count >= crit then 2
    else 0
  }

  /** The `"%s/%d"` entry for a breaching tube. */
  function Entry(name: string, count: int): string {
    name + "/" + FormatInt(count)
  }

  /** An entry is the tube's name, a slash, and text that reads back as the count. */
  lemma EntryReadsBack(name: string, count: int)
    ensures var r := Entry(name, count);
      && |r| > |name| + 1 && r[..|name|] == name && r[|name|] == '/'
      && Atoi(r[|name| + 1..]) == Some(count)
  {
    var r := Entry(name, count);
    AtoiFormatInt(count);
    assert r[|name| + 1..] == FormatInt(count);
  }

  /** The severity one tube adds; a tube whose statistics failed adds none. */
  function Contribution(t: Observation, warn: int, crit: int): int {
    match t.stats
    case None => 0
    case Some(stats) => Classify(ReadyCount(stats), warn, crit)
  }

  /** The entries one tube adds to the breach list: none, or its own. */
  function BreachOf(t: Observation, warn: int, crit: int): seq<string> {
    match t.stats
    case None => []
    case Some(stats) =>
      if Classify(ReadyCount(stats), warn, crit) > 0 then [Entry(t.name, ReadyCount(stats))] else []
  }

  /** The worst severity over the tubes: a max-fold starting at 0. */
  function Severity(tubes: seq<Observation>, warn: int, crit: int): (s: int)
    ensures 0 <= s <= 2
  {
    if tubes == [] then 0
    else Max(Severity(tubes[..|tubes| - 1], warn, crit), Contribution(tubes[|tubes| - 1], warn, crit))
  }

  /** The breach entries of the tubes, in enumeration order. */
  function Breaches(tubes: seq<Observation>, warn: int, crit: int): seq<string> {
    if tubes == [] then []
    else Breaches(tubes[..|tubes| - 1], warn, crit) + BreachOf(tubes[|tubes| - 1], warn, crit)
  }

  /** The reporting branch: the breach list if there is one, else "ok". */
  function Report(errors: seq<string>, exitCode: int): Exit {
    if |errors| > 0 then ExitWith(exitCode, "tube/jobs: " + Join(errors, ", "))
    else ExitWith(exitCode, "ok")
  }

  /**
   * The whole run as a value: a failed dial or a failed listing is fatal
   * (`check`), otherwise the tubes are evaluated and reported.
   */
  function Outcome(dial: Dial, listing: Result<seq<Observation>>, warn: int, crit: int): (e: Exit)
    ensures 0 <= e.code <= 2
    ensures (dial.Refused? || listing.Failure?) ==> e.code == 2
  {
    if dial.Refused? then ExitWith(2, dial.error)
    else if listing.Failure? then ExitWith(2, listing.error)
    else Report(Breaches(listing.value, warn, crit), Severity(listing.value, warn, crit))
  }

  /** The two package-level variables the loop accumulates into. */
  class RunState {
    var errors: seq<string>
    var exitCode: int

    /** Their start values: no entries, exit code 0. */
    constructor ()
      ensures errors == [] && exitCode == 0
    {
      errors := [];
      exitCode := 0;
    }

    /** Raises the exit code to `code`, never lowers it. */
    method SetExitCode(code: int)
      modifies this
      ensures exitCode == Max(old(exitCode), code)
      ensures exitCode >= old(exitCode)
      ensures errors == old(errors)
    {
      if code > exitCode {
        exitCode := code;
      }
    }
  }

  /**
   * `main`: dial, list, evaluate every tube in order, report. A tube whose
   * statistics cannot be fetched is skipped.
   */
  method Probe(dial: Dial, listing: Result<seq<Observation>>, warn: int, crit: int) returns (out: Exit)
    ensures out == Outcome(dial, listing, warn, crit)
    ensures 0 <= out.code <= 2
  {
    var st := new RunState();
    if dial.Refused? {
      return ExitWith(2, dial.error);
    }
    if listing.Failure? {
      return ExitWith(2, listing.error);
    }
    var tubes := listing.value;
    for i := 0 to |tubes|
      invariant st.errors == Breaches(tubes[..i], warn, crit)
      invariant st.exitCode == Severity(tubes[..i], warn, crit)
    {
      assert tubes[..i + 1][..i] == tubes[..i];
      var t := tubes[i];
      if t.stats.None? {
        continue;
      }
      var currentJobs := ReadyCount(t.stats.value);
      if currentJobs >= warn && currentJobs < crit {
        st.errors := st.errors + [Entry(t.name, currentJobs)];
        st.SetExitCode(1);
      } else if currentJobs >= crit {
        st.errors := st.errors + [Entry(t.name, currentJobs)];
        st.SetExitCode(2);
      }
    }
    assert tubes[..|tubes|] == tubes;
    if |st.errors| > 0 {
      return ExitWith(st.exitCode, "tube/jobs: " + Join(st.errors, ", "));
    }
    return ExitWith(st.exitCode, "ok");
  }
}
