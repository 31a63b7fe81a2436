# beanschk in Dafny

`beanschk` is a Nagios-style probe for a beanstalkd job-queue server. It dials
the server, lists its tubes (queues), and reads each tube's
`current-jobs-ready` statistic. It compares that count with a warning limit
and a critical limit. It then prints exactly one line and exits with a
monitoring status: 0 ok, 1 warning, 2 critical or fatal.

This project models that logic from `beanschk.go` and proves what it promises:

- `wrappers.dfy`: `Option` and `Result` (a value or an error message), standing
  in for Go's `(value, err)` pairs.
- `text.dfy` (module `Text`): the standard-library text functions the probe
  uses. These are `strconv.Atoi` (optional sign, then decimal digits; anything
  else is an error), the `%d` verb (`FormatNat`, `FormatInt`) and
  `strings.Join`.
- `beanschk.dfy` (module `Beanschk`):
  - the class `RunState`, holding the two package-level variables `errors` (a
    `seq<string>`) and `exit_code`, with `SetExitCode` as a method;
  - the method `Probe`, which is `main`. It checks the dial and listing
    outcomes, runs the per-tube loop (`for` with `continue` on a stats failure)
    over a fresh `RunState`, and then reports;
  - the specification functions that `Probe` is proved against: `ReadyCount`,
    `Classify`, `BreachOf`, `Contribution`, `Breaches`, `Severity`, `Report`
    and `Outcome`.
- `properties.dfy` (module `Properties`): lemmas about one iteration, about
  the whole loop and about the report.
- `scenarios.dfy` (module `Scenarios`): worked runs at the default limits 500
  and 1000.

The queue server is abstracted away. `Probe` receives:

- the result of dialling (`Dial`: `Connected`, or `Refused` with the error text);
- the result of listing tubes (`Result<seq<Observation>>`);
- per tube, an `Observation`: its name plus its statistics map, or `None`
  when `Stats()` failed.

A missing `current-jobs-ready` key reads as the empty string, as a Go map
lookup does. `Atoi` then fails on it, and because the error is discarded the
count is 0. Terminating the process (`exit`, `check`) is modelled as
returning an `Exit(line, code)` value.

The `switch` tests `warn <= count < crit` first and then `count >= crit`,
so a count below the warning limit is healthy only when `warn <= crit`
(`Properties.StepHealthy`). When `crit < warn`, a count in `crit..warn-1` is
still listed as critical (`Properties.StepBelowWarnButCritical`).

## Model

| member | source | states |
|---|---|---|
| `Beanschk.RunState.constructor` | beanschk.go:17-18 | the accumulators start with no entries and exit code 0 |
| `Beanschk.RunState.SetExitCode` | beanschk.go:36-40 | the exit code becomes the larger of its old value and `code`; it never decreases; `errors` is unchanged |
| `Beanschk.Probe` | beanschk.go:42-79 | what `main` prints and exits with equals `Outcome` of its inputs, and the exit code lies in 0..2; the loop keeps `errors` equal to the breaches of the tubes seen so far and `exit_code` equal to their max severity |
| `Beanschk.ExitWith` | beanschk.go:31-34 | `exit(code, msg)`: the message after one space, with `code`; reference definition, no ensures; `Properties.FatalOutcome` and `Properties.ReportedOutcome` state the line and the code |
| `Beanschk.Entry` | beanschk.go:66-69 | the `"%s/%d"` entry of a breaching tube; reference definition, no ensures; `Beanschk.EntryReadsBack` states what it holds and `Properties.StepWarning`/`StepCritical` pin it as the appended entry |
| `Beanschk.EntryReadsBack` | beanschk.go:66-69 | an entry is the tube name, then `/`, then text that `Atoi` reads back as the count |
| `Beanschk.Contribution` | beanschk.go:56-71 | the severity one tube adds (0 for a failed stats fetch, else `Classify` of its count); reference definition, no ensures; `Probe` is proved equal to the fold over it, and `Properties.Step*` state its cases |
| `Beanschk.BreachOf` | beanschk.go:56-71 | the entries one tube adds (none, or its own entry); reference definition, no ensures; `Probe` is proved equal to the concatenation over it, and `Properties.Step*` state its cases |
| `Beanschk.Breaches` | beanschk.go:53-72 | the breach entries in enumeration order; reference definition; `Probe`'s loop invariant keeps `errors` equal to it, and `Properties.BreachesBounded`, `BreachesInOrder` and `NoBreachesIffCodeZero` state its properties |
| `Beanschk.Report` | beanschk.go:74-78 | the reporting branch; reference definition, no ensures; `Properties.ReportedOutcome` states the line and the code |
| `Beanschk.Outcome` | beanschk.go:42-79 | the whole run: the code is in 0..2, and 2 whenever the dial or the listing failed; `Probe` is proved equal to it |
| `Beanschk.ReadyCount` | beanschk.go:62 | the ready count is the parsed statistic; it is 0 when the statistic is missing and 0 when it does not parse |
| `Beanschk.Classify` | beanschk.go:64-71 | the severity is always 0, 1 or 2; it is 2 iff count >= crit, 1 iff warn <= count < crit, and 0 iff the count is below both limits |
| `Beanschk.Severity` | beanschk.go:53-72 | the running exit code after any run of tubes lies in 0..2 |
| `Text.Atoi` | beanschk.go:62 | a parse succeeds iff the text is one or more decimal digits, optionally after one `+` or `-`; the digits give the number they denote, negated after `-` |
| `Text.FormatNat` | beanschk.go:66 | `%d` of a natural number is a non-empty run of digits that denotes that number; it starts with `0` only when it is exactly `0` |
| `Text.FormatInt` | beanschk.go:66 | `%d` of an integer starts with `-` exactly when it is negative; a non-negative number is its digits, starting with `0` only when it is exactly `0`; a negative one is `-` then the digits of its magnitude, with no leading zero |
| `Text.AtoiFormatInt` | beanschk.go:62 | parsing what `%d` printed gives back the number (round trip) |
| `Text.Join` | beanschk.go:75 | joining a single entry yields that entry |
| `Text.JoinSnoc` | beanschk.go:75 | joining one more entry appends the separator and that entry |
| `Text.JoinLength` | beanschk.go:75 | the joined length is the parts' total length plus one separator per gap |
| `Properties.StepSkipped` | beanschk.go:56-60 | a tube whose stats fetch failed leaves both `errors` and the exit code unchanged |
| `Properties.StepHealthy` | beanschk.go:64-71 | with warn <= crit, a count below the warning limit leaves both accumulators unchanged (no default case) |
| `Properties.StepBelowWarnButCritical` | beanschk.go:68-70 | with crit <= count < warn, the tube is still listed and the exit code becomes 2 |
| `Properties.StepWarning` | beanschk.go:65-67 | warn <= count < crit appends exactly `name + "/" + %d(count)` and the exit code becomes max(old, 1) |
| `Properties.StepCritical` | beanschk.go:68-70 | count >= crit appends exactly `name + "/" + %d(count)` and the exit code becomes 2 |
| `Properties.MisconfiguredNeverWarns` | beanschk.go:65-70 | when warn >= crit no count is a warning, and a count is critical iff it reaches crit |
| `Properties.ClassifyMonotone` | beanschk.go:64-71 | a larger ready count never gives a lower severity, for any pair of limits |
| `Properties.UnreadableCountIsZero` | beanschk.go:62 | a missing or unparsable statistic counts as 0 ready jobs |
| `Properties.DecimalCountIsRead` | beanschk.go:62 | a statistic written in decimal is read back as that number |
| `Properties.Concat` | beanschk.go:53-72 | evaluating `a` then `b` gives the concatenated breach lists and the max of the two severities |
| `Properties.SeverityIsMaxFold` | beanschk.go:53-72 | the final exit code is at least every tube's severity, and equals one of them (or 0 with no tubes) |
| `Properties.NoBreachesIffCodeZero` | beanschk.go:53-72 | the breach list is empty iff the exit code is 0 |
| `Properties.BreachesBounded` | beanschk.go:53-72 | there are never more entries than tubes |
| `Properties.FailedStatsContributeNothing` | beanschk.go:56-60 | removing a tube whose stats failed, anywhere in the list, changes neither result |
| `Properties.PrefixBreaches` | beanschk.go:53-72 | the breaches of a prefix of the tubes are a prefix of all the breaches |
| `Properties.EntryPosition` | beanschk.go:53-72 | a breaching tube's entry comes directly after the entries of the tubes before it |
| `Properties.BreachesInOrder` | beanschk.go:53-72 | two breaching tubes are listed in enumeration order: each one's entry sits right after the entries of the tubes before it, so the earlier tube's entry comes first |
| `Properties.NoDeduplication` | beanschk.go:66-69 | a tube enumerated twice is listed twice |
| `Properties.FatalOutcome` | beanschk.go:25-34 | a failed dial or listing gives the line `" " + error` with code 2 |
| `Properties.ReportedOutcome` | beanschk.go:74-78 | without a fatal error the code is 0..2; ` ok` with code 0 iff nothing breached; otherwise ` tube/jobs: ` + the entries joined with `, `, with the max severity as the code |
| `Properties.ExitCodeByTubes` | beanschk.go:64-72 | the code is 2 iff some tube is critical, and 1 iff some tube is a warning and none is critical |
| `Scenarios.Pair` | beanschk.go:53-72 | two tubes: their entries in order, the worse severity |
| `Scenarios.Triple` | beanschk.go:53-72 | three tubes: their entries in order, the worst severity |
| `Scenarios.EntriesOfExamples` | beanschk.go:66 | `B` at 700 and `C` at 1500 give `B/700` and `C/1500` |
| `Scenarios.MixedBreaches` | beanschk.go:53-72 | tubes at 200, 700 and 1500 yield the breach list `[B/700, C/1500]` and code 2 |
| `Scenarios.MixedReport` | beanschk.go:74-75 | two breaches are reported as ` tube/jobs: B/700, C/1500` |
| `Scenarios.ExampleMixed` | beanschk.go:42-79 | limits 500/1000 and tubes at 200, 700 and 1500 print ` tube/jobs: B/700, C/1500` and exit 2 |
| `Scenarios.ExampleHealthy` | beanschk.go:42-79 | tubes at 10 and 20 print ` ok` and exit 0 |
| `Scenarios.ExampleEmpty` | beanschk.go:74-78 | no tubes print ` ok` and exit 0 |
| `Scenarios.StatsFailureBreaches` | beanschk.go:56-67 | a failed stats fetch then a tube at 700 yield `[B/700]` and code 1 |
| `Scenarios.SingleReport` | beanschk.go:74-75 | one breach is reported as ` tube/jobs: B/700` |
| `Scenarios.ExampleStatsFailure` | beanschk.go:53-79 | a failed stats fetch is skipped while the other tube is still reported |
| `Scenarios.ExampleUnparsable` | beanschk.go:62 | a ready count of `lots` reads as 0, and the run reports ` ok` |
| `Scenarios.ExampleDialFailure` | beanschk.go:43-45 | a failed dial prints the error after a space and exits 2, whatever the listing would have been |

## Left out

- Flag parsing (`flag.String`, `flag.Int`, `flag.Parse`, beanschk.go:13-15 and 21-23): the server address is not modelled, and the warning and critical limits are parameters of `Probe`.
- The beanstalk client (`beanstalk.Dial`, `ListTubes`, `Tube.Stats`): its results are the inputs of `Probe`. That client library is not part of this model.
- `defer c.Close()` (beanschk.go:47): every path ends in `os.Exit` (beanschk.go:33, reached from lines 27, 75 and 78), which skips deferred calls, so the connection is never actually closed; nothing in the model stands for it.
- `fmt.Println` and `os.Exit` (beanschk.go:32-33): modelled as returning an `Exit` value, not as printing and terminating.
- Text.Atoi: does not model Go's 64-bit range check. On overflow Go's `Atoi` returns the clamped value (the largest or smallest `int`) with a range error. The probe discards that error and would use the clamped value; the model reads the exact number instead. For text of 19 or more bytes Go also stops at the first digit that overflows, before it looks at the characters after it: `99999999999999999999x` gives the largest `int` in Go (the tube is listed as critical), while the model rejects the trailing `x` and counts 0 (healthy).
- Beanschk.Probe: counts and limits are unbounded integers, not Go's 64-bit `int`. Comparisons agree for every value a 64-bit `int` can hold.
- Text.Atoi: works on characters rather than bytes. Only ASCII digits and signs are accepted either way, so the outcomes agree.
