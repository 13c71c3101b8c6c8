/**
 * LogReport: each training step it adds the (filtered) observation of the step to its summarizer;
 * when its trigger fires it appends one record (the summarizer's mean, with the trainer's epoch,
 * iteration count and elapsed time) to its log, rewrites the persisted log with the whole list,
 * optionally prints the record as a fixed-width line, and starts a fresh summarizer.
 */
module LogReporting {
  import opened Outcomes
  import opened Text
  import ExtensionBase

  /** A reported value: an integer counter or a floating-point measurement. */
  datatype Scalar = Int(i: int) | Float(x: real)

  /** One step's observation, and one record of the log. */
  type Observation = map<string, Scalar>

  /** The summarizer's `compute_mean`, as a function of the observations added since it was created. */
  type Mean = seq<Observation> -> Observation

  /** The keys each record takes from the trainer, whatever the mean holds under them. */
  const Overridden: set<string> := {"epoch", "iteration", "elapsed_time"}

  /** The observation added to the summarizer: all of it without keys, else only the requested keys it has. */
  function Filter(keys: Option<seq<string>>, obs: Observation): (r: Observation)
    ensures forall k :: k in r <==> k in obs && (keys.None? || k in keys.value)
    ensures forall k :: k in r ==> r[k] == obs[k]
  {
    match keys
    case None => obs
    case Some(ks) => map k | k in obs && k in ks :: obs[k]
  }

  /** The record appended on a fire: the mean, then `epoch`, `iteration` and `elapsed_time` set over it. */
  function MakeRecord(mean: Observation, epoch: int, iteration: int, elapsed: real): (r: Observation)
    ensures r.Keys == mean.Keys + Overridden
    ensures r["epoch"] == Int(epoch) && r["iteration"] == Int(iteration) && r["elapsed_time"] == Float(elapsed)
    ensures forall k :: k in mean && k !in Overridden ==> r[k] == mean[k]
  {
    mean["epoch" := Int(epoch)]["iteration" := Int(iteration)]["elapsed_time" := Float(elapsed)]
  }

  // ---------------------------------------------------------------------------------------------
  // The sequence of calls, as a specification

  /** What one call sees: the trainer's observation, the trigger's answer and the trainer's counters. */
  datatype Step = Step(obs: Observation, fired: bool, epoch: int, iteration: int, elapsed: real)

  /** The observations in the current summarizer, and the log. */
  datatype LogState = LogState(pending: seq<Observation>, log: seq<Observation>)

  /**
   * One call: add the filtered observation, then on a fire append the record and start afresh.
   * Earlier records never change; exactly one record is appended when, and only when, the call fires.
   */
  function Advance(keys: Option<seq<string>>, mean: Mean, st: LogState, s: Step): (r: LogState)
    ensures |r.log| == |st.log| + (if s.fired then 1 else 0)
    ensures r.log[..|st.log|] == st.log
    ensures s.fired ==> r.pending == []
    ensures !s.fired ==> r.log == st.log && |r.pending| == |st.pending| + 1
  {
    var pending := st.pending + [Filter(keys, s.obs)];
    if s.fired then LogState([], st.log + [MakeRecord(mean(pending), s.epoch, s.iteration, s.elapsed)])
    else LogState(pending, st.log)
  }

  /** The state after the given calls, starting from an empty summarizer and an empty log. */
  function Replay(keys: Option<seq<string>>, mean: Mean, steps: seq<Step>): LogState
  {
    if steps == [] then LogState([], [])
    else Advance(keys, mean, Replay(keys, mean, steps[..|steps| - 1]), steps[|steps| - 1])
  }

  /** The number of calls whose trigger fired. */
  function CountFired(steps: seq<Step>): nat
  {
    if steps == [] then 0
    else CountFired(steps[..|steps| - 1]) + (if steps[|steps| - 1].fired then 1 else 0)
  }

  /** The index just after the last call that fired (0 if none did): where the current interval starts. */
  function SinceLastFire(steps: seq<Step>): (i: nat)
    ensures i <= |steps|
    ensures 0 < i ==> steps[i - 1].fired
    ensures forall j :: i <= j < |steps| ==> !steps[j].fired
  {
    if steps == [] then 0
    else if steps[|steps| - 1].fired then |steps|
    else SinceLastFire(steps[..|steps| - 1])
  }

  /** The filtered observations of the given calls, in order. */
  function FilterAll(keys: Option<seq<string>>, steps: seq<Step>): seq<Observation>
  {
    seq(|steps|, i requires 0 <= i < |steps| => Filter(keys, steps[i].obs))
  }

  /** The log holds one record per fired call. */
  lemma {:induction false} ReplayLength(keys: Option<seq<string>>, mean: Mean, steps: seq<Step>)
    ensures |Replay(keys, mean, steps).log| == CountFired(steps)
  {
    if steps != [] {
      ReplayLength(keys, mean, steps[..|steps| - 1]);
    }
  }

  /** The log only grows: the log after a prefix of the calls is a prefix of the log after all of them. */
  lemma {:induction false} ReplayGrows(keys: Option<seq<string>>, mean: Mean, steps: seq<Step>, n: nat)
    requires n <= |steps|
    ensures Replay(keys, mean, steps[..n]).log <= Replay(keys, mean, steps).log
  {
    if n == |steps| {
      assert steps[..n] == steps;
    } else {
      var init := steps[..|steps| - 1];
      assert steps[..n] == init[..n];
      ReplayGrows(keys, mean, init, n);
    }
  }

  /** The summarizer holds exactly the filtered observations of the calls since the last fire. */
  lemma {:induction false} ReplayPending(keys: Option<seq<string>>, mean: Mean, steps: seq<Step>)
    ensures Replay(keys, mean, steps).pending == FilterAll(keys, steps[SinceLastFire(steps)..])
  {
    if steps == [] {
    } else {
      var init := steps[..|steps| - 1];
      var last := steps[|steps| - 1];
      ReplayPending(keys, mean, init);
      if !last.fired {
        var start := SinceLastFire(init);
        assert SinceLastFire(steps) == start;
        assert steps[start..] == init[start..] + [last];
        assert FilterAll(keys, steps[start..]) == FilterAll(keys, init[start..]) + [Filter(keys, last.obs)];
      }
    }
  }

  /**
   * The record of a fired call i sits at position "number of earlier fires" in the log. It is the
   * mean of the filtered observations from the call after the previous fire up to and including
   * call i, with call i's epoch, iteration and elapsed time.
   */
  lemma ReplayRecord(keys: Option<seq<string>>, mean: Mean, steps: seq<Step>, i: nat)
    requires i < |steps| && steps[i].fired
    ensures CountFired(steps[..i]) < |Replay(keys, mean, steps).log|
    ensures Replay(keys, mean, steps).log[CountFired(steps[..i])]
         == MakeRecord(mean(FilterAll(keys, steps[SinceLastFire(steps[..i])..i + 1])),
                       steps[i].epoch, steps[i].iteration, steps[i].elapsed)
  {
    var pre := steps[..i];
    var upto := steps[..i + 1];
    assert upto[..i] == pre;
    assert upto[i] == steps[i];
    ReplayPending(keys, mean, pre);
    ReplayLength(keys, mean, pre);
    ReplayGrows(keys, mean, steps, i + 1);
    var start := SinceLastFire(pre);
    assert steps[start..i + 1] == pre[start..] + [steps[i]];
    assert FilterAll(keys, steps[start..i + 1]) == FilterAll(keys, pre[start..]) + [Filter(keys, steps[i].obs)];
  }

  // ---------------------------------------------------------------------------------------------
  // Console columns

  /** Python's two renderings used by printout, `f'{v:}'` and `f'{v:.5f}'`; their text is left abstract. */
  datatype Formatter = Formatter(plain: Scalar -> string, fixed5: Scalar -> string)

  /** The keys printed in a narrow column. */
  predicate Narrow(key: string)
  {
    key == "epoch" || key == "iteration"
  }

  /** The column width of a key: 10 for `epoch` and `iteration`, 20 for every other key. */
  function Width(key: string): nat
  {
    if Narrow(key) then 10 else 20
  }

  /** The text of a present value in its column. */
  function Render(fmt: Formatter, key: string, v: Scalar): string
  {
    if Narrow(key) then fmt.plain(v) else fmt.fixed5(v)
  }

  /** The segment printed for one key of a record; a missing key is blank padding, not an error. */
  function Cell(key: string, rec: Observation, fmt: Formatter): (r: string)
    ensures key !in rec ==> r == Repeat(' ', 20)
    ensures key in rec ==> var v := Render(fmt, key, rec[key]);
      && |r| == (if |v| < Width(key) then Width(key) else |v|)
      && r[..|v|] == v
      && forall i :: |v| <= i < |r| ==> r[i] == ' '
  {
    if Narrow(key) then
      if key in rec then LJust(fmt.plain(rec[key]), 10) else LJust("", 20)
    else
      if key in rec then LJust(fmt.fixed5(rec[key]), 20) else LJust("", 20)
  }

  /**
   * The header row: each key left-justified to its column width. It is never narrower than the
   * columns, and exactly as wide when every key name fits its column.
   */
  function Header(keys: seq<string>): (r: string)
    ensures |r| >= TotalWidth(keys)
    ensures (forall k :: k in keys ==> |k| <= Width(k)) ==> |r| == TotalWidth(keys)
  {
    if keys == [] then ""
    else
      var init, k := keys[..|keys| - 1], keys[|keys| - 1];
      assert k in keys && forall j :: j in init ==> j in keys;
      Header(init) + LJust(k, Width(k))
  }

  /**
   * The row printed for a record: one segment per key, in the order of keys. Since a segment is never
   * truncated, the row is never narrower than the columns.
   */
  function Line(keys: seq<string>, rec: Observation, fmt: Formatter): (r: string)
    ensures |r| >= TotalWidth(keys)
  {
    if keys == [] then "" else Line(keys[..|keys| - 1], rec, fmt) + Cell(keys[|keys| - 1], rec, fmt)
  }

  /** The sum of the column widths of keys. */
  function TotalWidth(keys: seq<string>): nat
  {
    if keys == [] then 0 else TotalWidth(keys[..|keys| - 1]) + Width(keys[|keys| - 1])
  }

  /** The row for the first i + 1 keys is the row for the first i keys followed by key i's segment. */
  lemma LineSnoc(keys: seq<string>, i: nat, rec: Observation, fmt: Formatter)
    requires i < |keys|
    ensures Line(keys[..i + 1], rec, fmt) == Line(keys[..i], rec, fmt) + Cell(keys[i], rec, fmt)
  {
    assert keys[..i + 1][..i] == keys[..i];
  }

  /**
   * A record that has `epoch` and `iteration` (every record LogReport appends does) prints as a row as
   * wide as the header, column for column, as long as every key name and every value fits its column.
   */
  lemma {:induction false} LineMatchesHeader(keys: seq<string>, rec: Observation, fmt: Formatter)
    requires "epoch" in rec && "iteration" in rec
    requires forall k :: k in keys ==> |k| <= Width(k)
    requires forall k :: k in keys && k in rec ==> |Render(fmt, k, rec[k])| <= Width(k)
    ensures |Line(keys, rec, fmt)| == TotalWidth(keys) == |Header(keys)|
  {
    if keys != [] {
      var init := keys[..|keys| - 1];
      var k := keys[|keys| - 1];
      assert k in keys;
      assert forall j :: j in init ==> j in keys;
      LineMatchesHeader(init, rec, fmt);
    }
  }

  /**
   * Why the alignment above needs `epoch` in the record: without it, its blank segment takes 20
   * characters where the header takes 10. Records LogReport appends always carry `epoch` (MakeRecord).
   */
  lemma MissingNarrowKeyMisaligns(rec: Observation, fmt: Formatter)
    requires "epoch" !in rec
    ensures |Line(["epoch"], rec, fmt)| == 20 && |Header(["epoch"])| == 10
  {
    assert ["epoch"][..0] == [];
  }

  // ---------------------------------------------------------------------------------------------
  // The extension object

  class LogReport {
    const keys: Option<seq<string>>
    const trigger: ExtensionBase.Trigger
    const logName: string
    const printing: bool
    const mean: Mean
    const fmt: Formatter

    /** The observations added to the current summarizer. */
    var pending: seq<Observation>
    /** The records appended so far. */
    var log: seq<Observation>
    /** The lines written to the console. */
    var output: seq<string>
    /** The content of the log file `logName` in the output directory, None before the first write. */
    ghost var persisted: Option<seq<Observation>>
    /** Every call so far. */
    ghost var history: seq<Step>

    ghost predicate Valid()
      reads this
    {
      && (printing ==> keys.Some?)
      && LogState(pending, log) == Replay(keys, mean, history)
      && persisted == (if log == [] then None else Some(log))
    }

    /** Printing the header iterates the keys, so a printing LogReport needs a key list. */
    constructor (keys: Option<seq<string>>, trigger: ExtensionBase.Trigger, logName: string, printing: bool,
                 mean: Mean, fmt: Formatter)
      requires printing ==> keys.Some?
      ensures Valid()
      ensures this.keys == keys && this.trigger == ExtensionBase.Normalize(trigger)
      ensures this.logName == logName && this.printing == printing && this.mean == mean && this.fmt == fmt
      ensures pending == [] && log == [] && history == [] && persisted == None
      ensures output == if printing then [Header(keys.value)] else []
    {
      this.keys := keys;
      this.trigger := ExtensionBase.Normalize(trigger);
      this.logName := logName;
      this.printing := printing;
      this.mean := mean;
      this.fmt := fmt;
      pending := [];
      log := [];
      history := [];
      persisted := None;
      output := if printing then [Header(keys.value)] else [];
    }

    /** One training step; `fired` is the trigger's answer, consulted after the observation was added. */
    method Call(obs: Observation, fired: bool, epoch: int, iteration: int, elapsed: real)
      requires Valid()
      modifies this
      ensures Valid()
      ensures history == old(history) + [Step(obs, fired, epoch, iteration, elapsed)]
      ensures !fired ==> pending == old(pending) + [Filter(keys, obs)] && log == old(log)
      ensures fired ==> pending == []
      ensures fired ==> log == old(log) + [MakeRecord(mean(old(pending) + [Filter(keys, obs)]), epoch, iteration, elapsed)]
      ensures fired ==> persisted == Some(log)
      ensures !fired ==> persisted == old(persisted)
      ensures output == old(output) + (if fired && printing then [Line(keys.value, log[|log| - 1], fmt)] else [])
    {
      pending := pending + [Filter(keys, obs)];
      if fired {
        log := log + [MakeRecord(mean(pending), epoch, iteration, elapsed)];
        persisted := Some(log);
        if printing {
          var line := Printout();
          output := output + [line];
        }
        pending := [];
      }
      history := history + [Step(obs, fired, epoch, iteration, elapsed)];
      assert history[..|history| - 1] == old(history);
    }

    /** The row for the last record, built segment by segment. */
    method Printout() returns (line: string)
      requires keys.Some? && log != []
      ensures line == Line(keys.value, log[|log| - 1], fmt)
    {
      var ks := keys.value;
      var last := log[|log| - 1];
      line := "";
      var i := 0;
      while i < |ks|
        invariant 0 <= i <= |ks|
        invariant line == Line(ks[..i], last, fmt)
      {
        var key := ks[i];
        var out;
        if Narrow(key) {
          out := if key in last then LJust(fmt.plain(last[key]), 10) else LJust("", 20);
        } else {
          out := if key in last then LJust(fmt.fixed5(last[key]), 20) else LJust("", 20);
        }
        LineSnoc(ks, i, last, fmt);
        line := line + out;
        i := i + 1;
      }
      assert ks[..|ks|] == ks;
    }
  }
}
