/**
 * SnapshotModel: when its trigger fires it creates its save directory (ignoring an existing one) and
 * saves each model's parameters; `finalize` saves a "latest" copy of each without consulting the trigger.
 * The model tracks the names of the files written, relative to the save directory.
 */
module Snapshot {

  /** What the updater offers: a single `model`, or (without one) a `models` dict, in its key order. */
  datatype Models = Single | Named(names: seq<string>)

  const PeriodicBase: string := "snapshot_model.params"
  const FinalBase: string := "latest_model.params"

  /**
   * The files one save writes: `<base>` for a single model, `<name>_<base>` for each named model.
   * There is one file per model, every file name ends with the base name, and a named model's file
   * starts with that model's name and an underscore.
   */
  function Files(models: Models, base: string): (r: seq<string>)
    ensures |r| == (if models.Single? then 1 else |models.names|)
    ensures forall f :: f in r ==> |base| <= |f| && f[|f| - |base|..] == base
    ensures models.Named? ==> forall i :: 0 <= i < |r| ==>
      |models.names[i]| < |r[i]| && r[i][..|models.names[i]| + 1] == models.names[i] + "_"
  {
    match models
    case Single => [base]
    case Named(names) =>
      var r := seq(|names|, i requires 0 <= i < |names| => names[i] + "_" + base);
      assert forall i :: 0 <= i < |r| ==> r[i][|r[i]| - |base|..] == base && r[i][..|names[i]| + 1] == names[i] + "_";
      r
  }

  /** What a call does: whether it creates the save directory, and the files it writes, in order. */
  datatype Writes = Writes(makeDirs: bool, files: seq<string>)

  /** One training step; `fired` is the trigger's answer. */
  method Call(fired: bool, models: Models) returns (w: Writes)
    ensures !fired ==> w == Writes(false, [])
    ensures fired ==> w.makeDirs && w.files == Files(models, PeriodicBase)
  {
    if !fired {
      return Writes(false, []);
    }
    var files := SaveAll(models, PeriodicBase);
    w := Writes(true, files);
  }

  /** The end of the run: the latest files, whatever the trigger; the directory is not created here. */
  method Finalize(models: Models) returns (w: Writes)
    ensures !w.makeDirs && w.files == Files(models, FinalBase)
  {
    var files := SaveAll(models, FinalBase);
    w := Writes(false, files);
  }

  /** The save of every model, one file after the other. */
  method SaveAll(models: Models, base: string) returns (files: seq<string>)
    ensures |files| == (if models.Single? then 1 else |models.names|)
    ensures files == Files(models, base)
  {
    match models
    case Single =>
      files := [base];
    case Named(names) =>
      files := [];
      for i := 0 to |names|
        invariant |files| == i
        invariant forall j :: 0 <= j < i ==> files[j] == names[j] + "_" + base
      {
        files := files + [names[i] + "_" + base];
      }
  }

  /** No periodic snapshot file is ever a latest file, whichever models either save covers. */
  lemma PeriodicNeverFinal(m1: Models, m2: Models, f: string)
    ensures f in Files(m1, PeriodicBase) ==> f !in Files(m2, FinalBase)
  {
    if f in Files(m1, PeriodicBase) {
      assert f[|f| - |PeriodicBase|..][2] == 'a';
      assert f[|f| - 19] == 'a';
      assert FinalBase[0] == 'l';
    }
  }

  /** Two model names give the same file only when they are the same name. */
  lemma {:induction false} FileNameInjective(a: string, b: string, base: string)
    ensures a + "_" + base == b + "_" + base ==> a == b
  {
    if a + "_" + base == b + "_" + base {
      assert |a| == |b|;
      assert a == (a + "_" + base)[..|a|];
    }
  }

  /** Distinct model names (the keys of a dict) give distinct files, one per model. */
  lemma DistinctFiles(names: seq<string>, base: string)
    requires forall i, j :: 0 <= i < j < |names| ==> names[i] != names[j]
    ensures forall i, j :: 0 <= i < j < |names| ==> Files(Named(names), base)[i] != Files(Named(names), base)[j]
  {
    forall i, j | 0 <= i < j < |names|
      ensures Files(Named(names), base)[i] != Files(Named(names), base)[j]
    {
      FileNameInjective(names[i], names[j], base);
    }
  }
}
