/** The logic of the Extension base class: turning a trigger argument into a trigger, and priorities. */
module ExtensionBase {

  /** A trigger as an extension's constructor receives it, or as the extension keeps it. */
  datatype Trigger =
    | Config(config: map<string, int>)    // a dict such as {'epoch': 1}, not yet a trigger
    | Periodic(config: map<string, int>)  // the trigger that `isTrigger` builds from such a dict
    | Object(id: nat)                     // any other object (a MinValueTrigger, say)

  /** The default trigger argument, `{'epoch': 1}`. */
  const DefaultTrigger: Trigger := Config(map["epoch" := 1])

  /** `isTrigger(trigger) if isinstance(trigger, dict) else trigger`. */
  function Normalize(t: Trigger): (r: Trigger)
    ensures !r.Config?
    ensures t.Config? ==> r == Periodic(t.config)
    ensures !t.Config? ==> r == t
  {
    if t.Config? then Periodic(t.config) else t
  }

  /** The default argument becomes the trigger firing every epoch. */
  lemma DefaultNormalizes()
    ensures Normalize(DefaultTrigger) == Periodic(map["epoch" := 1])
  {
  }

  /** Normalising twice is normalising once: an extension may be handed a trigger it built itself. */
  lemma NormalizeIdempotent(t: Trigger)
    ensures Normalize(Normalize(t)) == Normalize(t)
  {
  }

  /** The extension classes of the module. */
  datatype Kind = Base | LogReportKind | ProgressBarKind | ClassifyEvaluaterKind | MetricEvaluaterKind | SnapshotModelKind

  /** The classes that lower their priority below the default. */
  predicate Deferred(k: Kind)
  {
    k.ProgressBarKind? || k.ClassifyEvaluaterKind? || k.MetricEvaluaterKind?
  }

  /** The class attribute `priority` of each extension class. */
  function Priority(k: Kind): (p: int)
    ensures Deferred(k) ==> p == -1
    ensures !Deferred(k) ==> p == 0
  {
    match k
    case Base => 0
    case LogReportKind => 0          // inherited from Extension
    case ProgressBarKind => -1
    case ClassifyEvaluaterKind => -1
    case MetricEvaluaterKind => -1
    case SnapshotModelKind => 0      // set explicitly, equal to the default
  }
}
