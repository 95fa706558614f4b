/**
 * The field paths an actor-scoped calculator reads hit points from.
 *
 * An actor document keeps its game-system data under `system`, so each path
 * is the path finder's answer with `system.` put in front. The path finder
 * (which consults the configured path hint) is not part of this model: it is
 * represented by the two paths it returns.
 */
module ActorCalculator {

  import opened Wrappers

  /** What the HP path finder answers: the HP path and the temporary-HP path. */
  datatype HpObjectPathFinder = HpObjectPathFinder(hpPath: string, hpTempPath: string)

  /** The root under which an actor document keeps its game-system data. */
  const SystemPrefix: string := "system."

  /** The rest of `path` after `prefix`, or nothing when `path` does not start with it. */
  function StripPrefix(prefix: string, path: string): (r: Option<string>)
    ensures r.Some? <==> prefix <= path
    ensures r.Some? ==> prefix + r.value == path
  {
    if prefix <= path then Some(path[|prefix|..]) else None
  }

  /** Stripping a prefix undoes putting it in front. */
  lemma StripPrefixOfPrefixed(prefix: string, path: string)
    ensures StripPrefix(prefix, prefix + path) == Some(path)
  {
  }

  /** The HP path in the actor document before the update. */
  function OrigEntityHpPath(finder: HpObjectPathFinder): (r: string)
    ensures SystemPrefix <= r
    ensures StripPrefix(SystemPrefix, r) == Some(finder.hpPath)
  {
    SystemPrefix + finder.hpPath
  }

  /** The temporary-HP path in the actor document before the update. */
  function OrigEntityHpTempPath(finder: HpObjectPathFinder): (r: string)
    ensures SystemPrefix <= r
    ensures StripPrefix(SystemPrefix, r) == Some(finder.hpTempPath)
  {
    SystemPrefix + finder.hpTempPath
  }

  /** The HP path in the update's changes: the same path as before the update. */
  function ChangedEntityHpPath(finder: HpObjectPathFinder): (r: string)
    ensures r == OrigEntityHpPath(finder)
    ensures StripPrefix(SystemPrefix, r) == Some(finder.hpPath)
  {
    SystemPrefix + finder.hpPath
  }

  /** The temporary-HP path in the update's changes: the same path as before the update. */
  function ChangedEntityHpTempPath(finder: HpObjectPathFinder): (r: string)
    ensures r == OrigEntityHpTempPath(finder)
    ensures StripPrefix(SystemPrefix, r) == Some(finder.hpTempPath)
  {
    SystemPrefix + finder.hpTempPath
  }

  /** Prefixing loses nothing: the HP and temporary-HP paths differ exactly when the finder's do. */
  lemma HpPathsDifferExactlyWhenFinderPathsDiffer(finder: HpObjectPathFinder)
    ensures OrigEntityHpPath(finder) != OrigEntityHpTempPath(finder)
        <==> finder.hpPath != finder.hpTempPath
    ensures ChangedEntityHpPath(finder) != ChangedEntityHpTempPath(finder)
        <==> finder.hpPath != finder.hpTempPath
  {
  }

  /** Two finders give the same HP path exactly when they agree on the HP path. */
  lemma HpPathDeterminedByFinder(f1: HpObjectPathFinder, f2: HpObjectPathFinder)
    ensures OrigEntityHpPath(f1) == OrigEntityHpPath(f2) <==> f1.hpPath == f2.hpPath
    ensures OrigEntityHpTempPath(f1) == OrigEntityHpTempPath(f2) <==> f1.hpTempPath == f2.hpTempPath
  {
  }
}
