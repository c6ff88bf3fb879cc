/**
 * The datasets of one node and the functions of the agent that act on them through `zfs`.
 * Every command can also fail for reasons outside the dataset store; `Faults` says which do.
 */
module ZfsStore {
  import opened Base
  import opened Resource
  import Argv

  datatype Dataset =
    | Pool(pool: string)
    | Vol(pool: string, name: string)
    | Snap(pool: string, volume: string, snapshot: string)

  /** The commands that gave a dataset its properties; `Properties` works out the result. */
  datatype Made =
    | Created(spec: VolumeInfo)
    | Cloned(spec: VolumeInfo)
    | Snapshotted(spec: VolumeInfo)
    | Changed(before: Made, spec: VolumeInfo)

  function Properties(m: Made): Argv.Props {
    match m
    case Created(spec) => Argv.CreateProps(spec)
    case Cloned(spec) => Argv.CloneProps(spec)
    case Snapshotted(spec) => Argv.UserProps(spec.userProperties)
    case Changed(before, spec) => Properties(before) + Argv.SetProps(spec)
  }

  datatype Info = Info(made: Made, origin: Option<Dataset>)

  type Store = map<Dataset, Info>

  /** Which commands of one call fail without a reason in the store. */
  datatype Faults = Faults(poolList: bool, volList: bool, snapList: bool,
                           volCmd: bool, snapCmd: bool, uuid: bool)

  const NO_FAULTS := Faults(false, false, false, false, false, false)

  datatype Outcome = Outcome(store: Store, ok: bool)

  // ---- `zfs` itself -------------------------------------------------------------------

  predicate Lists(st: Store, d: Dataset, fault: bool) { d in st && !fault }

  predicate HasClone(st: Store, snap: Dataset) {
    exists x | x in st :: st[x].origin == Some(snap)
  }

  predicate SnapOfVol(d: Dataset, pool: string, name: string) {
    d.Snap? && d.pool == pool && d.volume == name
  }

  predicate HasDependents(st: Store, pool: string, name: string) {
    exists x | x in st :: st[x].origin.Some? && SnapOfVol(st[x].origin.value, pool, name)
  }

  function ZfsCreate(st: Store, pool: string, name: string, made: Made, fault: bool): Outcome {
    if fault || Pool(pool) !in st || Vol(pool, name) in st then Outcome(st, false)
    else Outcome(st[Vol(pool, name) := Info(made, None)], true)
  }

  function ZfsClone(st: Store, pool: string, snap: Dataset, name: string, made: Made, fault: bool): Outcome {
    if fault || Pool(pool) !in st || snap !in st || Vol(pool, name) in st then Outcome(st, false)
    else Outcome(st[Vol(pool, name) := Info(made, Some(snap))], true)
  }

  function ZfsSnapshot(st: Store, pool: string, volume: string, snapshot: string, made: Made, fault: bool): Outcome {
    if fault || Vol(pool, volume) !in st || Snap(pool, volume, snapshot) in st then Outcome(st, false)
    else Outcome(st[Snap(pool, volume, snapshot) := Info(made, None)], true)
  }

  /** `zfs destroy -r`: the volume and its snapshots, unless a clone hangs off one of them. */
  function ZfsDestroyRecursive(st: Store, pool: string, name: string, fault: bool): Outcome {
    if fault || Vol(pool, name) !in st || HasDependents(st, pool, name) then Outcome(st, false)
    else Outcome(map x | x in st && x != Vol(pool, name) && !SnapOfVol(x, pool, name) :: st[x], true)
  }

  function ZfsDestroySnapshot(st: Store, snap: Dataset, fault: bool): Outcome {
    if fault || snap !in st || HasClone(st, snap) then Outcome(st, false)
    else Outcome(map x | x in st && x != snap :: st[x], true)
  }

  // ---- the agent's functions --------------------------------------------------------

  function CreateSnapshot(st: Store, spec: VolumeInfo, volume: string, name: string, f: Faults): Outcome {
    if Lists(st, Snap(spec.poolName, volume, name), f.snapList) then Outcome(st, true)
    else ZfsSnapshot(st, spec.poolName, volume, name, Snapshotted(spec), f.snapCmd)
  }

  function DestroySnapshot(st: Store, spec: VolumeInfo, volume: string, name: string, f: Faults): Outcome {
    var snap := Snap(spec.poolName, volume, name);
    if !Lists(st, Pool(spec.poolName), f.poolList) then Outcome(st, false)
    else if !Lists(st, snap, f.snapList) then Outcome(st, true)
    else ZfsDestroySnapshot(st, snap, f.snapCmd)
  }

  function CreateVolume(st: Store, spec: VolumeInfo, name: string, f: Faults): Outcome {
    if Lists(st, Vol(spec.poolName, name), f.volList) then Outcome(st, true)
    else ZfsCreate(st, spec.poolName, name, Created(spec), f.volCmd)
  }

  /** The second half of CreateClone: the clone itself, then a new filesystem UUID. */
  function CloneOnly(st: Store, spec: VolumeInfo, name: string, f: Faults): Outcome {
    var cloned :=
      if Lists(st, Vol(spec.poolName, name), f.volList) then Outcome(st, true)
      else if spec.snapName.NoSnap? then Outcome(st, false)
      else ZfsClone(st, spec.poolName, Snap(spec.poolName, spec.snapName.volume, spec.snapName.snapshot),
                    name, Cloned(spec), f.volCmd);
    Outcome(cloned.store, cloned.ok && !((spec.fsType == "xfs" || spec.fsType == "btrfs") && f.uuid))
  }

  /** A clone of a volume first takes a snapshot of the source, named after the clone. */
  function CreateClone(st: Store, spec: VolumeInfo, src: Option<string>, name: string, f: Faults): Outcome {
    if src.None? then CloneOnly(st, spec, name, f)
    else
      var snapped := CreateSnapshot(st, spec, src.value, name, f);
      if !snapped.ok then snapped else CloneOnly(snapped.store, spec, name, f)
  }

  function SetVolumeProp(st: Store, spec: VolumeInfo, name: string, f: Faults): Outcome {
    var d := Vol(spec.poolName, name);
    if Argv.NothingToSet(spec) then Outcome(st, true)
    else if f.volCmd || d !in st then Outcome(st, false)
    else Outcome(st[d := st[d].(made := Changed(st[d].made, spec))], true)
  }

  /** A failure to destroy the clone's source snapshot is only logged. */
  function DestroyVolume(st: Store, spec: VolumeInfo, src: Option<string>, name: string, f: Faults): Outcome {
    if !Lists(st, Pool(spec.poolName), f.poolList) then Outcome(st, false)
    else if !Lists(st, Vol(spec.poolName, name), f.volList) then Outcome(st, true)
    else
      var destroyed := ZfsDestroyRecursive(st, spec.poolName, name, f.volCmd);
      if !destroyed.ok || src.None? then destroyed
      else Outcome(DestroySnapshot(destroyed.store, spec, src.value, name, f).store, true)
  }
}
