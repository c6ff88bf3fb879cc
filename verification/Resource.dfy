/** The ZFSVolume and ZFSSnapshot custom resources, as the driver reads and writes them. */
module Resource {
  import opened Base

  const VOL_TYPE_DATASET := "DATASET"

  /** The snapshot a clone is made from; the source writes it "volume@snapshot", "" for none. */
  datatype SnapRef = NoSnap | SnapOf(volume: string, snapshot: string)

  /** VolumeInfo, the spec both kinds of resource carry. */
  datatype VolumeInfo = VolumeInfo(
    ownerNodeID: string,
    poolName: string,
    snapName: SnapRef,
    capacity: string,
    recordSize: string,
    volBlockSize: string,
    compression: string,
    dedup: string,
    atime: string,
    logBias: string,
    encryption: string,
    keyLocation: string,
    keyFormat: string,
    thinProvision: string,
    volumeType: string,
    quotaType: string,
    fsType: string,
    userProperties: map<string, string>)

  /** Status.State; `Unset` is the empty state of volumes older than the status field. */
  datatype Phase = Unset | Pending | Failed | Ready

  /** A finalizer name: the driver's own, the API server's, or anything else. */
  datatype Finalizer = ZfsFinalizer | ForegroundDeletion | UserFinalizer(id: string)

  /** The three labels the driver uses: persistent-volume, source-volume and nodename. */
  datatype Labels = Labels(volume: string, srcVolume: Option<string>, node: string)

  datatype CR = CR(
    version: nat,
    spec: VolumeInfo,
    labels: Labels,
    phase: Phase,
    finalizers: seq<Finalizer>,
    terminating: bool,
    marked: bool)

  predicate IsUser(f: Finalizer) { f.UserFinalizer? }

  /** GetUserFinalizers as a function: the user finalizers, in order. */
  function UserFinalizers(fs: seq<Finalizer>): (r: seq<Finalizer>)
    ensures forall f :: f in r <==> f in fs && IsUser(f)
  {
    if fs == [] then []
    else (if IsUser(fs[0]) then [fs[0]] else []) + UserFinalizers(fs[1..])
  }

  lemma {:induction false} UserFinalizersSnoc(fs: seq<Finalizer>, f: Finalizer)
    ensures UserFinalizers(fs + [f]) == UserFinalizers(fs) + (if IsUser(f) then [f] else [])
  {
    if fs == [] {
      assert fs + [f] == [f] && [f][1..] == [];
    } else {
      assert (fs + [f])[1..] == fs[1..] + [f];
      UserFinalizersSnoc(fs[1..], f);
    }
  }

  /** GetUserFinalizers, the appending loop of the source. */
  method GetUserFinalizers(finalizers: seq<Finalizer>) returns (userFin: seq<Finalizer>)
    ensures userFin == UserFinalizers(finalizers)
  {
    userFin := [];
    for i := 0 to |finalizers|
      invariant userFin == UserFinalizers(finalizers[..i])
    {
      assert finalizers[..i + 1] == finalizers[..i] + [finalizers[i]];
      UserFinalizersSnoc(finalizers[..i], finalizers[i]);
      var fin := finalizers[i];
      if fin != ZfsFinalizer && fin != ForegroundDeletion {
        userFin := userFin + [fin];
      }
    }
    assert finalizers[..|finalizers|] == finalizers;
  }

  /** IsVolumeReady: the status decides; a volume without one is ready once it has the finalizer. */
  predicate IsVolumeReady(cr: CR) {
    if cr.phase != Unset then cr.phase == Ready else ZfsFinalizer in cr.finalizers
  }

  /** PropertyChanged: an update asks for other properties. */
  predicate PropertyChanged(before: VolumeInfo, after: VolumeInfo) {
    || (&& before.volumeType == VOL_TYPE_DATASET && after.volumeType == VOL_TYPE_DATASET
        && (before.recordSize != after.recordSize || before.atime != after.atime))
    || before.compression != after.compression
    || before.dedup != after.dedup
    || before.logBias != after.logBias
    || before.userProperties != after.userProperties
  }
}
