/**
 * Property changes of a Ready volume, from the informer through the queue to the dataset. Versions
 * come in faster than the worker takes up the key, commands fail and are retried, and updates that
 * change no property are not even queued; still the dataset never stays behind.
 */
module Reconcile {
  import opened Base
  import opened Resource
  import opened UserProp
  import opened Argv
  import opened ZfsStore
  import opened Cluster
  import opened OwnerDrain
  import opened PropertyUpdate

  /** A version that asks for properties only. */
  predicate Settable(zv: CR) { !zv.terminating && IsVolumeReady(zv) && ValidProps(zv.spec.userProperties) }

  /** After the reconcile of such a version the dataset is in step with it and nothing else has changed. */
  lemma SyncedInStep(st: Store, name: string, at: nat, zv: CR, f: Faults, n: Prop)
    requires Settable(zv) && Vol(zv.spec.poolName, name) in st && !SyncFails(st, name, zv, f)
    ensures var d, e := Vol(zv.spec.poolName, name), SyncVolume(st, name, at, zv, f);
      && e.work == Idle && e.store.Keys == st.Keys && (forall x :: x in st && x != d ==> e.store[x] == st[x])
      && e.store[d].origin == st[d].origin && InStep(Properties(e.store[d].made), zv.spec)
      && (SetField(zv.spec, n).None? ==>
          Lookup(Properties(e.store[d].made), n) == Lookup(Properties(st[d].made), n))
  {
    SetVolumePropApplies(st, zv.spec, name, f, n);
  }

  /** A failed one leaves everything as it was; and it fails only through its command. */
  lemma FailedSync(st: Store, name: string, at: nat, zv: CR, f: Faults)
    requires Settable(zv) && Vol(zv.spec.poolName, name) in st
    ensures SyncFails(st, name, zv, f) ==> SyncVolume(st, name, at, zv, f) == Effect(st, Idle) && f.volCmd
  {
  }

  /** What happens on the volume's node: the informer shows a version, or the worker has a turn. */
  datatype Event = Sees(zv: CR) | Works(faults: Faults)

  /** The version the informer holds, whether the key is queued, and the datasets. */
  datatype View = View(held: CR, queued: bool, store: Store)

  function Happens(v: View, node: string, name: string, e: Event): View {
    match e
    case Sees(zv) => View(zv, v.queued || Notifies(Some(v.held), Some(zv), node), v.store)
    case Works(f) =>
      if !v.queued then v
      else View(v.held, SyncFails(v.store, name, v.held, f), SyncVolume(v.store, name, 0, v.held, f).store)
  }

  function After(v: View, node: string, name: string, events: seq<Event>): View {
    if events == [] then v
    else Happens(After(v, node, name, events[..|events| - 1]), node, name, events[|events| - 1])
  }

  /** The dataset is there and, unless the key is queued, in step with the version held. */
  ghost predicate KeepsUp(v: View, d: Dataset) {
    d in v.store && (v.queued || InStep(Properties(v.store[d].made), v.held.spec))
  }

  /** Versions of the volume as its owner sees them while it is Ready. */
  predicate OnNode(zv: CR, node: string, d: Dataset, volumeType: string)
    requires d.Vol?
  {
    && Settable(zv) && zv.spec.ownerNodeID == node
    && zv.spec.poolName == d.pool && zv.spec.volumeType == volumeType
  }

  lemma KeepsUpStep(v: View, node: string, d: Dataset, volumeType: string, e: Event)
    requires d.Vol? && KeepsUp(v, d) && OnNode(v.held, node, d, volumeType)
    requires e.Sees? ==> OnNode(e.zv, node, d, volumeType)
    ensures var w := Happens(v, node, d.name, e);
      KeepsUp(w, d) && OnNode(w.held, node, d, volumeType)
      && (forall x :: x != d ==> (x in w.store <==> x in v.store) && (x in v.store ==> w.store[x] == v.store[x]))
  {
    if e.Sees? {
      if !PropertyChanged(v.held.spec, e.zv.spec) && !v.queued {
        SameSetInStep(Properties(v.store[d].made), v.held.spec, e.zv.spec);
      }
    } else if v.queued {
      FailedSync(v.store, d.name, 0, v.held, e.faults);
      if !SyncFails(v.store, d.name, v.held, e.faults) {
        SyncedInStep(v.store, d.name, 0, v.held, e.faults, Native(""));
      }
    }
  }

  /**
   * From a dataset in step, over every sequence of versions and turns of the worker, with any
   * failures: whenever the key is not queued, the dataset carries every non-empty settable field of
   * the version the informer holds; and no other dataset has changed.
   */
  lemma {:induction false} UpdatesEndInStep(v: View, node: string, d: Dataset, volumeType: string, events: seq<Event>)
    requires d.Vol? && KeepsUp(v, d) && OnNode(v.held, node, d, volumeType)
    requires forall e :: e in events && e.Sees? ==> OnNode(e.zv, node, d, volumeType)
    ensures var w := After(v, node, d.name, events);
      && KeepsUp(w, d) && OnNode(w.held, node, d, volumeType)
      && (forall x :: x != d ==> (x in w.store <==> x in v.store) && (x in v.store ==> w.store[x] == v.store[x]))
  {
    if events != [] {
      var init := events[..|events| - 1];
      UpdatesEndInStep(v, node, d, volumeType, init);
      KeepsUpStep(After(v, node, d.name, init), node, d, volumeType, events[|events| - 1]);
    }
  }

  /** And the worker catches up: a turn without faults leaves the dataset in step and the key not queued. */
  lemma TurnCatchesUp(v: View, node: string, d: Dataset, volumeType: string)
    requires d.Vol? && KeepsUp(v, d) && OnNode(v.held, node, d, volumeType)
    ensures var w := Happens(v, node, d.name, Works(NO_FAULTS));
      && !w.queued && w.held == v.held && d in w.store && InStep(Properties(w.store[d].made), v.held.spec)
  {
    if v.queued {
      FailedSync(v.store, d.name, 0, v.held, NO_FAULTS);
      SyncedInStep(v.store, d.name, 0, v.held, NO_FAULTS, Native(""));
    }
  }

  /** An update is passed over exactly when it asks for nothing: same properties, not Pending, not going. */
  lemma PassedOverIff(held: CR, zv: CR, node: string)
    requires zv.spec.ownerNodeID == node && held.spec.volumeType == zv.spec.volumeType
    ensures !Notifies(Some(held), Some(zv), node)
       <==> SetProps(held.spec) == SetProps(zv.spec) && zv.phase != Pending && !zv.terminating
  {
    ChangedIffSetDiffers(held.spec, zv.spec);
  }

  /** Nothing of another node's is queued; of its own, everything that appears and everything that goes. */
  lemma OwnEvents(held: Option<CR>, zv: CR, node: string)
    ensures zv.spec.ownerNodeID != node ==> !Notifies(held, Some(zv), node)
    ensures Notifies(None, Some(zv), node) <==> zv.spec.ownerNodeID == node
    ensures Notifies(Some(zv), None, node) <==> zv.spec.ownerNodeID == node
    ensures !Notifies(None, None, node)
  {
  }
}
