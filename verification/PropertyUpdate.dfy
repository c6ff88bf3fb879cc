/** Property changes: when an update is enqueued, and what `zfs set` then leaves behind. */
module PropertyUpdate {
  import opened Base
  import opened Resource
  import opened Argv
  import opened ArgvRoundTrip
  import opened UserProp
  import opened ZfsStore

  lemma SettableFields(s: VolumeInfo)
    ensures Lookup(SetProps(s), Native("dedup")) == Field(s.dedup)
    ensures Lookup(SetProps(s), Native("compression")) == Field(s.compression)
    ensures Lookup(SetProps(s), Native("logbias")) == Field(s.logBias)
    ensures s.volumeType == VOL_TYPE_DATASET ==>
      && Lookup(SetProps(s), Native("recordsize")) == Field(s.recordSize)
      && Lookup(SetProps(s), Native("atime")) == Field(s.atime)
  {
    SetExact(s, Native("dedup"));
    SetExact(s, Native("compression"));
    SetExact(s, Native("logbias"));
    SetExact(s, Native("recordsize"));
    SetExact(s, Native("atime"));
  }

  lemma SettableUser(s: VolumeInfo, name: string)
    ensures Lookup(SetProps(s), User(name)) == if name in s.userProperties then Some(s.userProperties[name]) else None
  {
    SetExact(s, User(name));
    OnlyUser(s, User(name));
  }

  lemma SameSetUnchanged(before: VolumeInfo, after: VolumeInfo)
    requires before.volumeType == after.volumeType && SetProps(before) == SetProps(after)
    ensures !PropertyChanged(before, after)
  {
    SettableFields(before);
    SettableFields(after);
    forall n
      ensures n in before.userProperties <==> n in after.userProperties
      ensures n in before.userProperties ==> before.userProperties[n] == after.userProperties[n]
    {
      SettableUser(before, n);
      SettableUser(after, n);
    }
    assert before.userProperties == after.userProperties;
  }

  lemma UnchangedSameSet(before: VolumeInfo, after: VolumeInfo)
    requires before.volumeType == after.volumeType && !PropertyChanged(before, after)
    ensures SetProps(before) == SetProps(after)
  {
    forall n ensures Lookup(SetProps(before), n) == Lookup(SetProps(after), n) {
      SetExact(before, n);
      SetExact(after, n);
    }
    SameLookups(SetProps(before), SetProps(after));
  }

  /** An update is enqueued exactly when `zfs set` would be given something different. */
  lemma ChangedIffSetDiffers(before: VolumeInfo, after: VolumeInfo)
    requires before.volumeType == after.volumeType
    ensures PropertyChanged(before, after) <==> SetProps(before) != SetProps(after)
  {
    if SetProps(before) == SetProps(after) { SameSetUnchanged(before, after); }
    if !PropertyChanged(before, after) { UnchangedSameSet(before, after); }
  }

  /** The early return of SetVolumeProp is taken exactly when `zfs set` would set nothing. */
  lemma NothingToSetIff(s: VolumeInfo)
    ensures NothingToSet(s) <==> SetProps(s) == map[]
  {
    if NothingToSet(s) {
      forall n ensures Lookup(SetProps(s), n) == Lookup(map[], n) { SetExact(s, n); }
      SameLookups(SetProps(s), map[]);
    }
    if SetProps(s) == map[] {
      SettableFields(s);
      forall n | n in s.userProperties ensures false { SettableUser(s, n); }
      assert s.userProperties == map[];
    }
  }

  /** The properties carry every non-empty settable field of the spec. */
  ghost predicate InStep(props: Props, s: VolumeInfo) {
    forall n :: SetField(s, n).Some? ==> Lookup(props, n) == SetField(s, n)
  }

  lemma Overlay(props: Props, s: VolumeInfo, n: Prop)
    ensures InStep(props + SetProps(s), s)
    ensures SetField(s, n).None? ==> Lookup(props + SetProps(s), n) == Lookup(props, n)
  {
    forall m ensures Lookup(SetProps(s), m) == SetField(s, m) { SetExact(s, m); }
  }

  lemma NoOverlay(props: Props, s: VolumeInfo)
    requires NothingToSet(s)
    ensures props + SetProps(s) == props
  {
    NothingToSetIff(s);
  }

  lemma Overlaid(st: Store, s: VolumeInfo, name: string, f: Faults)
    requires Vol(s.poolName, name) in st && SetVolumeProp(st, s, name, f).ok
    ensures var d, after := Vol(s.poolName, name), SetVolumeProp(st, s, name, f).store;
      && after.Keys == st.Keys && (forall x :: x in st && x != d ==> after[x] == st[x])
      && after[d].origin == st[d].origin
      && Properties(after[d].made) == Properties(st[d].made) + SetProps(s)
  {
    if NothingToSet(s) { NoOverlay(Properties(st[Vol(s.poolName, name)].made), s); }
  }

  /** After SetVolumeProp the volume is in step with the spec and nothing else has changed. */
  lemma SetVolumePropApplies(st: Store, s: VolumeInfo, name: string, f: Faults, n: Prop)
    requires Vol(s.poolName, name) in st && SetVolumeProp(st, s, name, f).ok
    ensures var d, after := Vol(s.poolName, name), SetVolumeProp(st, s, name, f).store;
      && after.Keys == st.Keys && (forall x :: x in st && x != d ==> after[x] == st[x])
      && after[d].origin == st[d].origin
      && InStep(Properties(after[d].made), s)
      && (SetField(s, n).None? ==> Lookup(Properties(after[d].made), n) == Lookup(Properties(st[d].made), n))
  {
    Overlaid(st, s, name, f);
    Overlay(Properties(st[Vol(s.poolName, name)].made), s, n);
  }

  lemma SameSetInStep(props: Props, s: VolumeInfo, t: VolumeInfo)
    requires InStep(props, s) && s.volumeType == t.volumeType && !PropertyChanged(s, t)
    ensures InStep(props, t)
  {
    UnchangedSameSet(s, t);
    forall n ensures SetField(t, n) == SetField(s, n) {
      SetExact(s, n);
      SetExact(t, n);
    }
  }

  /** A new volume is in step with its spec. */
  lemma CreatedInStep(s: VolumeInfo)
    ensures InStep(CreateProps(s), s)
  {
    SetAgreesWithCreate(s);
    forall n ensures SetField(s, n).Some? ==> Lookup(CreateProps(s), n) == SetField(s, n) {
      SetExact(s, n);
      assert Lookup(CreateProps(s) + SetProps(s), n) == Lookup(CreateProps(s), n);
    }
  }

  // ---- space ----------------------------------------------------------------------------------

  predicate ReservesSpace(volumeType: string, thinProvision: string) {
    thinProvision == "no" || (volumeType != VOL_TYPE_DATASET && thinProvision != "yes")
  }

  /** What `zfs create` reserves: a dataset its reservation property, a zvol its size unless sparse. */
  predicate CommandReserves(p: Parsed, s: VolumeInfo) {
    if s.volumeType == VOL_TYPE_DATASET
    then Native("reservation") in p.props || Native("refreservation") in p.props
    else !p.sparse
  }

  lemma ReservationIsSet(s: VolumeInfo)
    requires s.volumeType == VOL_TYPE_DATASET
    ensures CreateField(s, Native("reservation")).Some? || CreateField(s, Native("refreservation")).Some?
       <==> s.thinProvision == "no"
  {
  }

  lemma PropsReserve(p: Parsed, s: VolumeInfo)
    requires p.props == CreateProps(s) && p.sparse == (s.volumeType != VOL_TYPE_DATASET && s.thinProvision == "yes")
    ensures CommandReserves(p, s) <==> ReservesSpace(s.volumeType, s.thinProvision)
  {
    if s.volumeType == VOL_TYPE_DATASET {
      CreateExact(s, Native("reservation"));
      CreateExact(s, Native("refreservation"));
      ReservationIsSet(s);
    } else {
      assert "yes" != "no";
    }
  }

  /** The scheduler's idea of reserving space is what the create command does. */
  lemma ReservesIffCommandReserves(name: string, s: VolumeInfo, order: seq<string>)
    requires ValidProps(s.userProperties) && IsOrder(s.userProperties, order)
    ensures var parsed := ParseOptions(CreateArgs(name, s, order)[1..], false, map[]);
      parsed.Some? && (CommandReserves(parsed.value, s) <==> ReservesSpace(s.volumeType, s.thinProvision))
  {
    CreateRoundTrip(name, s, order);
    PropsReserve(ParseOptions(CreateArgs(name, s, order)[1..], false, map[]).value, s);
  }
}
