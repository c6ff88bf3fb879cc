/** The builders themselves: each appends to one argument slice, field by field. */
module ArgvBuild {
  import opened Resource
  import opened Argv

  lemma {:induction false} FlagsConcat(a: seq<Setting>, b: seq<Setting>)
    ensures Flags(a + b) == Flags(a) + Flags(b)
  {
    if a == [] {
      assert a + b == b;
    } else {
      assert (a + b)[1..] == a[1..] + b;
      FlagsConcat(a[1..], b);
    }
  }

  lemma {:induction false} AssignmentsConcat(a: seq<Setting>, b: seq<Setting>)
    ensures Assignments(a + b) == Assignments(a) + Assignments(b)
  {
    if a == [] {
      assert a + b == b;
    } else {
      assert (a + b)[1..] == a[1..] + b;
      AssignmentsConcat(a[1..], b);
    }
  }

  /** Appending block after block writes the concatenated list. */
  lemma WriteTwo(base: seq<string>, a: seq<Setting>, b: seq<Setting>)
    ensures base + Flags(a) + Flags(b) == base + Flags(a + b)
    ensures base + Assignments(a) + Assignments(b) == base + Assignments(a + b)
  {
    FlagsConcat(a, b);
    AssignmentsConcat(a, b);
  }

  lemma WriteThree(base: seq<string>, a: seq<Setting>, b: seq<Setting>, c: seq<Setting>)
    ensures base + Flags(a) + Flags(b) + Flags(c) == base + Flags(a + b + c)
    ensures base + Assignments(a) + Assignments(b) + Assignments(c) == base + Assignments(a + b + c)
  {
    WriteTwo(base, a, b);
    WriteTwo(base, a + b, c);
  }

  lemma WriteFour(base: seq<string>, a: seq<Setting>, b: seq<Setting>, c: seq<Setting>, d: seq<Setting>)
    ensures base + Flags(a) + Flags(b) + Flags(c) + Flags(d) == base + Flags(a + b + c + d)
  {
    WriteThree(base, a, b, c);
    WriteTwo(base, a + b + c, d);
  }

  method AppendFlag(args: seq<string>, name: Prop, value: string) returns (r: seq<string>)
    ensures r == args + Flags([(name, value)])
  {
    WriteOne((name, value));
    r := args + ["-o", name.name + "=" + value];
  }

  /** One non-empty field, as a flag. */
  method AppendOption(args: seq<string>, name: Prop, value: string) returns (r: seq<string>)
    ensures r == args + Flags(Unless0(name, value))
  {
    r := args;
    if |value| != 0 {
      r := AppendFlag(r, name, value);
    }
  }

  method AppendDataset(args: seq<string>, s: VolumeInfo) returns (r: seq<string>)
    ensures r == args + Flags(DatasetOnly(s))
  {
    r := AppendOption(args, QuotaProperty(s.quotaType), s.capacity);
    r := AppendOption(r, Native("recordsize"), s.recordSize);
    r := AppendOption(r, Native("atime"), s.atime);
    ghost var v := [];
    if s.thinProvision == "no" {
      r := AppendFlag(r, ReservationProperty(s.quotaType), s.capacity);
      v := [(ReservationProperty(s.quotaType), s.capacity)];
    }
    WriteFour(args, Unless0(QuotaProperty(s.quotaType), s.capacity), Unless0(Native("recordsize"), s.recordSize),
        Unless0(Native("atime"), s.atime), v);
  }

  method AppendCommon(args: seq<string>, s: VolumeInfo) returns (r: seq<string>)
    ensures r == args + Flags(Common(s))
  {
    r := AppendOption(args, Native("dedup"), s.dedup);
    r := AppendOption(r, Native("compression"), s.compression);
    r := AppendOption(r, Native("logbias"), s.logBias);
    WriteThree(args, Unless0(Native("dedup"), s.dedup), Unless0(Native("compression"), s.compression),
        Unless0(Native("logbias"), s.logBias));
  }

  method AppendKeys(args: seq<string>, s: VolumeInfo) returns (r: seq<string>)
    ensures r == args + Flags(KeySettings(s))
  {
    r := AppendOption(args, Native("encryption"), s.encryption);
    r := AppendOption(r, Native("keylocation"), s.keyLocation);
    r := AppendOption(r, Native("keyformat"), s.keyFormat);
    WriteThree(args, Unless0(Native("encryption"), s.encryption), Unless0(Native("keylocation"), s.keyLocation),
        Unless0(Native("keyformat"), s.keyFormat));
  }

  lemma {:induction false} UserSnoc(props: map<string, string>, order: seq<string>, n: string)
    requires n in props && forall m :: m in order ==> m in props
    ensures UserSettings(props, order + [n]) == UserSettings(props, order) + [(User(n), props[n])]
  {
    if order != [] {
      assert (order + [n])[1..] == order[1..] + [n];
      UserSnoc(props, order[1..], n);
    }
  }

  lemma WriteOne(p: Setting)
    ensures Flags([p]) == ["-o", p.0.name + "=" + p.1] && Assignments([p]) == [p.0.name + "=" + p.1]
  {
    var ps := [p];
    assert ps[1..] == [];
    assert Flags(ps) == ["-o", p.0.name + "=" + p.1] + Flags([]);
    assert Assignments(ps) == [p.0.name + "=" + p.1] + Assignments([]);
  }

  lemma OneMoreUser(args: seq<string>, props: map<string, string>, order: seq<string>, n: string)
    requires n in props && forall m :: m in order ==> m in props
    ensures args + Flags(UserSettings(props, order)) + ["-o", n + "=" + props[n]]
         == args + Flags(UserSettings(props, order + [n]))
    ensures args + Assignments(UserSettings(props, order)) + [n + "=" + props[n]]
         == args + Assignments(UserSettings(props, order + [n]))
  {
    var one := [(User(n), props[n])];
    WriteOne(one[0]);
    UserSnoc(props, order, n);
    WriteTwo(args, UserSettings(props, order), one);
  }

  /** The loop over the user properties; Go visits a map in any order. */
  method AppendUser(args: seq<string>, props: map<string, string>) returns (r: seq<string>)
    ensures exists order :: IsOrder(props, order) && r == args + Flags(UserSettings(props, order))
  {
    r := args;
    ghost var order: seq<string> := [];
    var todo := props.Keys;
    while todo != {}
      invariant todo <= props.Keys
      invariant forall n :: n in order <==> n in props && n !in todo
      invariant forall i, j :: 0 <= i < j < |order| ==> order[i] != order[j]
      invariant r == args + Flags(UserSettings(props, order))
      decreases todo
    {
      var n :| n in todo;
      OneMoreUser(args, props, order, n);
      r, order, todo := r + ["-o", n + "=" + props[n]], order + [n], todo - {n};
    }
  }

  method AppendSize(args: seq<string>, s: VolumeInfo) returns (r: seq<string>)
    requires s.volumeType != VOL_TYPE_DATASET
    ensures r == args + SizeFlags(s)
  {
    r := args;
    if s.thinProvision == "yes" {
      r := r + ["-s"];
    }
    if |s.capacity| != 0 {
      r := r + ["-V", s.capacity];
    }
    if |s.volBlockSize| != 0 {
      r := r + ["-b", s.volBlockSize];
    }
  }

  method BuildZvolCreateArgs(name: string, s: VolumeInfo) returns (args: seq<string>)
    requires s.volumeType != VOL_TYPE_DATASET
    ensures exists order :: IsOrder(s.userProperties, order) && args == CreateArgs(name, s, order)
  {
    args := AppendSize(["create"], s);
    args := AppendCommon(args, s);
    args := AppendKeys(args, s);
    ghost var before := args;
    args := AppendUser(args, s.userProperties);
    ghost var order :|
        IsOrder(s.userProperties, order) && args == before + Flags(UserSettings(s.userProperties, order));
    WriteThree(["create"] + SizeFlags(s), Common(s), KeySettings(s), UserSettings(s.userProperties, order));
    args := args + [s.poolName + "/" + name];
    assert args == CreateArgs(name, s, order);
  }

  method BuildDatasetCreateArgs(name: string, s: VolumeInfo) returns (args: seq<string>)
    requires s.volumeType == VOL_TYPE_DATASET
    ensures exists order :: IsOrder(s.userProperties, order) && args == CreateArgs(name, s, order)
  {
    args := AppendDataset(["create"], s);
    args := AppendCommon(args, s);
    args := AppendKeys(args, s);
    ghost var before := args;
    args := AppendUser(args, s.userProperties);
    ghost var order :|
        IsOrder(s.userProperties, order) && args == before + Flags(UserSettings(s.userProperties, order));
    args := AppendFlag(args, Native("mountpoint"), "legacy");
    ghost var user := UserSettings(s.userProperties, order);
    WriteFour(["create"], DatasetOnly(s), Common(s), KeySettings(s), user);
    WriteTwo(["create"], DatasetOnly(s) + Common(s) + KeySettings(s) + user, LEGACY);
    assert ["create"] + SizeFlags(s) == ["create"];
    args := args + [s.poolName + "/" + name];
    assert args == CreateArgs(name, s, order);
  }

  function CloneFirst(s: VolumeInfo): seq<Setting> {
    if s.volumeType == VOL_TYPE_DATASET then DatasetOnly(s) + LEGACY else []
  }

  method AppendCloneFirst(args: seq<string>, s: VolumeInfo) returns (r: seq<string>)
    ensures r == args + Flags(CloneFirst(s))
  {
    r := args;
    if s.volumeType == VOL_TYPE_DATASET {
      r := AppendDataset(r, s);
      r := AppendFlag(r, Native("mountpoint"), "legacy");
      WriteTwo(args, DatasetOnly(s), LEGACY);
    }
  }

  method BuildCloneCreateArgs(name: string, s: VolumeInfo) returns (args: seq<string>)
    ensures exists order :: IsOrder(s.userProperties, order) && args == CloneArgs(name, s, order)
  {
    var snapshot := s.poolName + "/" + SnapString(s.snapName);
    args := AppendCloneFirst(["clone"], s);
    args := AppendCommon(args, s);
    ghost var before := args;
    args := AppendUser(args, s.userProperties);
    ghost var order :|
        IsOrder(s.userProperties, order) && args == before + Flags(UserSettings(s.userProperties, order));
    WriteThree(["clone"], CloneFirst(s), Common(s), UserSettings(s.userProperties, order));
    args := args + [snapshot, s.poolName + "/" + name];
    assert args == CloneArgs(name, s, order);
  }

  method AppendAssignment(args: seq<string>, name: Prop, value: string) returns (r: seq<string>)
    ensures r == args + Assignments(Unless0(name, value))
  {
    r := args;
    if |value| != 0 {
      WriteOne((name, value));
      r := r + [name.name + "=" + value];
    }
  }

  method AppendUserAssignments(args: seq<string>, props: map<string, string>) returns (r: seq<string>)
    ensures exists order :: IsOrder(props, order) && r == args + Assignments(UserSettings(props, order))
  {
    r := args;
    ghost var order: seq<string> := [];
    var todo := props.Keys;
    while todo != {}
      invariant todo <= props.Keys
      invariant forall n :: n in order <==> n in props && n !in todo
      invariant forall i, j :: 0 <= i < j < |order| ==> order[i] != order[j]
      invariant r == args + Assignments(UserSettings(props, order))
      decreases todo
    {
      var n :| n in todo;
      OneMoreUser(args, props, order, n);
      r, order, todo := r + [n + "=" + props[n]], order + [n], todo - {n};
    }
  }

  method AppendCommonAssignments(args: seq<string>, s: VolumeInfo) returns (r: seq<string>)
    ensures r == args + Assignments(Common(s))
  {
    r := AppendAssignment(args, Native("dedup"), s.dedup);
    r := AppendAssignment(r, Native("compression"), s.compression);
    r := AppendAssignment(r, Native("logbias"), s.logBias);
    WriteThree(args, Unless0(Native("dedup"), s.dedup), Unless0(Native("compression"), s.compression),
        Unless0(Native("logbias"), s.logBias));
  }

  function SetFirst(s: VolumeInfo): seq<Setting> {
    if s.volumeType == VOL_TYPE_DATASET
    then Unless0(Native("recordsize"), s.recordSize) + Unless0(Native("atime"), s.atime) else []
  }

  method AppendSetFirst(args: seq<string>, s: VolumeInfo) returns (r: seq<string>)
    ensures r == args + Assignments(SetFirst(s))
  {
    r := args;
    if s.volumeType == VOL_TYPE_DATASET {
      r := AppendAssignment(r, Native("recordsize"), s.recordSize);
      r := AppendAssignment(r, Native("atime"), s.atime);
      WriteTwo(args, Unless0(Native("recordsize"), s.recordSize), Unless0(Native("atime"), s.atime));
    }
  }

  method BuildVolumeSetArgs(name: string, s: VolumeInfo) returns (args: seq<string>)
    ensures exists order :: IsOrder(s.userProperties, order) && args == SetArgs(name, s, order)
  {
    args := AppendSetFirst(["set"], s);
    args := AppendCommonAssignments(args, s);
    ghost var before := args;
    args := AppendUserAssignments(args, s.userProperties);
    ghost var order :|
        IsOrder(s.userProperties, order) && args == before + Assignments(UserSettings(s.userProperties, order));
    WriteThree(["set"], SetFirst(s), Common(s), UserSettings(s.userProperties, order));
    args := args + [s.poolName + "/" + name];
    assert args == SetArgs(name, s, order);
  }
}
