/**
 * The `zfs` argument lists, and `zfs` reading them back. A builder appends flags one by one;
 * a small interpreter turns the list into the properties `zfs` would set, refusing a
 * malformed or repeated one.
 */
module Argv {
  import opened Base
  import opened Resource

  /** A ZFS property: one of ZFS's own, or a user property, whose name has a colon. */
  datatype Prop = Native(name: string) | User(name: string)

  type Props = map<Prop, string>

  /** A property assignment, in the order it is written. */
  type Setting = (Prop, string)

  // ---- what a spec asks for, as an ordered list --------------------------------------

  function QuotaProperty(quotaType: string): Prop {
    if quotaType == "refquota" then Native("refquota") else Native("quota")
  }

  function ReservationProperty(quotaType: string): Prop {
    if QuotaProperty(quotaType) == Native("refquota") then Native("refreservation") else Native("reservation")
  }

  function Unless0(name: Prop, value: string): seq<Setting> {
    if value == "" then [] else [(name, value)]
  }

  function DatasetOnly(s: VolumeInfo): seq<Setting> {
    Unless0(QuotaProperty(s.quotaType), s.capacity)
    + Unless0(Native("recordsize"), s.recordSize)
    + Unless0(Native("atime"), s.atime)
    + (if s.thinProvision == "no" then [(ReservationProperty(s.quotaType), s.capacity)] else [])
  }

  function Common(s: VolumeInfo): seq<Setting> {
    Unless0(Native("dedup"), s.dedup) + Unless0(Native("compression"), s.compression)
    + Unless0(Native("logbias"), s.logBias)
  }

  function KeySettings(s: VolumeInfo): seq<Setting> {
    Unless0(Native("encryption"), s.encryption)
    + Unless0(Native("keylocation"), s.keyLocation)
    + Unless0(Native("keyformat"), s.keyFormat)
  }

  /** User properties in the order the map iteration happens to yield them. */
  function UserSettings(props: map<string, string>, order: seq<string>): (r: seq<Setting>)
    requires forall n :: n in order ==> n in props
    ensures |r| == |order|
    ensures forall i :: 0 <= i < |r| ==> r[i] == (User(order[i]), props[order[i]])
  {
    if order == [] then [] else [(User(order[0]), props[order[0]])] + UserSettings(props, order[1..])
  }

  /** An iteration order of a map: each key once. */
  ghost predicate IsOrder(props: map<string, string>, order: seq<string>) {
    && (forall n :: n in order <==> n in props)
    && (forall i, j :: 0 <= i < j < |order| ==> order[i] != order[j])
  }

  const LEGACY: seq<Setting> := [(Native("mountpoint"), "legacy")]

  function CreateSettings(s: VolumeInfo, order: seq<string>): seq<Setting>
    requires forall n :: n in order ==> n in s.userProperties
  {
    if s.volumeType == VOL_TYPE_DATASET then
      DatasetOnly(s) + Common(s) + KeySettings(s) + UserSettings(s.userProperties, order) + LEGACY
    else
      Common(s) + KeySettings(s) + UserSettings(s.userProperties, order)
  }

  /** A zvol's size and block size, which have flags of their own. */
  function SizeSettings(s: VolumeInfo): seq<Setting> {
    if s.volumeType == VOL_TYPE_DATASET then []
    else Unless0(Native("volsize"), s.capacity) + Unless0(Native("volblocksize"), s.volBlockSize)
  }

  function CloneSettings(s: VolumeInfo, order: seq<string>): seq<Setting>
    requires forall n :: n in order ==> n in s.userProperties
  {
    (if s.volumeType == VOL_TYPE_DATASET then DatasetOnly(s) + LEGACY else [])
    + Common(s) + UserSettings(s.userProperties, order)
  }

  function SetSettings(s: VolumeInfo, order: seq<string>): seq<Setting>
    requires forall n :: n in order ==> n in s.userProperties
  {
    (if s.volumeType == VOL_TYPE_DATASET
     then Unless0(Native("recordsize"), s.recordSize) + Unless0(Native("atime"), s.atime) else [])
    + Common(s) + UserSettings(s.userProperties, order)
  }

  function ResizeSettings(s: VolumeInfo): seq<Setting> {
    [(if s.volumeType == VOL_TYPE_DATASET then QuotaProperty(s.quotaType) else Native("volsize"), s.capacity)]
    + (if s.thinProvision == "no" then [(ReservationProperty(s.quotaType), s.capacity)] else [])
  }

  // ---- the argument lists -------------------------------------------------------------

  function Flags(ps: seq<Setting>): seq<string> {
    if ps == [] then [] else ["-o", ps[0].0.name + "=" + ps[0].1] + Flags(ps[1..])
  }

  function SizeFlags(s: VolumeInfo): seq<string> {
    if s.volumeType == VOL_TYPE_DATASET then []
    else
      (if s.thinProvision == "yes" then ["-s"] else [])
      + (if s.capacity == "" then [] else ["-V", s.capacity])
      + (if s.volBlockSize == "" then [] else ["-b", s.volBlockSize])
  }

  function Assignments(ps: seq<Setting>): seq<string> {
    if ps == [] then [] else [ps[0].0.name + "=" + ps[0].1] + Assignments(ps[1..])
  }

  function SnapString(r: SnapRef): string {
    if r.NoSnap? then "" else r.volume + "@" + r.snapshot
  }

  function CreateArgs(name: string, s: VolumeInfo, order: seq<string>): seq<string>
    requires forall n :: n in order ==> n in s.userProperties
  {
    ["create"] + SizeFlags(s) + Flags(CreateSettings(s, order)) + [s.poolName + "/" + name]
  }

  function CloneArgs(name: string, s: VolumeInfo, order: seq<string>): seq<string>
    requires forall n :: n in order ==> n in s.userProperties
  {
    ["clone"] + Flags(CloneSettings(s, order))
    + [s.poolName + "/" + SnapString(s.snapName), s.poolName + "/" + name]
  }

  function SetArgs(name: string, s: VolumeInfo, order: seq<string>): seq<string>
    requires forall n :: n in order ==> n in s.userProperties
  {
    ["set"] + Assignments(SetSettings(s, order)) + [s.poolName + "/" + name]
  }

  function ResizeArgs(name: string, s: VolumeInfo): seq<string> {
    ["set"] + Assignments(ResizeSettings(s)) + [s.poolName + "/" + name]
  }

  // ---- `zfs` reading an argument list ---------------------------------------------------

  /** Splits at the first '='; None when there is none. */
  function Split(a: string): Option<(string, string)> {
    if a == "" then None
    else if a[0] == '=' then Some(("", a[1..]))
    else
      match Split(a[1..])
      case None => None
      case Some((n, v)) => Some(([a[0]] + n, v))
  }

  /** "name=value"; the colon tells a user property from one of ZFS's own. */
  function ParseSetting(a: string): Option<Setting> {
    var split := Split(a);
    if split.None? then None
    else
      var (n, v) := split.value;
      Some((if ':' in n then User(n) else Native(n), v))
  }

  datatype Parsed = Parsed(sparse: bool, props: Props, operands: seq<string>)

  /** A property given twice makes `zfs` refuse the command. */
  function Add(props: Props, n: Prop, v: string): Option<Props> {
    if n in props then None else Some(props[n := v])
  }

  function ParseOptions(args: seq<string>, sparse: bool, props: Props): Option<Parsed>
    decreases |args|
  {
    if |args| >= 1 && args[0] == "-s" then ParseOptions(args[1..], true, props)
    else if |args| >= 2 && args[0] in {"-V", "-b", "-o"} then
      var setting := if args[0] == "-V" then Some((Native("volsize"), args[1]))
                     else if args[0] == "-b" then Some((Native("volblocksize"), args[1]))
                     else ParseSetting(args[1]);
      if setting.None? then None
      else
        var more := Add(props, setting.value.0, setting.value.1);
        if more.None? then None else ParseOptions(args[2..], sparse, more.value)
    else Some(Parsed(sparse, props, args))
  }

  /** `zfs set`: assignments up to the last argument, the dataset. */
  function ParseAssignments(args: seq<string>, props: Props): Option<Parsed> {
    if |args| == 0 then None
    else if |args| == 1 then Some(Parsed(false, props, args))
    else
      var setting := ParseSetting(args[0]);
      if setting.None? then None
      else
        var more := Add(props, setting.value.0, setting.value.1);
        if more.None? then None else ParseAssignments(args[1..], more.value)
  }

  // ---- reading back a written list ------------------------------------------------------

  /** A property that `zfs` reads back from its name. */
  ghost predicate Legible(p: Prop) { '=' !in p.name && (p.User? <==> ':' in p.name) }

  ghost predicate Distinct(ps: seq<Setting>) {
    forall i, j :: 0 <= i < j < |ps| ==> ps[i].0 != ps[j].0
  }

  function ToMap(ps: seq<Setting>): Props {
    if ps == [] then map[] else ToMap(ps[1..])[ps[0].0 := ps[0].1]
  }

  lemma {:induction false} SplitJoin(n: string, v: string)
    requires '=' !in n
    ensures Split(n + "=" + v) == Some((n, v))
  {
    if n == "" {
      assert n + "=" + v == "=" + v;
      assert ("=" + v)[1..] == v;
    } else {
      var a := n + "=" + v;
      SplitJoin(n[1..], v);
      assert a[1..] == n[1..] + "=" + v;
      assert [n[0]] + n[1..] == n;
    }
  }

  lemma LineParses(p: Setting)
    requires Legible(p.0)
    ensures ParseSetting(p.0.name + "=" + p.1) == Some(p)
  {
    SplitJoin(p.0.name, p.1);
  }

  lemma FlagStep(line: string, p: Setting, rest: seq<string>, sparse: bool, props: Props)
    requires ParseSetting(line) == Some(p) && p.0 !in props
    ensures ParseOptions(["-o", line] + rest, sparse, props) == ParseOptions(rest, sparse, props[p.0 := p.1])
  {
    assert (["-o", line] + rest)[2..] == rest;
  }

  lemma {:induction false} FlagsParse(ps: seq<Setting>, rest: seq<string>, sparse: bool, props: Props)
    requires Distinct(ps)
    requires forall p :: p in ps ==> Legible(p.0) && p.0 !in props
    ensures ParseOptions(Flags(ps) + rest, sparse, props) == ParseOptions(rest, sparse, props + ToMap(ps))
  {
    if ps == [] {
      assert Flags(ps) + rest == rest;
      assert props + ToMap(ps) == props;
    } else {
      var p := ps[0];
      var line := p.0.name + "=" + p.1;
      assert Flags(ps) + rest == ["-o", line] + (Flags(ps[1..]) + rest);
      LineParses(p);
      FlagStep(line, p, Flags(ps[1..]) + rest, sparse, props);
      FlagsParse(ps[1..], rest, sparse, props[p.0 := p.1]);
      MapOfCons(ps, props);
    }
  }

  lemma MapOfCons(ps: seq<Setting>, props: Props)
    requires ps != [] && Distinct(ps)
    ensures props[ps[0].0 := ps[0].1] + ToMap(ps[1..]) == props + ToMap(ps)
  {
    NotInMap(ps[1..], ps[0].0);
  }

  lemma {:induction false} NotInMap(ps: seq<Setting>, n: Prop)
    requires forall i :: 0 <= i < |ps| ==> ps[i].0 != n
    ensures n !in ToMap(ps)
  {
    if ps != [] { NotInMap(ps[1..], n); }
  }

  lemma {:induction false} AssignmentsParse(ps: seq<Setting>, target: string, props: Props)
    requires Distinct(ps)
    requires forall p :: p in ps ==> Legible(p.0) && p.0 !in props
    ensures ParseAssignments(Assignments(ps) + [target], props) == Some(Parsed(false, props + ToMap(ps), [target]))
  {
    if ps == [] {
      assert Assignments(ps) + [target] == [target];
      assert props + ToMap(ps) == props;
    } else {
      var p := ps[0];
      var args := Assignments(ps) + [target];
      assert args[0] == p.0.name + "=" + p.1 && args[1..] == Assignments(ps[1..]) + [target];
      SplitJoin(p.0.name, p.1);
      AssignmentsParse(ps[1..], target, props[p.0 := p.1]);
      MapOfCons(ps, props);
    }
  }

  // ---- what the spec's fields ask for, name by name ------------------------------------------

  /** A non-empty field. */
  function Field(value: string): Option<string> { if value == "" then None else Some(value) }

  /** The properties creation sets, whatever the kind of volume. */
  function CommonField(s: VolumeInfo, n: Prop): Option<string> {
    if n == Native("dedup") then Field(s.dedup)
    else if n == Native("compression") then Field(s.compression)
    else if n == Native("logbias") then Field(s.logBias)
    else None
  }

  function EncryptionField(s: VolumeInfo, n: Prop): Option<string> {
    if n == Native("encryption") then Field(s.encryption)
    else if n == Native("keylocation") then Field(s.keyLocation)
    else if n == Native("keyformat") then Field(s.keyFormat)
    else None
  }

  function DatasetField(s: VolumeInfo, n: Prop): Option<string> {
    if n == Native("quota") then (if s.quotaType != "refquota" then Field(s.capacity) else None)
    else if n == Native("refquota") then (if s.quotaType == "refquota" then Field(s.capacity) else None)
    else if n == Native("recordsize") then Field(s.recordSize)
    else if n == Native("atime") then Field(s.atime)
    else if n in {Native("reservation"), Native("refreservation")} then ReservationField(s, n)
    else if n == Native("mountpoint") then Some("legacy")
    else None
  }

  /** A thick volume reserves its capacity, by the property that goes with its quota. */
  function ReservationField(s: VolumeInfo, n: Prop): Option<string> {
    if s.thinProvision == "no" && (n == Native("reservation") <==> s.quotaType != "refquota") then Some(s.capacity)
    else None
  }

  /** What a resize should set: the quota or the zvol's size, and the reservation of a thick volume. */
  function ResizeField(s: VolumeInfo, n: Prop): Option<string> {
    if n == Native("quota") then
      (if s.volumeType == VOL_TYPE_DATASET && s.quotaType != "refquota" then Some(s.capacity) else None)
    else if n == Native("refquota") then
      (if s.volumeType == VOL_TYPE_DATASET && s.quotaType == "refquota" then Some(s.capacity) else None)
    else if n == Native("volsize") then (if s.volumeType != VOL_TYPE_DATASET then Some(s.capacity) else None)
    else if n in {Native("reservation"), Native("refreservation")} then ReservationField(s, n)
    else None
  }

  function ZvolField(s: VolumeInfo, n: Prop): Option<string> {
    if n == Native("volsize") then Field(s.capacity)
    else if n == Native("volblocksize") then Field(s.volBlockSize)
    else None
  }

  function Or(a: Option<string>, b: Option<string>): Option<string> { if a.Some? then a else b }

  function Lookup(m: Props, n: Prop): Option<string> {
    if n in m then Some(m[n]) else None
  }

  function UserField(s: VolumeInfo, n: Prop): Option<string> {
    if n.User? && n.name in s.userProperties then Some(s.userProperties[n.name]) else None
  }

  /** What `zfs create` should set the property to, if anything. */
  function CreateField(s: VolumeInfo, n: Prop): Option<string> {
    Or(UserField(s, n),
       Or(CommonField(s, n),
          Or(EncryptionField(s, n), if s.volumeType == VOL_TYPE_DATASET then DatasetField(s, n) else ZvolField(s, n))))
  }

  /** What `zfs clone` should set it to: no encryption, and no size for a zvol. */
  function CloneField(s: VolumeInfo, n: Prop): Option<string> {
    Or(UserField(s, n),
       Or(CommonField(s, n), if s.volumeType == VOL_TYPE_DATASET then DatasetField(s, n) else None))
  }

  /** What `zfs set` should set it to. */
  function SetField(s: VolumeInfo, n: Prop): Option<string> {
    Or(UserField(s, n),
       Or(CommonField(s, n),
          if s.volumeType == VOL_TYPE_DATASET && n in {Native("recordsize"), Native("atime")} then
            DatasetField(s, n)
          else
            None))
  }

  function UserProps(user: map<string, string>): (m: Props)
    ensures forall n :: n in m <==> n.User? && n.name in user
    ensures forall n :: n in m ==> m[n] == user[n.name]
  {
    map name | name in user :: User(name) := user[name]
  }

  /** ZFS's own properties of a new volume, a clone and an update. */
  function NativeCreate(s: VolumeInfo): seq<Setting> {
    SizeSettings(s) + (if s.volumeType == VOL_TYPE_DATASET then DatasetOnly(s) + LEGACY else [])
    + Common(s) + KeySettings(s)
  }

  function NativeClone(s: VolumeInfo): seq<Setting> {
    (if s.volumeType == VOL_TYPE_DATASET then DatasetOnly(s) + LEGACY else []) + Common(s)
  }

  function NativeSet(s: VolumeInfo): seq<Setting> {
    (if s.volumeType == VOL_TYPE_DATASET
     then Unless0(Native("recordsize"), s.recordSize) + Unless0(Native("atime"), s.atime) else [])
    + Common(s)
  }

  function CreateProps(s: VolumeInfo): Props { ToMap(NativeCreate(s)) + UserProps(s.userProperties) }
  function CloneProps(s: VolumeInfo): Props { ToMap(NativeClone(s)) + UserProps(s.userProperties) }
  function SetProps(s: VolumeInfo): Props { ToMap(NativeSet(s)) + UserProps(s.userProperties) }
  function ResizeProps(s: VolumeInfo): Props { ToMap(ResizeSettings(s)) }

  /** SetVolumeProp's test for having nothing to do. */
  predicate NothingToSet(s: VolumeInfo) {
    && |s.compression| == 0 && |s.dedup| == 0 && |s.logBias| == 0 && |s.userProperties| == 0
    && (s.volumeType != VOL_TYPE_DATASET || (|s.recordSize| == 0 && |s.atime| == 0))
  }

  // ---- a settings list, looked up name by name --------------------------------------------

  lemma {:induction false} LookupConcat(a: seq<Setting>, b: seq<Setting>, n: Prop)
    ensures Lookup(ToMap(a + b), n) == Or(Lookup(ToMap(a), n), Lookup(ToMap(b), n))
  {
    if a == [] {
      assert a + b == b;
    } else {
      assert (a + b)[1..] == a[1..] + b;
      LookupConcat(a[1..], b, n);
    }
  }

  lemma LookupUnless0(name: Prop, value: string, n: Prop)
    ensures Lookup(ToMap(Unless0(name, value)), n) == if n == name then Field(value) else None
  {
    if value != "" { assert Unless0(name, value)[1..] == []; }
  }

  lemma LookupOne(name: Prop, value: string, n: Prop)
    ensures Lookup(ToMap([(name, value)]), n) == if n == name then Some(value) else None
  {
    assert [(name, value)][1..] == [];
  }

  lemma LookupCommon(s: VolumeInfo, n: Prop)
    ensures Lookup(ToMap(Common(s)), n) == CommonField(s, n)
  {
    var d, c, l := Unless0(Native("dedup"), s.dedup), Unless0(Native("compression"), s.compression),
        Unless0(Native("logbias"), s.logBias);
    LookupConcat(d + c, l, n);
    LookupConcat(d, c, n);
    LookupUnless0(Native("dedup"), s.dedup, n);
    LookupUnless0(Native("compression"), s.compression, n);
    LookupUnless0(Native("logbias"), s.logBias, n);
  }

  lemma LookupEncryption(s: VolumeInfo, n: Prop)
    ensures Lookup(ToMap(KeySettings(s)), n) == EncryptionField(s, n)
  {
    var e, l, f := Unless0(Native("encryption"), s.encryption), Unless0(Native("keylocation"), s.keyLocation),
        Unless0(Native("keyformat"), s.keyFormat);
    LookupConcat(e + l, f, n);
    LookupConcat(e, l, n);
    LookupUnless0(Native("encryption"), s.encryption, n);
    LookupUnless0(Native("keylocation"), s.keyLocation, n);
    LookupUnless0(Native("keyformat"), s.keyFormat, n);
  }

  lemma LookupDataset(s: VolumeInfo, n: Prop)
    ensures Or(Lookup(ToMap(DatasetOnly(s)), n), Lookup(ToMap(LEGACY), n)) == DatasetField(s, n)
  {
    var q, r, a := Unless0(QuotaProperty(s.quotaType), s.capacity), Unless0(Native("recordsize"), s.recordSize),
        Unless0(Native("atime"), s.atime);
    var v := if s.thinProvision == "no" then [(ReservationProperty(s.quotaType), s.capacity)] else [];
    LookupConcat(q + r + a, v, n);
    LookupConcat(q + r, a, n);
    LookupConcat(q, r, n);
    LookupUnless0(QuotaProperty(s.quotaType), s.capacity, n);
    LookupUnless0(Native("recordsize"), s.recordSize, n);
    LookupUnless0(Native("atime"), s.atime, n);
    LookupOne(ReservationProperty(s.quotaType), s.capacity, n);
    LookupOne(Native("mountpoint"), "legacy", n);
  }

  lemma LookupSize(s: VolumeInfo, n: Prop)
    ensures Lookup(ToMap(SizeSettings(s)), n) == if s.volumeType == VOL_TYPE_DATASET then None else ZvolField(s, n)
  {
    LookupConcat(Unless0(Native("volsize"), s.capacity), Unless0(Native("volblocksize"), s.volBlockSize), n);
    LookupUnless0(Native("volsize"), s.capacity, n);
    LookupUnless0(Native("volblocksize"), s.volBlockSize, n);
  }

  lemma {:induction false} LookupUser(props: map<string, string>, order: seq<string>, n: Prop)
    requires forall m :: m in order ==> m in props
    ensures Lookup(ToMap(UserSettings(props, order)), n)
         == if n.User? && n.name in order then Some(props[n.name]) else None
  {
    if order != [] {
      LookupUser(props, order[1..], n);
      assert UserSettings(props, order)[1..] == UserSettings(props, order[1..]);
    }
  }
}
