/**
 * `zfs` reads every argument list back as exactly the properties the spec asks for, whatever
 * order the user properties come in.
 */
module ArgvRoundTrip {
  import opened Base
  import opened Resource
  import opened UserProp
  import opened Argv

  // ---- names do not clash ---------------------------------------------------------------

  /** Legible settings of distinct properties, all taken from a set. */
  ghost predicate Block(ps: seq<Setting>, names: set<Prop>) {
    Distinct(ps) && forall p :: p in ps ==> p.0 in names && Legible(p.0)
  }

  lemma Join(a: seq<Setting>, A: set<Prop>, b: seq<Setting>, B: set<Prop>)
    requires Block(a, A) && Block(b, B) && A !! B
    ensures Block(a + b, A + B)
  {
    var ps := a + b;
    forall i, j | 0 <= i < j < |ps| ensures ps[i].0 != ps[j].0 {
      if i < |a| { assert ps[i] in a; }
      if j >= |a| { assert ps[j] in b; }
      if i >= |a| { assert ps[i] == b[i - |a|] && ps[j] == b[j - |a|]; }
    }
  }

  lemma OneName(name: Prop, value: string)
    requires Legible(name)
    ensures Block([(name, value)], {name}) && Block(Unless0(name, value), {name})
  {
  }

  lemma ThreeNames(a: string, b: string, c: string, x: string, y: string, z: string)
    requires Legible(Native(a)) && Legible(Native(b)) && Legible(Native(c)) && a != b && b != c && c != a
    ensures Block(Unless0(Native(a), x) + Unless0(Native(b), y) + Unless0(Native(c), z),
        {Native(a), Native(b), Native(c)})
  {
    OneName(Native(a), x);
    OneName(Native(b), y);
    OneName(Native(c), z);
    Join(Unless0(Native(a), x), {Native(a)}, Unless0(Native(b), y), {Native(b)});
    Join(Unless0(Native(a), x) + Unless0(Native(b), y), {Native(a)} + {Native(b)}, Unless0(Native(c), z), {Native(c)});
  }

  const COMMON_NAMES: set<Prop> := {Native("dedup"), Native("compression"), Native("logbias")}
  const KEY_NAMES: set<Prop> := {Native("encryption"), Native("keylocation"), Native("keyformat")}
  const SIZE_NAMES: set<Prop> := {Native("volsize"), Native("volblocksize")}

  function DatasetNames(s: VolumeInfo): set<Prop> {
    {QuotaProperty(s.quotaType), Native("recordsize"), Native("atime"), ReservationProperty(s.quotaType)}
  }

  lemma FourNames(a: string, b: string, c: string, d: string, x: string, y: string, z: string, last: seq<Setting>)
    requires Legible(Native(a)) && Legible(Native(b)) && Legible(Native(c)) && Legible(Native(d))
    requires a != b && b != c && c != a && d != a && d != b && d != c
    requires last == [] || exists w :: last == [(Native(d), w)]
    ensures Block(Unless0(Native(a), x) + Unless0(Native(b), y) + Unless0(Native(c), z) + last,
                  {Native(a), Native(b), Native(c)} + {Native(d)})
  {
    ThreeNames(a, b, c, x, y, z);
    Join(Unless0(Native(a), x) + Unless0(Native(b), y) + Unless0(Native(c), z), {Native(a), Native(b), Native(c)},
        last, {Native(d)});
  }

  lemma DatasetNamesLegible()
    ensures Legible(Native("quota")) && Legible(Native("refquota"))
    ensures Legible(Native("reservation")) && Legible(Native("refreservation"))
    ensures Legible(Native("recordsize")) && Legible(Native("atime"))
  {
  }

  lemma DatasetBlock(s: VolumeInfo)
    ensures Block(DatasetOnly(s), DatasetNames(s))
  {
    var Q, V := QuotaProperty(s.quotaType), ReservationProperty(s.quotaType);
    DatasetNamesLegible();
    FourNames(Q.name, "recordsize", "atime", V.name, s.capacity, s.recordSize, s.atime,
         if s.thinProvision == "no" then [(V, s.capacity)] else []);
  }

  lemma CommonBlock(s: VolumeInfo)
    ensures Block(Common(s), COMMON_NAMES)
  {
    assert Legible(Native("dedup")) && Legible(Native("compression")) && Legible(Native("logbias"));
    ThreeNames("dedup", "compression", "logbias", s.dedup, s.compression, s.logBias);
  }

  lemma KeyBlock(s: VolumeInfo)
    ensures Block(KeySettings(s), KEY_NAMES)
  {
    assert Legible(Native("encryption")) && Legible(Native("keylocation")) && Legible(Native("keyformat"));
    ThreeNames("encryption", "keylocation", "keyformat", s.encryption, s.keyLocation, s.keyFormat);
  }

  lemma LegacyBlock()
    ensures Block(LEGACY, {Native("mountpoint")})
  {
    assert Legible(Native("mountpoint"));
    OneName(Native("mountpoint"), "legacy");
  }

  lemma UserLegible(n: string)
    requires ValidName(n)
    ensures Legible(User(n))
  {
    assert !NameByte('=');
  }

  lemma UserBlock(props: map<string, string>, order: seq<string>)
    requires ValidProps(props) && IsOrder(props, order)
    ensures Block(UserSettings(props, order), UserProps(props).Keys)
  {
    forall n | n in props ensures Legible(User(n)) { UserLegible(n); }
  }

  lemma NamesApart(s: VolumeInfo)
    ensures DatasetNames(s) !! COMMON_NAMES && DatasetNames(s) !! {Native("mountpoint")}
    ensures COMMON_NAMES !! {Native("mountpoint")}
    ensures DatasetNames(s) + COMMON_NAMES + {Native("mountpoint")} !! UserProps(s.userProperties).Keys
  {
  }

  lemma KeysApart(s: VolumeInfo)
    ensures DatasetNames(s) !! KEY_NAMES && COMMON_NAMES !! KEY_NAMES && KEY_NAMES !! {Native("mountpoint")}
    ensures KEY_NAMES !! UserProps(s.userProperties).Keys
  {
  }

  /** No other property's name begins like a size's. */
  lemma NoV(s: VolumeInfo, n: Prop)
    requires n in DatasetNames(s) + COMMON_NAMES + KEY_NAMES + {Native("mountpoint")}
    ensures n.Native? && n.name != "" && n.name[0] != 'v'
  {
    if n in DatasetNames(s) { assert n.name[0] in {'q', 'r', 'a'}; }
    else if n in COMMON_NAMES { assert n.name[0] in {'d', 'c', 'l'}; }
    else if n in KEY_NAMES { assert n.name[0] in {'e', 'k'}; }
    else { assert n.name[0] == 'm'; }
  }

  lemma SizesApart(s: VolumeInfo)
    ensures SIZE_NAMES !! DatasetNames(s) + COMMON_NAMES + KEY_NAMES + {Native("mountpoint")}
      + UserProps(s.userProperties).Keys
  {
    var others := DatasetNames(s) + COMMON_NAMES + KEY_NAMES + {Native("mountpoint")};
    forall n | n in others ensures n !in SIZE_NAMES {
      NoV(s, n);
      assert "volsize"[0] == 'v' && "volblocksize"[0] == 'v';
    }
  }

  lemma JoinFive(a: seq<Setting>, A: set<Prop>, b: seq<Setting>, B: set<Prop>, c: seq<Setting>, C: set<Prop>,
                 d: seq<Setting>, D: set<Prop>, e: seq<Setting>, E: set<Prop>)
    requires Block(a, A) && Block(b, B) && Block(c, C) && Block(d, D) && Block(e, E)
    requires A !! B && A !! C && A !! D && A !! E && B !! C && B !! D && B !! E && C !! D && C !! E && D !! E
    ensures Block(a + b + c + d + e, A + B + C + D + E)
  {
    Join(a, A, b, B);
    Join(a + b, A + B, c, C);
    Join(a + b + c, A + B + C, d, D);
    Join(a + b + c + d, A + B + C + D, e, E);
  }

  ghost function CreateNames(s: VolumeInfo): set<Prop> {
    DatasetNames(s) + COMMON_NAMES + KEY_NAMES + UserProps(s.userProperties).Keys + {Native("mountpoint")}
  }

  lemma Widen(ps: seq<Setting>, A: set<Prop>, B: set<Prop>)
    requires Block(ps, A) && A <= B
    ensures Block(ps, B)
  {
  }

  lemma CreateBlock(s: VolumeInfo, order: seq<string>)
    requires ValidProps(s.userProperties) && IsOrder(s.userProperties, order)
    ensures Block(CreateSettings(s, order), CreateNames(s))
  {
    var U := UserProps(s.userProperties).Keys;
    DatasetBlock(s);
    CommonBlock(s);
    KeyBlock(s);
    LegacyBlock();
    UserBlock(s.userProperties, order);
    NamesApart(s);
    KeysApart(s);
    if s.volumeType == VOL_TYPE_DATASET {
      JoinFive(DatasetOnly(s), DatasetNames(s), Common(s), COMMON_NAMES, KeySettings(s), KEY_NAMES,
               UserSettings(s.userProperties, order), U, LEGACY, {Native("mountpoint")});
    } else {
      Join(Common(s), COMMON_NAMES, KeySettings(s), KEY_NAMES);
      Join(Common(s) + KeySettings(s), COMMON_NAMES + KEY_NAMES, UserSettings(s.userProperties, order), U);
      Widen(CreateSettings(s, order), COMMON_NAMES + KEY_NAMES + U, CreateNames(s));
    }
  }

  lemma CloneBlock(s: VolumeInfo, order: seq<string>)
    requires ValidProps(s.userProperties) && IsOrder(s.userProperties, order)
    ensures Block(CloneSettings(s, order), CreateNames(s))
  {
    var U, D := UserProps(s.userProperties).Keys, DatasetNames(s) + {Native("mountpoint")};
    DatasetBlock(s);
    CommonBlock(s);
    LegacyBlock();
    UserBlock(s.userProperties, order);
    NamesApart(s);
    Join(DatasetOnly(s), DatasetNames(s), LEGACY, {Native("mountpoint")});
    var first := if s.volumeType == VOL_TYPE_DATASET then DatasetOnly(s) + LEGACY else [];
    Join(first, D, Common(s), COMMON_NAMES);
    Join(first + Common(s), D + COMMON_NAMES, UserSettings(s.userProperties, order), U);
    Widen(CloneSettings(s, order), D + COMMON_NAMES + U, CreateNames(s));
  }

  lemma SetBlock(s: VolumeInfo, order: seq<string>)
    requires ValidProps(s.userProperties) && IsOrder(s.userProperties, order)
    ensures Block(SetSettings(s, order), CreateNames(s))
  {
    var U, D := UserProps(s.userProperties).Keys, {Native("recordsize")} + {Native("atime")};
    DatasetNamesLegible();
    OneName(Native("recordsize"), s.recordSize);
    OneName(Native("atime"), s.atime);
    Join(Unless0(Native("recordsize"), s.recordSize), {Native("recordsize")}, Unless0(Native("atime"), s.atime),
        {Native("atime")});
    CommonBlock(s);
    UserBlock(s.userProperties, order);
    NamesApart(s);
    assert D <= DatasetNames(s);
    var first := if s.volumeType == VOL_TYPE_DATASET
                 then Unless0(Native("recordsize"), s.recordSize) + Unless0(Native("atime"), s.atime) else [];
    Join(first, D, Common(s), COMMON_NAMES);
    Join(first + Common(s), D + COMMON_NAMES, UserSettings(s.userProperties, order), U);
    Widen(SetSettings(s, order), D + COMMON_NAMES + U, CreateNames(s));
  }

  // ---- the lists hold exactly the wanted properties -----------------------------------------

  lemma SameLookups(a: Props, b: Props)
    requires forall n :: Lookup(a, n) == Lookup(b, n)
    ensures a == b
  {
    forall n ensures n in a <==> n in b { assert Lookup(a, n) == Lookup(b, n); }
    forall n | n in a ensures a[n] == b[n] { assert Lookup(a, n) == Lookup(b, n); }
  }

  /** No native field answers to a user property. */
  lemma OnlyUser(s: VolumeInfo, n: Prop)
    requires n.User?
    ensures CommonField(s, n).None? && EncryptionField(s, n).None? && DatasetField(s, n).None? && ZvolField(s, n).None?
  {
  }

  lemma NativeFirst(native: Props, s: VolumeInfo, n: Prop)
    ensures Lookup(native + UserProps(s.userProperties), n) == Or(UserField(s, n), Lookup(native, n))
  {
  }

  /** What a new volume gets, name by name. */
  lemma CreateExact(s: VolumeInfo, n: Prop)
    ensures Lookup(CreateProps(s), n) == CreateField(s, n)
  {
    var first := if s.volumeType == VOL_TYPE_DATASET then DatasetOnly(s) + LEGACY else [];
    NativeFirst(ToMap(NativeCreate(s)), s, n);
    LookupConcat(SizeSettings(s) + first + Common(s), KeySettings(s), n);
    LookupConcat(SizeSettings(s) + first, Common(s), n);
    LookupConcat(SizeSettings(s), first, n);
    LookupConcat(DatasetOnly(s), LEGACY, n);
    CreateFields(s, n);
  }

  /** The blocks answer to different names, so their order does not matter. */
  lemma CreateFields(s: VolumeInfo, n: Prop)
    ensures Lookup(ToMap(SizeSettings(s)), n) == if s.volumeType == VOL_TYPE_DATASET then None else ZvolField(s, n)
    ensures Lookup(ToMap(Common(s)), n) == CommonField(s, n)
    ensures Lookup(ToMap(KeySettings(s)), n) == EncryptionField(s, n)
    ensures Or(Lookup(ToMap(DatasetOnly(s)), n), Lookup(ToMap(LEGACY), n)) == DatasetField(s, n)
    ensures CommonField(s, n).Some? ==> EncryptionField(s, n).None? && DatasetField(s, n).None? && ZvolField(s, n).None?
    ensures EncryptionField(s, n).Some? ==> DatasetField(s, n).None? && ZvolField(s, n).None?
  {
    LookupSize(s, n);
    LookupCommon(s, n);
    LookupEncryption(s, n);
    LookupDataset(s, n);
    FieldsApart(s, n);
  }

  lemma CommonApart(s: VolumeInfo, n: Prop)
    ensures CommonField(s, n).Some? ==> EncryptionField(s, n).None? && DatasetField(s, n).None? && ZvolField(s, n).None?
  {
    if n in COMMON_NAMES { NamesApart(s); KeysApart(s); SizesApart(s); }
  }

  lemma FieldsApart(s: VolumeInfo, n: Prop)
    ensures CommonField(s, n).Some? ==> EncryptionField(s, n).None? && DatasetField(s, n).None? && ZvolField(s, n).None?
    ensures EncryptionField(s, n).Some? ==> DatasetField(s, n).None? && ZvolField(s, n).None?
  {
    CommonApart(s, n);
    if n in KEY_NAMES { NamesApart(s); KeysApart(s); SizesApart(s); }
  }

  lemma CloneExact(s: VolumeInfo, n: Prop)
    ensures Lookup(CloneProps(s), n) == CloneField(s, n)
  {
    var first := if s.volumeType == VOL_TYPE_DATASET then DatasetOnly(s) + LEGACY else [];
    NativeFirst(ToMap(NativeClone(s)), s, n);
    LookupConcat(first, Common(s), n);
    LookupConcat(DatasetOnly(s), LEGACY, n);
    CreateFields(s, n);
  }

  lemma LookupSettable(s: VolumeInfo, n: Prop)
    ensures Lookup(ToMap(Unless0(Native("recordsize"), s.recordSize) + Unless0(Native("atime"), s.atime)), n)
         == if n in {Native("recordsize"), Native("atime")} then DatasetField(s, n) else None
  {
    LookupConcat(Unless0(Native("recordsize"), s.recordSize), Unless0(Native("atime"), s.atime), n);
    LookupUnless0(Native("recordsize"), s.recordSize, n);
    LookupUnless0(Native("atime"), s.atime, n);
  }

  lemma SetExact(s: VolumeInfo, n: Prop)
    ensures Lookup(SetProps(s), n) == SetField(s, n)
  {
    var first := if s.volumeType == VOL_TYPE_DATASET
                 then Unless0(Native("recordsize"), s.recordSize) + Unless0(Native("atime"), s.atime) else [];
    NativeFirst(ToMap(NativeSet(s)), s, n);
    LookupConcat(first, Common(s), n);
    LookupSettable(s, n);
    LookupCommon(s, n);
    FieldsApart(s, n);
  }

  lemma LookupAll(s: VolumeInfo, order: seq<string>, n: Prop)
    requires IsOrder(s.userProperties, order)
    ensures Lookup(ToMap(UserSettings(s.userProperties, order)), n) == UserField(s, n)
  {
    LookupUser(s.userProperties, order, n);
  }

  lemma CreateWritten(s: VolumeInfo, order: seq<string>, n: Prop)
    requires IsOrder(s.userProperties, order)
    ensures Or(Lookup(ToMap(SizeSettings(s)), n), Lookup(ToMap(CreateSettings(s, order)), n)) == CreateField(s, n)
  {
    var d, c, e, u := DatasetOnly(s), Common(s), KeySettings(s), UserSettings(s.userProperties, order);
    CreateFields(s, n);
    LookupAll(s, order, n);
    if n.User? { OnlyUser(s, n); }
    if s.volumeType == VOL_TYPE_DATASET {
      LookupConcat(d + c + e + u, LEGACY, n);
      LookupConcat(d + c + e, u, n);
      LookupConcat(d + c, e, n);
      LookupConcat(d, c, n);
    } else {
      LookupConcat(c + e, u, n);
      LookupConcat(c, e, n);
    }
  }

  lemma CloneWritten(s: VolumeInfo, order: seq<string>, n: Prop)
    requires IsOrder(s.userProperties, order)
    ensures Lookup(ToMap(CloneSettings(s, order)), n) == CloneField(s, n)
  {
    var first := if s.volumeType == VOL_TYPE_DATASET then DatasetOnly(s) + LEGACY else [];
    CreateFields(s, n);
    LookupAll(s, order, n);
    if n.User? { OnlyUser(s, n); }
    LookupConcat(first + Common(s), UserSettings(s.userProperties, order), n);
    LookupConcat(first, Common(s), n);
    LookupConcat(DatasetOnly(s), LEGACY, n);
  }

  lemma SetWritten(s: VolumeInfo, order: seq<string>, n: Prop)
    requires IsOrder(s.userProperties, order)
    ensures Lookup(ToMap(SetSettings(s, order)), n) == SetField(s, n)
  {
    var first := if s.volumeType == VOL_TYPE_DATASET
                 then Unless0(Native("recordsize"), s.recordSize) + Unless0(Native("atime"), s.atime) else [];
    LookupConcat(first + Common(s), UserSettings(s.userProperties, order), n);
    LookupConcat(first, Common(s), n);
    LookupSettable(s, n);
    LookupCommon(s, n);
    LookupAll(s, order, n);
    FieldsApart(s, n);
    if n.User? { OnlyUser(s, n); }
  }

  // ---- round trips ------------------------------------------------------------------------

  /** A dataset path has a slash, so it is not taken for a flag. */
  lemma PathIsOperand(rest: seq<string>, sparse: bool, props: Props)
    requires rest != [] && '/' in rest[0]
    ensures ParseOptions(rest, sparse, props) == Some(Parsed(sparse, props, rest))
  {
    assert '/' !in "-s" && '/' !in "-V" && '/' !in "-b" && '/' !in "-o";
  }

  lemma SparseStep(sparse: bool, rest: seq<string>)
    ensures ParseOptions((if sparse then ["-s"] else []) + rest, false, map[])
         == ParseOptions(rest, false || sparse, map[])
  {
    if sparse { assert (["-s"] + rest)[1..] == rest; } else { assert [] + rest == rest; }
  }

  lemma SizeStep(flag: string, name: string, value: string, rest: seq<string>, sparse: bool, props: Props)
    requires (flag, name) == ("-V", "volsize") || (flag, name) == ("-b", "volblocksize")
    requires Native(name) !in props
    ensures ParseOptions((if value == "" then [] else [flag, value]) + rest, sparse, props)
         == ParseOptions(rest, sparse, props + ToMap(Unless0(Native(name), value)))
  {
    if value == "" {
      assert [] + rest == rest && props + ToMap([]) == props;
    } else {
      assert ([flag, value] + rest)[2..] == rest;
      assert Unless0(Native(name), value)[1..] == [];
      assert props + ToMap(Unless0(Native(name), value)) == props[Native(name) := value];
    }
  }

  lemma SizeFlagsParse(s: VolumeInfo, rest: seq<string>)
    requires s.volumeType != VOL_TYPE_DATASET
    ensures ParseOptions(SizeFlags(s) + rest, false, map[])
         == ParseOptions(rest, s.thinProvision == "yes", ToMap(SizeSettings(s)))
  {
    var sparse := s.thinProvision == "yes";
    var z, v, b := if sparse then ["-s"] else [], if s.capacity == "" then [] else ["-V", s.capacity],
                   if s.volBlockSize == "" then [] else ["-b", s.volBlockSize];
    var first: Props := map[];
    var size, block := Unless0(Native("volsize"), s.capacity), Unless0(Native("volblocksize"), s.volBlockSize);
    assert SizeFlags(s) + rest == z + (v + (b + rest));
    SparseStep(sparse, v + (b + rest));
    SizeStep("-V", "volsize", s.capacity, b + rest, sparse, first);
    LookupUnless0(Native("volsize"), s.capacity, Native("volblocksize"));
    SizeStep("-b", "volblocksize", s.volBlockSize, rest, sparse, first + ToMap(size));
    forall n ensures Lookup(first + ToMap(size) + ToMap(block), n) == Lookup(ToMap(SizeSettings(s)), n) {
      LookupConcat(size, block, n);
      LookupUnless0(Native("volsize"), s.capacity, n);
      LookupUnless0(Native("volblocksize"), s.volBlockSize, n);
    }
    SameLookups(first + ToMap(size) + ToMap(block), ToMap(SizeSettings(s)));
  }

  lemma {:induction false} MapNames(ps: seq<Setting>, n: Prop, names: set<Prop>)
    requires n in ToMap(ps) && Block(ps, names)
    ensures n in names
  {
    if n == ps[0].0 { assert ps[0] in ps; } else { MapNames(ps[1..], n, names); }
  }

  lemma NotASize(s: VolumeInfo, n: Prop)
    requires n in CreateNames(s)
    ensures n !in ToMap(SizeSettings(s))
  {
    SizesApart(s);
    assert n !in SIZE_NAMES;
    LookupSize(s, n);
  }

  lemma SizesDoNotHide(s: VolumeInfo, order: seq<string>)
    requires ValidProps(s.userProperties) && IsOrder(s.userProperties, order)
    ensures forall p :: p in CreateSettings(s, order) ==> p.0 !in ToMap(SizeSettings(s))
    ensures forall n :: n in ToMap(CreateSettings(s, order)) ==> n !in ToMap(SizeSettings(s))
  {
    CreateBlock(s, order);
    forall n | n in CreateNames(s) ensures n !in ToMap(SizeSettings(s)) { NotASize(s, n); }
    forall n | n in ToMap(CreateSettings(s, order)) ensures n in CreateNames(s) {
      MapNames(CreateSettings(s, order), n, CreateNames(s));
    }
  }

  lemma SizesAndRest(s: VolumeInfo, order: seq<string>)
    requires ValidProps(s.userProperties) && IsOrder(s.userProperties, order)
    ensures ToMap(SizeSettings(s)) + ToMap(CreateSettings(s, order)) == CreateProps(s)
  {
    var sizes, rest := ToMap(SizeSettings(s)), ToMap(CreateSettings(s, order));
    SizesDoNotHide(s, order);
    forall n ensures Lookup(sizes + rest, n) == Lookup(CreateProps(s), n) {
      CreateWritten(s, order, n);
      CreateExact(s, n);
    }
    SameLookups(sizes + rest, CreateProps(s));
  }

  lemma CreateOptions(s: VolumeInfo, order: seq<string>, target: seq<string>)
    requires ValidProps(s.userProperties) && IsOrder(s.userProperties, order)
    ensures ParseOptions(SizeFlags(s) + (Flags(CreateSettings(s, order)) + target), false, map[])
         == ParseOptions(target, s.volumeType != VOL_TYPE_DATASET && s.thinProvision == "yes", CreateProps(s))
  {
    var ps := CreateSettings(s, order);
    if s.volumeType == VOL_TYPE_DATASET {
      assert SizeFlags(s) + (Flags(ps) + target) == Flags(ps) + target;
    } else {
      SizeFlagsParse(s, Flags(ps) + target);
    }
    CreateBlock(s, order);
    SizesDoNotHide(s, order);
    SizesAndRest(s, order);
    FlagsParse(ps, target, s.volumeType != VOL_TYPE_DATASET && s.thinProvision == "yes", ToMap(SizeSettings(s)));
  }

  lemma PathHasSlash(pool: string, name: string)
    ensures '/' in pool + "/" + name
  {
    assert (pool + "/" + name)[|pool|] == '/';
  }

  /** The subcommand each list starts with. */
  lemma Subcommands(name: string, s: VolumeInfo, order: seq<string>)
    requires forall n :: n in order ==> n in s.userProperties
    ensures ["create"] <= CreateArgs(name, s, order) && ["clone"] <= CloneArgs(name, s, order)
    ensures ["set"] <= SetArgs(name, s, order) && ["set"] <= ResizeArgs(name, s)
  {
  }

  lemma CreateTail(name: string, s: VolumeInfo, order: seq<string>)
    requires forall n :: n in order ==> n in s.userProperties
    ensures CreateArgs(name, s, order)[1..]
         == SizeFlags(s) + (Flags(CreateSettings(s, order)) + [s.poolName + "/" + name])
  {
  }

  /** `zfs create`: the wanted properties, sparse for a thin zvol, on the right dataset. */
  lemma CreateRoundTrip(name: string, s: VolumeInfo, order: seq<string>)
    requires ValidProps(s.userProperties) && IsOrder(s.userProperties, order)
    ensures ParseOptions(CreateArgs(name, s, order)[1..], false, map[])
         == Some(Parsed(s.volumeType != VOL_TYPE_DATASET && s.thinProvision == "yes", CreateProps(s),
             [s.poolName + "/" + name]))
  {
    CreateTail(name, s, order);
    CreateOptions(s, order, [s.poolName + "/" + name]);
    PathHasSlash(s.poolName, name);
    PathIsOperand([s.poolName + "/" + name], s.volumeType != VOL_TYPE_DATASET && s.thinProvision == "yes",
        CreateProps(s));
  }

  lemma CloneMap(s: VolumeInfo, order: seq<string>)
    requires ValidProps(s.userProperties) && IsOrder(s.userProperties, order)
    ensures ToMap(CloneSettings(s, order)) == CloneProps(s)
  {
    var props := ToMap(CloneSettings(s, order));
    forall n ensures Lookup(props, n) == Lookup(CloneProps(s), n) {
      CloneWritten(s, order, n);
      CloneExact(s, n);
    }
    SameLookups(props, CloneProps(s));
  }

  lemma BlockParses(ps: seq<Setting>, names: set<Prop>, rest: seq<string>)
    requires Block(ps, names)
    ensures ParseOptions(Flags(ps) + rest, false, map[]) == ParseOptions(rest, false, ToMap(ps))
  {
    var none: Props := map[];
    FlagsParse(ps, rest, false, none);
    assert none + ToMap(ps) == ToMap(ps);
  }

  lemma CloneOptions(s: VolumeInfo, order: seq<string>, operands: seq<string>)
    requires ValidProps(s.userProperties) && IsOrder(s.userProperties, order)
    ensures ParseOptions(Flags(CloneSettings(s, order)) + operands, false, map[])
         == ParseOptions(operands, false, CloneProps(s))
  {
    CloneBlock(s, order);
    CloneMap(s, order);
    BlockParses(CloneSettings(s, order), CreateNames(s), operands);
  }

  lemma CloneTail(name: string, s: VolumeInfo, order: seq<string>)
    requires forall n :: n in order ==> n in s.userProperties
    ensures CloneArgs(name, s, order)[1..]
         == Flags(CloneSettings(s, order)) + [s.poolName + "/" + SnapString(s.snapName), s.poolName + "/" + name]
  {
  }

  /** `zfs clone`: the wanted properties, the source snapshot and the new dataset. */
  lemma CloneRoundTrip(name: string, s: VolumeInfo, order: seq<string>)
    requires ValidProps(s.userProperties) && IsOrder(s.userProperties, order)
    ensures ParseOptions(CloneArgs(name, s, order)[1..], false, map[])
         == Some(Parsed(false, CloneProps(s), [s.poolName + "/" + SnapString(s.snapName), s.poolName + "/" + name]))
    ensures s.snapName.SnapOf? ==> SnapString(s.snapName) == s.snapName.volume + "@" + s.snapName.snapshot
  {
    var operands := [s.poolName + "/" + SnapString(s.snapName), s.poolName + "/" + name];
    CloneTail(name, s, order);
    CloneOptions(s, order, operands);
    PathHasSlash(s.poolName, SnapString(s.snapName));
    PathIsOperand(operands, false, CloneProps(s));
  }

  lemma SetMap(s: VolumeInfo, order: seq<string>)
    requires ValidProps(s.userProperties) && IsOrder(s.userProperties, order)
    ensures ToMap(SetSettings(s, order)) == SetProps(s)
  {
    var props := ToMap(SetSettings(s, order));
    forall n ensures Lookup(props, n) == Lookup(SetProps(s), n) {
      SetWritten(s, order, n);
      SetExact(s, n);
    }
    SameLookups(props, SetProps(s));
  }

  lemma BlockAssigns(ps: seq<Setting>, names: set<Prop>, target: string)
    requires Block(ps, names)
    ensures ParseAssignments(Assignments(ps) + [target], map[]) == Some(Parsed(false, ToMap(ps), [target]))
  {
    var none: Props := map[];
    AssignmentsParse(ps, target, none);
    assert none + ToMap(ps) == ToMap(ps);
  }

  /** `zfs set`: the settable properties on the right dataset. */
  lemma SetRoundTrip(name: string, s: VolumeInfo, order: seq<string>)
    requires ValidProps(s.userProperties) && IsOrder(s.userProperties, order)
    ensures ParseAssignments(SetArgs(name, s, order)[1..], map[])
         == Some(Parsed(false, SetProps(s), [s.poolName + "/" + name]))
  {
    var target := s.poolName + "/" + name;
    assert SetArgs(name, s, order)[1..] == Assignments(SetSettings(s, order)) + [target];
    SetBlock(s, order);
    SetMap(s, order);
    BlockAssigns(SetSettings(s, order), CreateNames(s), target);
  }

  lemma ResizeRoundTrip(name: string, s: VolumeInfo)
    ensures ParseAssignments(ResizeArgs(name, s)[1..], map[])
         == Some(Parsed(false, ResizeProps(s), [s.poolName + "/" + name]))
  {
    var ps := ResizeSettings(s);
    var none: Props := map[];
    assert ResizeArgs(name, s)[1..] == Assignments(ps) + [s.poolName + "/" + name];
    DatasetNamesLegible();
    assert Legible(Native("volsize"));
    AssignmentsParse(ps, s.poolName + "/" + name, none);
    assert none + ToMap(ps) == ToMap(ps);
  }

  // ---- what the lists say about each other ----------------------------------------------------

  /** A clone gets what a new volume gets, less its encryption and, for a zvol, its size. */
  lemma CloneIsCreateWithoutKeys(s: VolumeInfo)
    ensures CloneProps(s) == CreateProps(s) - KEY_NAMES - SIZE_NAMES
  {
    forall n ensures Lookup(CloneProps(s), n) == Lookup(CreateProps(s) - KEY_NAMES - SIZE_NAMES, n) {
      CloneExact(s, n);
      CreateExact(s, n);
      KeysAndSizes(s, n);
    }
    SameLookups(CloneProps(s), CreateProps(s) - KEY_NAMES - SIZE_NAMES);
  }

  lemma KeysAndSizes(s: VolumeInfo, n: Prop)
    ensures n in KEY_NAMES + SIZE_NAMES ==> UserField(s, n).None? && CommonField(s, n).None? && DatasetField(s, n).None?
    ensures n !in KEY_NAMES ==> EncryptionField(s, n).None?
    ensures n !in SIZE_NAMES ==> ZvolField(s, n).None?
  {
    NamesApart(s);
    KeysApart(s);
    SizesApart(s);
  }

  /** Setting a new volume's settable properties changes none of them. */
  lemma SetAgreesWithCreate(s: VolumeInfo)
    ensures CreateProps(s) + SetProps(s) == CreateProps(s)
  {
    forall n ensures Lookup(CreateProps(s) + SetProps(s), n) == Lookup(CreateProps(s), n) {
      CreateExact(s, n);
      SetExact(s, n);
      FieldsApart(s, n);
    }
    SameLookups(CreateProps(s) + SetProps(s), CreateProps(s));
  }

  function SizeProperty(s: VolumeInfo): Prop {
    if s.volumeType == VOL_TYPE_DATASET then QuotaProperty(s.quotaType) else Native("volsize")
  }

  lemma ResizeLookup(s: VolumeInfo, n: Prop)
    ensures Lookup(ResizeProps(s), n)
         == if n == SizeProperty(s) || (n == ReservationProperty(s.quotaType) && s.thinProvision == "no")
            then Some(s.capacity) else None
  {
    var v := if s.thinProvision == "no" then [(ReservationProperty(s.quotaType), s.capacity)] else [];
    LookupConcat([(SizeProperty(s), s.capacity)], v, n);
    LookupOne(SizeProperty(s), s.capacity, n);
    LookupOne(ReservationProperty(s.quotaType), s.capacity, n);
  }

  /** Name by name, what a resize sets. */
  lemma ResizeExact(s: VolumeInfo, n: Prop)
    ensures Lookup(ResizeProps(s), n) == ResizeField(s, n)
  {
    ResizeLookup(s, n);
  }

  lemma SizePropertyApart(s: VolumeInfo)
    ensures SizeProperty(s) !in COMMON_NAMES + KEY_NAMES
    ensures ReservationProperty(s.quotaType) !in COMMON_NAMES + KEY_NAMES + SIZE_NAMES
  {
    SizesApart(s);
    NamesApart(s);
    KeysApart(s);
  }

  lemma CommonOrKey(s: VolumeInfo, n: Prop)
    ensures n !in COMMON_NAMES ==> CommonField(s, n).None?
    ensures n !in KEY_NAMES ==> EncryptionField(s, n).None?
  {
  }

  /** The capacity shows in the size and in the reservation of a new volume. */
  lemma CapacityField(s: VolumeInfo)
    requires s.capacity != ""
    ensures CreateField(s, SizeProperty(s)) == Some(s.capacity)
    ensures s.volumeType == VOL_TYPE_DATASET && s.thinProvision == "no" ==>
              CreateField(s, ReservationProperty(s.quotaType)) == Some(s.capacity)
    ensures s.volumeType != VOL_TYPE_DATASET ==> CreateField(s, ReservationProperty(s.quotaType)).None?
  {
    SizePropertyApart(s);
    CommonOrKey(s, SizeProperty(s));
    CommonOrKey(s, ReservationProperty(s.quotaType));
  }

  /** It shows nowhere else. */
  lemma OtherField(s: VolumeInfo, t: VolumeInfo, n: Prop)
    requires t == s.(capacity := t.capacity)
    requires n != SizeProperty(s) && (n != ReservationProperty(s.quotaType) || s.thinProvision != "no")
    ensures CreateField(t, n) == CreateField(s, n)
  {
  }

  /**
   * Resizing assigns explicitly what creating at the new size assigns explicitly, unless the volume
   * is a thick zvol: then the resize names a reservation property that the create does not. (The
   * reservation `zfs create` makes by itself for a zvol that is not sparse is not an assignment.)
   */
  lemma ResizeIsCreateIff(s: VolumeInfo, capacity: string)
    requires capacity != ""
    ensures CreateProps(s) + ResizeProps(s.(capacity := capacity)) == CreateProps(s.(capacity := capacity))
       <==> s.volumeType == VOL_TYPE_DATASET || s.thinProvision != "no"
  {
    var t := s.(capacity := capacity);
    var left, right := CreateProps(s) + ResizeProps(t), CreateProps(t);
    if s.volumeType == VOL_TYPE_DATASET || s.thinProvision != "no" {
      forall n ensures Lookup(left, n) == Lookup(right, n) {
        ResizeLookup(t, n);
        CreateExact(s, n);
        CreateExact(t, n);
        CapacityField(t);
        if n != SizeProperty(s) && (n != ReservationProperty(s.quotaType) || s.thinProvision != "no") {
          OtherField(s, t, n);
        }
      }
      SameLookups(left, right);
    } else {
      var r := ReservationProperty(s.quotaType);
      ResizeLookup(t, r);
      CreateExact(t, r);
      CapacityField(t);
      assert r in left && r !in right;
    }
  }
}
