/** User properties: what a spec must satisfy before an agent acts on it. A char is one byte. */
module UserProp {
  const PREFIX := "openebs.io:"

  predicate NameByte(b: char) {
    'a' <= b <= 'z' || '0' <= b <= '9' || b == '-' || b == '.' || b == '_' || b == ':'
  }

  /** zfsprops(7), section "User Properties": the names ZFS accepts. */
  predicate ValidName(name: string) {
    && 0 < |name| <= 256 && name[0] != '-'
    && (forall i :: 0 <= i < |name| ==> NameByte(name[i]))
    && ':' in name
  }

  predicate Valid(name: string, value: string) { ValidName(name) && |value| <= 8192 }

  method ValidateUserProperty(name: string, value: string) returns (ok: bool)
    ensures ok <==> Valid(name, value)
    // in character codes: lower-case letters, digits, and - . _ : with no leading dash and a colon
    ensures ok <==>
              && 1 <= |name| <= 256 && |value| <= 8192 && name[0] as int != 45
              && (exists i :: 0 <= i < |name| && name[i] as int == 58)
              && (forall i :: 0 <= i < |name| ==>
                    var c := name[i] as int; 97 <= c <= 122 || 48 <= c <= 57 || c in {45, 46, 95, 58})
  {
    if |name| == 0 || |name| > 256 || name[0] == '-' { return false; }
    var nameContainsColon := false;
    for i := 0 to |name|
      invariant forall j :: 0 <= j < i ==> NameByte(name[j])
      invariant nameContainsColon <==> ':' in name[..i]
    {
      var b := name[i];
      if 'a' <= b <= 'z' {
      } else if '0' <= b <= '9' {
      } else if b == '-' || b == '.' || b == '_' {
      } else if b == ':' {
        nameContainsColon := true;
      } else {
        return false;
      }
    }
    assert name[..|name|] == name;
    if !nameContainsColon { return false; }
    return |value| <= 8192;
  }

  predicate ValidProps(props: map<string, string>) {
    forall n :: n in props ==> Valid(n, props[n]) && PREFIX <= n
  }

  /** VolumeInfo.Validate, which meets the properties in any order. */
  method Validate(props: map<string, string>) returns (ok: bool)
    ensures ok <==> ValidProps(props)
    ensures ok <==> forall n :: n in props ==> Valid(n, props[n]) && "openebs.io:" <= n
  {
    var todo := props.Keys;
    while todo != {}
      invariant todo <= props.Keys
      invariant forall n :: n in props && n !in todo ==> Valid(n, props[n]) && PREFIX <= n
      decreases todo
    {
      var n :| n in todo;
      var valid := ValidateUserProperty(n, props[n]);
      if !valid || !(PREFIX <= n) { return false; }
      todo := todo - {n};
    }
    return true;
  }
}
