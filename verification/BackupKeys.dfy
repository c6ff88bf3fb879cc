/** The composed key "volume.node.snapshot" behind the two indexes of the backup collector. */
module BackupKeys {
  import opened Base

  /** ZFSBackupSpec, the four fields the collector reads. */
  datatype Backup = Backup(volume: string, node: string, snap: string, prev: string)

  /** getBackupKeyBySpec. */
  function Key(volume: string, node: string, snap: string): string {
    volume + "." + node + "." + snap
  }

  /** BackupSnapshotIndexFunc: every backup, under its own snapshot. */
  function SnapKey(b: Backup): string { Key(b.volume, b.node, b.snap) }

  /** BackupPreviousSnapshotIndexFunc: only an incremental backup, under the snapshot it builds on. */
  function PrevKey(b: Backup): Option<string> {
    if b.prev == "" then None else Some(Key(b.volume, b.node, b.prev))
  }

  /** A backup can refer to this key as the snapshot it builds on: something follows its second dot. */
  predicate Nameable(key: string) { exists i, j :: 0 <= i < j < |key| - 1 && key[i] == '.' && key[j] == '.' }

  lemma Named(b: Backup)
    requires b.prev != ""
    ensures Nameable(PrevKey(b).value)
  {
    var key, i := PrevKey(b).value, |b.volume|;
    var j := i + 1 + |b.node|;
    assert key[i] == '.' && key[j] == '.';
  }

  lemma NamedBy(key: string, snap: string) returns (b: Backup)
    requires Nameable(key)
    ensures PrevKey(b) == Some(key) && b.snap == snap
  {
    var i, j :| 0 <= i < j < |key| - 1 && key[i] == '.' && key[j] == '.';
    b := Backup(key[..i], key[i + 1..j], snap, key[j + 1..]);
    assert key == key[..i] + "." + key[i + 1..j] + "." + key[j + 1..];
  }

  // ---- when the key tells triples apart ---------------------------------------------------------

  datatype Triple = Triple(volume: string, node: string, snap: string)

  datatype Position = PVolume | PNode | PSnap

  function At(t: Triple, p: Position): string {
    match p
    case PVolume => t.volume
    case PNode => t.node
    case PSnap => t.snap
  }

  function KeyOf(t: Triple): string { Key(t.volume, t.node, t.snap) }

  /** Dots occur only at the given positions. */
  ghost predicate DotsOnly(t: Triple, dotted: set<Position>) {
    forall p :: p !in dotted ==> '.' !in At(t, p)
  }

  ghost predicate Injective(dotted: set<Position>) {
    forall a, b :: DotsOnly(a, dotted) && DotsOnly(b, dotted) && KeyOf(a) == KeyOf(b) ==> a == b
  }

  /** What comes before the first dot, and what comes after it. */
  function CutFirst(s: string): (string, string) {
    if s == "" then ("", "")
    else if s[0] == '.' then ("", s[1..])
    else var rest := CutFirst(s[1..]); ([s[0]] + rest.0, rest.1)
  }

  /** What comes before the last dot, and what comes after it. */
  function CutLast(s: string): (string, string) {
    if s == "" then ("", "")
    else
      var init, last := s[..|s| - 1], s[|s| - 1];
      if last == '.' then (init, "") else var rest := CutLast(init); (rest.0, rest.1 + [last])
  }

  lemma {:induction false} CutsFirst(a: string, x: string)
    requires '.' !in a
    ensures CutFirst(a + "." + x) == (a, x)
  {
    var s := a + "." + x;
    if a == "" {
      assert s[1..] == x;
    } else {
      assert s[1..] == a[1..] + "." + x && [a[0]] + a[1..] == a;
      CutsFirst(a[1..], x);
    }
  }

  lemma {:induction false} CutsLast(a: string, x: string)
    requires '.' !in x
    ensures CutLast(a + "." + x) == (a, x)
  {
    var s := a + "." + x;
    if x == "" {
      assert s[..|s| - 1] == a;
    } else {
      var init, last := x[..|x| - 1], x[|x| - 1];
      assert s[..|s| - 1] == a + "." + init && init + [last] == x;
      CutsLast(a, init);
    }
  }

  lemma OneDottedPosition(a: Triple, b: Triple, p: Position)
    requires DotsOnly(a, {p}) && DotsOnly(b, {p}) && KeyOf(a) == KeyOf(b)
    ensures a == b
  {
    Cuts(a, p);
    Cuts(b, p);
  }

  /** With dots at one position at most, the key can be cut back into its parts. */
  lemma Cuts(t: Triple, p: Position)
    requires DotsOnly(t, {p})
    ensures var k := KeyOf(t);
            t == match p
                 case PVolume => Triple(CutLast(CutLast(k).0).0, CutLast(CutLast(k).0).1, CutLast(k).1)
                 case PNode => Triple(CutFirst(k).0, CutLast(CutFirst(k).1).0, CutLast(CutFirst(k).1).1)
                 case PSnap => Triple(CutFirst(k).0, CutFirst(CutFirst(k).1).0, CutFirst(CutFirst(k).1).1)
  {
    assert forall q :: q != p ==> '.' !in At(t, q);
    assert KeyOf(t) == t.volume + "." + (t.node + "." + t.snap);
    match p
    case PVolume =>
      assert '.' !in At(t, PNode) && '.' !in At(t, PSnap);
      CutsLast(t.volume + "." + t.node, t.snap);
      CutsLast(t.volume, t.node);
    case PNode =>
      assert '.' !in At(t, PVolume) && '.' !in At(t, PSnap);
      CutsFirst(t.volume, t.node + "." + t.snap);
      CutsLast(t.node, t.snap);
    case PSnap =>
      assert '.' !in At(t, PVolume) && '.' !in At(t, PNode);
      CutsFirst(t.volume, t.node + "." + t.snap);
      CutsFirst(t.node, t.snap);
  }

  lemma Collide(dotted: set<Position>, a: Triple, b: Triple)
    requires DotsOnly(a, dotted) && DotsOnly(b, dotted) && KeyOf(a) == KeyOf(b) && a != b
    ensures !Injective(dotted)
  {
  }

  /** Two positions with dots already collide: "p.q" then "r" reads like "p" then "q.r". */
  lemma TwoDottedPositions(dotted: set<Position>, p: Position, q: Position)
    requires p in dotted && q in dotted && p != q
    ensures !Injective(dotted)
  {
    if PVolume in {p, q} && PNode in {p, q} {
      Collide(dotted, Triple("p.q", "r", "s"), Triple("p", "q.r", "s"));
    } else if PNode in {p, q} && PSnap in {p, q} {
      Collide(dotted, Triple("p", "q.r", "s"), Triple("p", "q", "r.s"));
    } else {
      var a, b := Triple("p.q", "r", "s"), Triple("p", "q", "r.s");
      assert KeyOf(a) == "p.q.r.s" && KeyOf(b) == "p.q.r.s";
      Collide(dotted, a, b);
    }
  }

  /** The key is injective exactly when at most one position may contain dots. */
  lemma InjectiveIffOneDotted(dotted: set<Position>)
    ensures Injective(dotted) <==> (forall p, q :: p in dotted && q in dotted ==> p == q)
  {
    if p, q :| p in dotted && q in dotted && p != q {
      TwoDottedPositions(dotted, p, q);
    } else {
      forall a, b | DotsOnly(a, dotted) && DotsOnly(b, dotted) && KeyOf(a) == KeyOf(b) ensures a == b {
        var p := if dotted == {} then PVolume else var x :| x in dotted; x;
        assert dotted <= {p};
        OneDottedPosition(a, b, p);
      }
    }
  }

  // ---- the indexes --------------------------------------------------------------------------------

  type Cache = map<string, Backup>

  /** ByIndex on BackupSnapshotIndex. */
  function BySnapshot(cache: Cache, key: string): set<string> {
    set n | n in cache && SnapKey(cache[n]) == key
  }

  /** ByIndex on BackupPreviousSnapshotIndex. */
  function ByPrevious(cache: Cache, key: string): set<string> {
    set n | n in cache && PrevKey(cache[n]) == Some(key)
  }

  ghost predicate Tidy(b: Backup, dotted: set<Position>) {
    DotsOnly(Triple(b.volume, b.node, b.snap), dotted) && DotsOnly(Triple(b.volume, b.node, b.prev), dotted)
  }

  /**
   * With dots in one field at most, looking a parent or the children of a backup up by key finds
   * exactly the backups whose three fields match.
   */
  lemma IndexIsScan(cache: Cache, b: Backup, dotted: set<Position>)
    requires forall p, q :: p in dotted && q in dotted ==> p == q
    requires Tidy(b, dotted) && forall n :: n in cache ==> Tidy(cache[n], dotted)
    ensures ByPrevious(cache, SnapKey(b))
         == set n | n in cache && cache[n].prev != "" && cache[n].volume == b.volume && cache[n].node == b.node
           && cache[n].prev == b.snap
    ensures b.prev != "" ==>
              (BySnapshot(cache, PrevKey(b).value)
               == set n | n in cache && cache[n].volume == b.volume && cache[n].node == b.node
                 && cache[n].snap == b.prev)
  {
    InjectiveIffOneDotted(dotted);
    forall n | n in cache
      ensures PrevKey(cache[n]) == Some(SnapKey(b)) <==>
                && cache[n].prev != "" && cache[n].volume == b.volume && cache[n].node == b.node
                && cache[n].prev == b.snap
      ensures b.prev != "" ==> (SnapKey(cache[n]) == PrevKey(b).value
              <==> cache[n].volume == b.volume && cache[n].node == b.node && cache[n].snap == b.prev)
    {
      var c := cache[n];
      var own, from := Triple(b.volume, b.node, b.snap), Triple(b.volume, b.node, b.prev);
      var its, itsPrev := Triple(c.volume, c.node, c.snap), Triple(c.volume, c.node, c.prev);
      assert KeyOf(itsPrev) == KeyOf(own) ==> itsPrev == own;
      assert KeyOf(its) == KeyOf(from) ==> its == from;
    }
  }
}
