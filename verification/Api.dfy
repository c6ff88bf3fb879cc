/**
 * The API server's tables. A table keeps, per name, every version an object ever had, with None
 * for "absent"; the last entry is the current one. Informers read older entries.
 */
module Api {
  import opened Base
  import opened Resource

  type History = seq<Option<CR>>
  type Table = map<string, History>

  function Hist(t: Table, k: string): (h: History)
    ensures |h| > 0
  {
    if k in t && t[k] != [] then t[k] else [None]
  }

  function Cur(t: Table, k: string): Option<CR> {
    var h := Hist(t, k);
    h[|h| - 1]
  }

  function Push(t: Table, k: string, o: Option<CR>): (r: Table)
    ensures Hist(r, k) == Hist(t, k) + [o] && Cur(r, k) == o
    ensures forall x :: x != k ==> Hist(r, x) == Hist(t, x)
  {
    t[k := Hist(t, k) + [o]]
  }

  /** Versions below the clock and strictly increasing along every history. */
  ghost predicate OrderedHist(h: History, clock: nat) {
    && (forall i :: 0 <= i < |h| && h[i].Some? ==> h[i].value.version < clock)
    && (forall i, j :: 0 <= i < j < |h| && h[i].Some? && h[j].Some? ==> h[i].value.version < h[j].value.version)
  }

  ghost predicate Ordered(t: Table, clock: nat) {
    forall k :: OrderedHist(Hist(t, k), clock)
  }

  /** `cr` is a version of `k` somebody read: the current one, or older than the current one. */
  ghost predicate Known(t: Table, clock: nat, k: string, cr: CR) {
    && cr.version < clock
    && (Cur(t, k).Some? ==> Cur(t, k).value == cr || cr.version < Cur(t, k).value.version)
  }
}
