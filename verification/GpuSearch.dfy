/** Binary search as the GPU kernels do it. */
module GpuSearch {
  import opened Sequences

  /** Index of the first element that is at least `v`, or the length if there is none. */
  method LowerBound(a: seq<nat>, v: nat) returns (p: nat)
    requires Ascending(a)
    ensures p <= |a|
    ensures forall i :: 0 <= i < p ==> a[i] < v
    ensures forall i :: p <= i < |a| ==> v <= a[i]
  {
    if |a| == 0 || a[|a| - 1] < v { return |a|; }
    var low: nat, high: nat := 0, |a| - 1;
    var mid := (low + high) / 2;
    while low < high
      invariant low <= high < |a| && mid == (low + high) / 2
      invariant forall i :: 0 <= i < low ==> a[i] < v
      invariant forall i :: high <= i < |a| ==> v <= a[i]
    {
      if a[mid] < v {
        low := mid + 1;
      } else {
        high := mid;
      }
      mid := (low + high) / 2;
    }
    p := mid;
  }

  /** Searches the base list, then the update list if it is visible. */
  method InLists(base: seq<nat>, app: seq<nat>, visible: bool, v: nat) returns (found: bool)
    requires Strict(base) && Strict(app) && (!visible ==> app == [])
    ensures found <==> v in base + app
  {
    assert Ascending(base) && Ascending(app);
    var lb := LowerBound(base, v);
    found := lb < |base| && base[lb] == v;
    if !found && visible {
      lb := LowerBound(app, v);
      found := lb < |app| && app[lb] == v;
    }
  }
}
