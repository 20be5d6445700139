/** Values shared by the alarm-review, dashboard and notification-preference views. */
module Common {

  datatype Option<+T> = None | Some(value: T)

  /** The four alert risk levels, in the order the views list them. */
  datatype Risk = High | Medium | Low | Info

  /** The preset time windows offered by the "Last day / week / month" buttons. */
  datatype Range = Day | Week | Month

  /** An alert as the views handle it: only its type code is inspected. */
  datatype Alert = Alert(id: int, alertType: string)

  /** The alert shown in the details modal, and whether it is the first/last one overall. */
  datatype Selection = Selection(index: nat, alert: Alert, isFirst: bool, isLast: bool)

  /** A positive time offset ("now minus one day", ...). */
  type Positive = n: int | n > 0 witness 1

  /** Index of the first element satisfying `p`, as `Array.prototype.find` locates it. */
  function FindFirst<T>(s: seq<T>, p: T -> bool): (r: Option<nat>)
    ensures r.Some? ==> r.value < |s| && p(s[r.value])
    ensures r.Some? ==> forall j :: 0 <= j < r.value ==> !p(s[j])
    ensures r.None? <==> forall j :: 0 <= j < |s| ==> !p(s[j])
  {
    if |s| == 0 then None
    else if p(s[0]) then Some(0)
    else match FindFirst(s[1..], p)
      case None => None
      case Some(k) => Some(k + 1)
  }

  /** Number of elements satisfying `p` (`filter(p).length`). */
  function CountWhere<T>(s: seq<T>, p: T -> bool): (n: nat)
    ensures n <= |s|
  {
    if |s| == 0 then 0 else (if p(s[0]) then 1 else 0) + CountWhere(s[1..], p)
  }

  /** The elements satisfying `p`, in their original order (`filter(p)`). */
  function Filter<T>(s: seq<T>, p: T -> bool): (r: seq<T>)
    ensures |r| == CountWhere(s, p)
    ensures forall i :: 0 <= i < |r| ==> r[i] in s && p(r[i])
    ensures forall i :: 0 <= i < |s| && p(s[i]) ==> s[i] in r
  {
    if |s| == 0 then [] else (if p(s[0]) then [s[0]] else []) + Filter(s[1..], p)
  }

  /** Filtering a concatenation filters each part: kept elements keep their relative order. */
  lemma {:induction false} FilterAppend<T>(a: seq<T>, b: seq<T>, p: T -> bool)
    ensures Filter(a + b, p) == Filter(a, p) + Filter(b, p)
  {
    if |a| == 0 {
      assert a + b == b;
    } else {
      assert (a + b)[1..] == a[1..] + b;
      FilterAppend(a[1..], b, p);
    }
  }

  /** An open details selection names an entry of `list` and shows that entry. */
  ghost predicate SelectionOf(sel: Option<Selection>, list: seq<Alert>)
  {
    sel.Some? ==> sel.value.index < |list| && sel.value.alert == list[sel.value.index]
  }

  /**
   * The previous/next decision of the details modal as the views write it, on
   * a list of `len` alerts: nothing within the list at either end, otherwise
   * the alert `direction` away. The index is not checked against `len`.
   */
  function NavigationTarget(index: nat, len: nat, direction: int): (r: Option<int>)
    ensures r.None? <==> (index == 0 && direction < 0) || (index == len - 1 && direction > 0)
    ensures r.Some? ==> r.value == index + direction
  {
    if index == 0 && direction < 0 then None
    else if index == len - 1 && direction > 0 then None
    else Some(index + direction)
  }

  /** A selection left past the end of its list is sent further past it by "next". */
  lemma StaleNavigationLeavesList(index: nat, len: nat)
    requires 0 < len <= index
    ensures NavigationTarget(index, len, 1) == Some(index + 1)
    ensures NavigationTarget(index, len, 1).value >= len
  {
  }

  /** Within the list, the target of a move that is not a no-op stays within it. */
  lemma NavigationTargetInRange(index: nat, len: nat, direction: int)
    requires index < len && (direction == -1 || direction == 1)
    ensures NavigationTarget(index, len, direction).Some? ==>
              0 <= NavigationTarget(index, len, direction).value < len
  {
  }
}
