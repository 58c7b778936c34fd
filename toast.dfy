/**
 * src/components/ui/Toast.jsx: the toast list kept by `useToast`. The hook's state is one
 * sequence and both operations are the functional updaters React applies to it.
 */
module ToastList {
  import opened Wrappers
  import opened JsValue

  /** `{ id, message, type }`; the id is the `Date.now()` of its creation. */
  datatype Toast = Toast(id: nat, message: Value, kind: Value)

  /** The `type` of a new toast: the argument, or `'info'` when it is undefined. */
  function KindOrInfo(kind: Option<Value>): (k: Value)
    ensures kind.None? ==> k == Str("info")
    ensures kind.Some? ==> k == kind.value
  {
    match kind
    case None => Str("info")
    case Some(v) => v
  }

  /** `addToast({message, type})` at time `now` (Toast.jsx:50-54): `[...prev, {id, message, type}]`. */
  function AddToast(toasts: seq<Toast>, now: nat, message: Value, kind: Option<Value>): (r: seq<Toast>)
    ensures |r| == |toasts| + 1 && r[..|toasts|] == toasts
    ensures r[|toasts|] == Toast(now, message, KindOrInfo(kind))
  {
    toasts + [Toast(now, message, KindOrInfo(kind))]
  }

  /** `removeToast(id)` (Toast.jsx:56-58): `prev.filter(toast => toast.id !== id)`. */
  function RemoveToast(toasts: seq<Toast>, id: nat): (r: seq<Toast>)
    ensures |r| <= |toasts|
    ensures forall i :: 0 <= i < |r| ==> r[i].id != id && r[i] in toasts
    ensures forall t :: t in toasts && t.id != id ==> t in r
  {
    if toasts == [] then []
    else if toasts[0].id != id then [toasts[0]] + RemoveToast(toasts[1..], id)
    else RemoveToast(toasts[1..], id)
  }

  /** Filtering distributes over concatenation, so the order of the kept toasts is the old order. */
  lemma {:induction false} RemoveDistributes(xs: seq<Toast>, ys: seq<Toast>, id: nat)
    ensures RemoveToast(xs + ys, id) == RemoveToast(xs, id) + RemoveToast(ys, id)
  {
    if xs == [] {
      assert xs + ys == ys;
    } else {
      assert (xs + ys)[0] == xs[0];
      assert (xs + ys)[1..] == xs[1..] + ys;
      RemoveDistributes(xs[1..], ys, id);
    }
  }

  /** Removing an id no toast has leaves the list as it was. */
  lemma {:induction false} RemoveAbsent(toasts: seq<Toast>, id: nat)
    requires forall i :: 0 <= i < |toasts| ==> toasts[i].id != id
    ensures RemoveToast(toasts, id) == toasts
  {
    if toasts != [] {
      RemoveAbsent(toasts[1..], id);
    }
  }

  /** Adding a toast with a fresh id and then removing that id restores the previous list. */
  lemma AddThenRemove(toasts: seq<Toast>, now: nat, message: Value, kind: Option<Value>)
    requires forall i :: 0 <= i < |toasts| ==> toasts[i].id != now
    ensures RemoveToast(AddToast(toasts, now, message, kind), now) == toasts
  {
    var t := Toast(now, message, KindOrInfo(kind));
    RemoveDistributes(toasts, [t], now);
    RemoveAbsent(toasts, now);
    assert RemoveToast([t], now) == [];
  }

  /**
   * Ids are milliseconds, so two toasts added in the same millisecond share one: the first
   * one's dismissal removes both.
   */
  lemma SameMillisecond(toasts: seq<Toast>, now: nat, m1: Value, m2: Value, k1: Option<Value>, k2: Option<Value>)
    requires forall i :: 0 <= i < |toasts| ==> toasts[i].id != now
    ensures var both := AddToast(AddToast(toasts, now, m1, k1), now, m2, k2);
      |both| == |toasts| + 2 && RemoveToast(both, now) == toasts
  {
    var a := Toast(now, m1, KindOrInfo(k1));
    var b := Toast(now, m2, KindOrInfo(k2));
    assert AddToast(AddToast(toasts, now, m1, k1), now, m2, k2) == toasts + [a, b];
    RemoveDistributes(toasts, [a, b], now);
    RemoveAbsent(toasts, now);
    assert RemoveToast([a, b], now) == [];
  }
}
