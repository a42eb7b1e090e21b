/** The toast queue (src/hooks/useToast.ts). Ids come from one counter shared by every user
    of the hook, so the model threads that counter through each call. The timer that removes
    a toast is returned as a request rather than run. */
module UseToast {
  import opened Wrappers
  import opened Domain
  import opened SeqOps

  /** One visible toast. */
  datatype ToastItem = ToastItem(id: nat, message: string, kind: ToastType)

  /** The counter `_id` and the hook's list. */
  datatype Queue = Queue(counter: nat, toasts: seq<ToastItem>)

  /** The queue's invariant: ids strictly increase along the list and none is above the
      counter, so the next id is fresh. */
  predicate Valid(q: Queue) {
    && (forall i, j :: 0 <= i < j < |q.toasts| ==> q.toasts[i].id < q.toasts[j].id)
    && (forall i :: 0 <= i < |q.toasts| ==> q.toasts[i].id <= q.counter)
  }

  /** `DEFAULT_DURATION` in milliseconds. */
  const DefaultDuration: int := 3500

  /** A removal the hook schedules: which toast, after how long. */
  datatype Removal = Removal(id: nat, after: int)

  /** `toast(message, type, duration)`: the counter advances, the toast is appended with the
      new id, and a removal is scheduled only for a positive duration. Missing arguments take
      their defaults. */
  function Toast(q: Queue, message: string, kind: Option<ToastType>, duration: Option<int>): (r: (Queue, Option<Removal>))
    requires Valid(q)
    ensures Valid(r.0)
    ensures r.0.counter == q.counter + 1
    ensures r.0.toasts == q.toasts + [ToastItem(r.0.counter, message, kind.GetOr(DefaultToast))]
    ensures forall i :: 0 <= i < |q.toasts| ==> q.toasts[i].id < r.0.counter
    ensures r.1.Some? <==> duration.GetOr(DefaultDuration) > 0
    ensures r.1.Some? ==> r.1.value == Removal(r.0.counter, duration.GetOr(DefaultDuration))
  {
    var id := q.counter + 1;
    var d := duration.GetOr(DefaultDuration);
    (Queue(id, q.toasts + [ToastItem(id, message, kind.GetOr(DefaultToast))]),
     if d > 0 then Some(Removal(id, d)) else None)
  }

  /** The id toasts are removed by. */
  function IdOf(t: ToastItem): nat { t.id }

  /** `dismiss(id)`, and the scheduled removal when it fires: the toast with that id goes and
      the others stay in order. The counter is untouched. */
  function Dismiss(q: Queue, id: nat): (r: Queue)
    requires Valid(q)
    ensures Valid(r)
    ensures r.counter == q.counter
    ensures IsSubsequence(r.toasts, q.toasts)
    ensures forall t :: t in r.toasts <==> t in q.toasts && t.id != id
  {
    var r := Queue(q.counter, RemoveKey(q.toasts, IdOf, id));
    SubsequenceKeepsOrder(r.toasts, q.toasts);
    r
  }

  /** Strict ordering of ids survives deleting elements. */
  predicate Increasing(ts: seq<ToastItem>) {
    forall i, j :: 0 <= i < j < |ts| ==> ts[i].id < ts[j].id
  }

  lemma {:induction false} SubsequenceKeepsOrder(a: seq<ToastItem>, b: seq<ToastItem>)
    requires IsSubsequence(a, b) && Increasing(b)
    ensures Increasing(a)
    decreases |b|
  {
    if |a| > 0 && |b| > 0 {
      assert Increasing(b[1..]) by {
        forall i, j | 0 <= i < j < |b[1..]| ensures b[1..][i].id < b[1..][j].id {
          assert b[1..][i] == b[i + 1] && b[1..][j] == b[j + 1];
        }
      }
      if a[0] == b[0] && IsSubsequence(a[1..], b[1..]) {
        SubsequenceKeepsOrder(a[1..], b[1..]);
        forall j | 0 < j < |a| ensures a[0].id < a[j].id {
          assert a[j] == a[1..][j - 1];
          SubsequenceMember(a[1..], b[1..], j - 1);
        }
        forall i, j | 0 <= i < j < |a| ensures a[i].id < a[j].id {
          if i > 0 { assert a[i] == a[1..][i - 1] && a[j] == a[1..][j - 1]; }
        }
      } else {
        SubsequenceKeepsOrder(a, b[1..]);
      }
    }
  }

  /** Each element of a subsequence is some element of the original. */
  lemma {:induction false} SubsequenceMember(a: seq<ToastItem>, b: seq<ToastItem>, k: int)
    requires IsSubsequence(a, b) && 0 <= k < |a|
    ensures exists m :: 0 <= m < |b| && b[m] == a[k]
    decreases |b|
  {
    if a[0] == b[0] && IsSubsequence(a[1..], b[1..]) {
      if k > 0 {
        SubsequenceMember(a[1..], b[1..], k - 1);
        var m :| 0 <= m < |b[1..]| && b[1..][m] == a[1..][k - 1];
        assert b[m + 1] == a[k];
      }
    } else {
      SubsequenceMember(a, b[1..], k);
      var m :| 0 <= m < |b[1..]| && b[1..][m] == a[k];
      assert b[m + 1] == a[k];
    }
  }

  /** Dismissing the toast just shown restores the list; only the counter has moved on. */
  lemma ToastThenDismiss(q: Queue, message: string, kind: Option<ToastType>, duration: Option<int>)
    requires Valid(q)
    ensures var r := Toast(q, message, kind, duration).0;
      Dismiss(r, r.counter) == Queue(q.counter + 1, q.toasts)
  {
    var r := Toast(q, message, kind, duration).0;
    var t := ToastItem(r.counter, message, kind.GetOr(DefaultToast));
    AppendThenRemove(q.toasts, t, IdOf);
  }
}
