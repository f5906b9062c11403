/**
 * The toast notifier of `src/contexts/ToastContext.jsx`.
 *
 * The provider holds a newest-first list of toasts and an id counter.
 * `showToast` takes the next id, puts the new toast in front and, for a
 * positive duration, schedules its removal; `removeToast` drops every toast
 * with a given id. The scheduled removal is returned as an `Expiry` value for
 * the caller's event loop to fire later, as a `Remove` of that id.
 */
module Toast {
  import opened Optional
  import opened Seqs

  const DefaultKind: string := "success"
  const DefaultDuration: int := 3000

  /** One notification; `kind` is the caller's `type` string, unchecked. */
  datatype Toast = Toast(id: nat, title: Option<string>, description: Option<string>, kind: string)

  /** The option bag `showToast` accepts; `None` is an omitted option. */
  datatype Options = Options(title: Option<string>, description: Option<string>, kind: Option<string>, duration: Option<int>)

  /** `showToast()` called with no argument. */
  const NoOptions := Options(None, None, None, None)

  /** Provider state: the toasts, newest first, and the last id handed out. */
  datatype Queue = Queue(toasts: seq<Toast>, counter: nat)

  const Initial := Queue([], 0)

  /** A removal of toast `id` to be fired after `delay` milliseconds. */
  datatype Expiry = Expiry(id: nat, delay: int)

  /** What `showToast` leaves behind: the new state, the id it returns and the timer it set. */
  datatype Shown = Shown(queue: Queue, id: nat, expiry: Option<Expiry>)

  function Duration(opts: Options): int {
    opts.duration.GetOr(DefaultDuration)
  }

  /** Ids strictly decrease from the front (newest) to the back, and none exceeds the counter. */
  predicate WellFormed(q: Queue) {
    && (forall i :: 0 <= i < |q.toasts| ==> 1 <= q.toasts[i].id <= q.counter)
    && (forall i, j :: 0 <= i < j < |q.toasts| ==> q.toasts[i].id > q.toasts[j].id)
  }

  /** `showToast(opts)`. */
  function Show(q: Queue, opts: Options): (r: Shown)
    ensures r.id == q.counter + 1 && r.queue.counter == r.id
    ensures |r.queue.toasts| == |q.toasts| + 1
    ensures r.queue.toasts[1..] == q.toasts
    ensures r.queue.toasts[0] == Toast(r.id, opts.title, opts.description, opts.kind.GetOr(DefaultKind))
    ensures r.expiry.Some? <==> Duration(opts) > 0
    ensures r.expiry.Some? ==> r.expiry.value == Expiry(r.id, Duration(opts))
  {
    var id := q.counter + 1;
    var toast := Toast(id, opts.title, opts.description, opts.kind.GetOr(DefaultKind));
    var expiry := if Duration(opts) > 0 then Some(Expiry(id, Duration(opts))) else None;
    Shown(Queue([toast] + q.toasts, id), id, expiry)
  }

  function Other(id: nat): Toast -> bool {
    (t: Toast) => t.id != id
  }

  /** `removeToast(id)`, whether from the close button or a fired expiry. */
  function Remove(q: Queue, id: nat): (r: Queue)
    ensures r.counter == q.counter
    ensures forall t :: t in r.toasts <==> t in q.toasts && t.id != id
    ensures SubsequenceOf(r.toasts, q.toasts)
    ensures forall t :: multiset(r.toasts)[t] == if t.id != id then multiset(q.toasts)[t] else 0
  {
    var r := Queue(Filter(q.toasts, Other(id)), q.counter);
    FilterCounts(q.toasts, Other(id));
    assert forall t :: t in q.toasts && t.id != id ==> t in r.toasts by {
      forall t | t in q.toasts && t.id != id ensures t in r.toasts {
        var i :| 0 <= i < |q.toasts| && q.toasts[i] == t;
        assert Other(id)(q.toasts[i]);
      }
    }
    assert forall t :: t in r.toasts ==> t in q.toasts && t.id != id by {
      forall t | t in r.toasts ensures t in q.toasts && t.id != id {
        var i :| 0 <= i < |r.toasts| && r.toasts[i] == t;
        assert Other(id)(r.toasts[i]);
      }
    }
    r
  }

  /** `showToast` keeps the queue well formed, and its id is new to the queue. */
  lemma ShowKeepsWellFormed(q: Queue, opts: Options)
    requires WellFormed(q)
    ensures WellFormed(Show(q, opts).queue)
    ensures forall t :: t in q.toasts ==> t.id != Show(q, opts).id
  {
  }

  /** Within a well-formed queue no two toasts share an id. */
  lemma IdsDistinct(q: Queue)
    requires WellFormed(q)
    ensures forall i, j :: 0 <= i < |q.toasts| && 0 <= j < |q.toasts| && i != j ==> q.toasts[i].id != q.toasts[j].id
  {
  }

  /** Whatever a filter keeps of the tail of a descending list lies below its head. */
  lemma FilteredTailBelowHead(s: seq<Toast>, p: Toast -> bool)
    requires |s| > 0
    requires forall i, j :: 0 <= i < j < |s| ==> s[i].id > s[j].id
    ensures forall t :: t in Filter(s[1..], p) ==> t.id < s[0].id
  {
    var tail := s[1..];
    forall t | t in Filter(tail, p) ensures t.id < s[0].id {
      assert t in tail;
      var k :| 0 <= k < |tail| && tail[k] == t;
      assert s[k + 1] == t;
    }
  }

  /** Toasts sorted by strictly decreasing id stay so after any filter. */
  lemma {:induction false} FilterKeepsDescending(s: seq<Toast>, p: Toast -> bool)
    requires forall i, j :: 0 <= i < j < |s| ==> s[i].id > s[j].id
    ensures forall i, j :: 0 <= i < j < |Filter(s, p)| ==> Filter(s, p)[i].id > Filter(s, p)[j].id
  {
    if |s| > 0 {
      FilterKeepsDescending(s[1..], p);
      var rest := Filter(s[1..], p);
      if p(s[0]) {
        FilteredTailBelowHead(s, p);
        var r := [s[0]] + rest;
        assert r == Filter(s, p);
        forall i, j | 0 <= i < j < |r| ensures r[i].id > r[j].id {
          assert r[j] == rest[j - 1] && r[j] in rest;
          if i > 0 {
            assert r[i] == rest[i - 1];
          }
        }
      }
    }
  }

  /** `removeToast` keeps the queue well formed. */
  lemma RemoveKeepsWellFormed(q: Queue, id: nat)
    requires WellFormed(q)
    ensures WellFormed(Remove(q, id))
  {
    FilterKeepsDescending(q.toasts, Other(id));
    var r := Remove(q, id);
    forall i | 0 <= i < |r.toasts| ensures 1 <= r.toasts[i].id <= r.counter {
      assert r.toasts[i] in q.toasts;
    }
  }

  /** Removing an id no toast has changes nothing. */
  lemma RemoveAbsent(q: Queue, id: nat)
    requires forall t :: t in q.toasts ==> t.id != id
    ensures Remove(q, id) == q
  {
    FilterKeepsAll(q.toasts, Other(id));
  }

  /** Removing the same id twice is removing it once. */
  lemma RemoveIdempotent(q: Queue, id: nat)
    ensures Remove(Remove(q, id), id) == Remove(q, id)
  {
    RemoveAbsent(Remove(q, id), id);
  }

  /** Removing the toast just shown gives back the list before the call. */
  lemma RemoveUndoesShow(q: Queue, opts: Options)
    requires WellFormed(q)
    ensures Remove(Show(q, opts).queue, Show(q, opts).id).toasts == q.toasts
  {
    var s := Show(q, opts);
    assert s.queue.toasts == [s.queue.toasts[0]] + q.toasts;
    assert !Other(s.id)(s.queue.toasts[0]);
    RemoveAbsent(q, s.id);
  }

  // ---------------------------------------------------------------------------
  // runs of calls

  /** A call into the provider: `showToast(opts)`, or `removeToast(id)` from a button or a timer. */
  datatype Call = ShowCall(opts: Options) | RemoveCall(id: nat)

  /** The state after a sequence of calls, and the ids the `showToast` calls returned, in order. */
  datatype Run = Run(queue: Queue, returned: seq<nat>)

  function Step(q: Queue, c: Call): Queue {
    match c
    case ShowCall(opts) => Show(q, opts).queue
    case RemoveCall(id) => Remove(q, id)
  }

  function Replay(q: Queue, calls: seq<Call>): Run
    decreases |calls|
  {
    if |calls| == 0 then Run(q, [])
    else
      var rest := Replay(Step(q, calls[0]), calls[1..]);
      match calls[0]
      case ShowCall(opts) => Run(rest.queue, [Show(q, opts).id] + rest.returned)
      case RemoveCall(_) => rest
  }

  /** Every state reachable from a well-formed one is well formed, so ids stay pairwise distinct. */
  lemma {:induction false} ReplayKeepsWellFormed(q: Queue, calls: seq<Call>)
    requires WellFormed(q)
    ensures WellFormed(Replay(q, calls).queue)
    decreases |calls|
  {
    if |calls| > 0 {
      match calls[0] {
        case ShowCall(opts) => ShowKeepsWellFormed(q, opts);
        case RemoveCall(id) => RemoveKeepsWellFormed(q, id);
      }
      ReplayKeepsWellFormed(Step(q, calls[0]), calls[1..]);
    }
  }

  /**
   * The ids `showToast` returns over a run are strictly increasing, all above
   * the starting counter and none above the final one.
   */
  lemma {:induction false} ReplayIdsIncrease(q: Queue, calls: seq<Call>)
    ensures var r := Replay(q, calls);
      && (forall i, j :: 0 <= i < j < |r.returned| ==> r.returned[i] < r.returned[j])
      && (forall i :: 0 <= i < |r.returned| ==> q.counter < r.returned[i] <= r.queue.counter)
      && q.counter <= r.queue.counter
    decreases |calls|
  {
    if |calls| > 0 {
      ReplayIdsIncrease(Step(q, calls[0]), calls[1..]);
    }
  }

  /** A toast stays in the queue through every call except a removal of its own id. */
  lemma {:induction false} StaysUntilRemoved(q: Queue, calls: seq<Call>, t: Toast)
    requires t in q.toasts
    requires forall k :: 0 <= k < |calls| ==> calls[k] != RemoveCall(t.id)
    ensures t in Replay(q, calls).queue.toasts
    decreases |calls|
  {
    if |calls| > 0 {
      var next := Step(q, calls[0]);
      match calls[0] {
        case ShowCall(opts) => assert next.toasts[1..] == q.toasts;
        case RemoveCall(id) => assert id != t.id;
      }
      assert t in next.toasts;
      StaysUntilRemoved(next, calls[1..], t);
    }
  }

  // ---------------------------------------------------------------------------
  // rendering and access

  /** The icon and colour family a toast is drawn with. */
  datatype Style = SuccessStyle | ErrorStyle | InfoStyle

  /** Only the two known kinds get their own style; any other string is drawn as info. */
  function StyleFor(kind: string): (s: Style)
    ensures s == SuccessStyle <==> kind == "success"
    ensures s == ErrorStyle <==> kind == "error"
    ensures s == InfoStyle <==> kind != "success" && kind != "error"
  {
    if kind == "success" then SuccessStyle
    else if kind == "error" then ErrorStyle
    else InfoStyle
  }

  /** A toast shown without a `type` is drawn in the success style. */
  lemma OmittedKindIsSuccess(q: Queue, opts: Options)
    requires opts.kind.None?
    ensures StyleFor(Show(q, opts).queue.toasts[0].kind) == SuccessStyle
  {
  }

  const OutsideProvider: string := "useToast must be used within a ToastProvider"

  /** `useToast()`: the provider's value, or the error it throws outside a provider. */
  function UseToast<A>(context: Option<A>): (r: Result<A, string>)
    ensures r.Success? <==> context.Some?
    ensures r.Success? ==> r.value == context.value
    ensures r.Failure? ==> r.error == OutsideProvider
  {
    match context
    case Some(api) => Success(api)
    case None => Failure(OutsideProvider)
  }

  /**
   * The two-toast walk-through: "Saved" with the defaults, then "Error" with
   * duration 0; the list is [Error, Saved]; firing Saved's timer leaves
   * [Error]; closing Error empties it.
   */
  lemma TwoToastScenario()
    ensures var a := Show(Initial, Options(Some("Saved"), None, None, None));
      var b := Show(a.queue, Options(Some("Error"), None, Some("error"), Some(0)));
      && a.expiry == Some(Expiry(a.id, 3000)) && b.expiry == None
      && |b.queue.toasts| == 2
      && b.queue.toasts[0].title == Some("Error") && b.queue.toasts[1].title == Some("Saved")
      && Remove(b.queue, a.id).toasts == [b.queue.toasts[0]]
      && Remove(Remove(b.queue, a.id), b.id).toasts == []
  {
    var a := Show(Initial, Options(Some("Saved"), None, None, None));
    var b := Show(a.queue, Options(Some("Error"), None, Some("error"), Some(0)));
    var afterExpiry := Remove(b.queue, a.id);
    assert afterExpiry.toasts == Filter(b.queue.toasts, Other(a.id));
    assert afterExpiry.toasts == [b.queue.toasts[0]];
    assert Remove(afterExpiry, b.id).toasts == Filter([b.queue.toasts[0]], Other(b.id));
  }
}
