/** The notification queue of the alert provider: an ordered list of alerts that the
    `show*` operations append to and `removeAlert` filters by id. */
module Alerts {
  import opened Wrappers
  import opened React

  /** The four severities an alert can have. */
  datatype AlertType = Success | Error | Warning | Info

  /** One queued alert. The id is produced by the caller's random generator and is not
      assumed to be unique. */
  datatype AlertItem = AlertItem(id: string, kind: AlertType, message: string, duration: int, icon: Option<Node>)

  /** How one queued alert is laid out: keyed by its id and shifted down by its position. */
  datatype Slot = Slot(key: string, item: AlertItem, offsetPx: int)

  /** Display time, in milliseconds, of an alert shown without an explicit duration. */
  const DefaultDuration: int := 2000

  /** Vertical shift, in pixels, between two consecutive alerts on screen. */
  const SlotSpacing: int := 10

  /** The item `showAlert` enqueues; an absent duration takes the default. */
  function NewAlert(id: string, kind: AlertType, message: string, icon: Option<Node>, duration: Option<int>): (a: AlertItem)
    ensures a.id == id && a.kind == kind && a.message == message && a.icon == icon
    ensures duration.None? ==> a.duration == DefaultDuration
    ensures duration.Some? ==> a.duration == duration.value
  {
    AlertItem(id, kind, message, duration.GetOr(DefaultDuration), icon)
  }

  /** The queue after `removeAlert(id)`: every item whose id differs, in order. */
  function Without(items: seq<AlertItem>, id: string): (r: seq<AlertItem>)
    ensures |r| <= |items|
    ensures forall x :: x in r <==> x in items && x.id != id
  {
    if items == [] then []
    else if items[0].id == id then Without(items[1..], id)
    else [items[0]] + Without(items[1..], id)
  }

  /** Number of queued items that carry `id`. */
  function CountId(items: seq<AlertItem>, id: string): nat
  {
    if items == [] then 0
    else (if items[0].id == id then 1 else 0) + CountId(items[1..], id)
  }

  /** The layout of the queue: one slot per item, in queue order. */
  function Layout(items: seq<AlertItem>): (r: seq<Slot>)
    ensures |r| == |items|
    ensures forall i :: 0 <= i < |r| ==> r[i].item == items[i] && r[i].key == items[i].id
    ensures forall i :: 0 <= i < |r| ==> r[i].offsetPx == i * SlotSpacing
    ensures forall i, j :: 0 <= i < j < |r| ==> r[i].offsetPx < r[j].offsetPx
    ensures |r| > 0 ==> r[0].offsetPx == 0
  {
    seq(|items|, i requires 0 <= i < |items| => Slot(items[i].id, items[i], i * SlotSpacing))
  }

  /** Removing by id distributes over concatenation: the filter keeps the relative order
      of what it keeps, and what it keeps from one part does not depend on the other. */
  lemma {:induction false} WithoutConcat(a: seq<AlertItem>, b: seq<AlertItem>, id: string)
    ensures Without(a + b, id) == Without(a, id) + Without(b, id)
  {
    if a == [] {
      assert a + b == b;
    } else {
      assert (a + b)[1..] == a[1..] + b;
      WithoutConcat(a[1..], b, id);
    }
  }

  /** Removing an id the queue does not hold leaves it unchanged. */
  lemma {:induction false} WithoutAbsent(items: seq<AlertItem>, id: string)
    requires forall x :: x in items ==> x.id != id
    ensures Without(items, id) == items
  {
    if items != [] {
      assert items[0] in items;
      WithoutAbsent(items[1..], id);
      assert [items[0]] + items[1..] == items;
    }
  }

  /** Removing the same id twice has the effect of removing it once. */
  lemma WithoutIdempotent(items: seq<AlertItem>, id: string)
    ensures Without(Without(items, id), id) == Without(items, id)
  {
    WithoutAbsent(Without(items, id), id);
  }

  /** Removals by two ids commute. */
  lemma {:induction false} WithoutCommutes(items: seq<AlertItem>, a: string, b: string)
    ensures Without(Without(items, a), b) == Without(Without(items, b), a)
  {
    if items != [] {
      WithoutCommutes(items[1..], a, b);
      var x := items[0];
      if x.id == a || x.id == b {
      } else {
        assert Without([x] + Without(items[1..], a), b) == [x] + Without(Without(items[1..], a), b) by {
          assert ([x] + Without(items[1..], a))[1..] == Without(items[1..], a);
        }
        assert Without([x] + Without(items[1..], b), a) == [x] + Without(Without(items[1..], b), a) by {
          assert ([x] + Without(items[1..], b))[1..] == Without(items[1..], b);
        }
      }
    }
  }

  /** Removal drops exactly the items carrying the id, duplicates included. */
  lemma {:induction false} WithoutCount(items: seq<AlertItem>, id: string)
    ensures |Without(items, id)| == |items| - CountId(items, id)
  {
    if items != [] {
      WithoutCount(items[1..], id);
    }
  }

  /** Showing an alert with a fresh id and then dismissing it restores the queue. */
  lemma ShowThenRemove(items: seq<AlertItem>, a: AlertItem)
    requires forall x :: x in items ==> x.id != a.id
    ensures Without(items + [a], a.id) == items
  {
    WithoutConcat(items, [a], a.id);
    WithoutAbsent(items, a.id);
    assert [a][1..] == [];
  }

  /** Dismissing an id also removes an earlier alert that happens to share it. */
  lemma RemoveTakesEveryHolder(items: seq<AlertItem>, i: nat, j: nat)
    requires i < j < |items| && items[i].id == items[j].id
    ensures items[i] !in Without(items, items[j].id)
    ensures |Without(items, items[j].id)| <= |items| - 2
  {
    var id := items[j].id;
    WithoutCount(items, id);
    CountAtLeastTwo(items, i, j);
  }

  lemma {:induction false} CountAtLeastTwo(items: seq<AlertItem>, i: nat, j: nat)
    requires i < j < |items| && items[i].id == items[j].id
    ensures CountId(items, items[j].id) >= 2
  {
    if i == 0 {
      CountAtLeastOne(items[1..], j - 1, items[j].id);
    } else {
      CountAtLeastTwo(items[1..], i - 1, j - 1);
    }
  }

  lemma {:induction false} CountAtLeastOne(items: seq<AlertItem>, j: nat, id: string)
    requires j < |items| && items[j].id == id
    ensures CountId(items, id) >= 1
  {
    if j > 0 {
      CountAtLeastOne(items[1..], j - 1, id);
    }
  }

  /** Showing an alert adds one slot at the bottom and moves none of the existing ones. */
  lemma LayoutAppend(items: seq<AlertItem>, a: AlertItem)
    ensures Layout(items + [a]) == Layout(items) + [Slot(a.id, a, |items| * SlotSpacing)]
  {
  }

  /** The context value `useAlert` returns, or the error it throws outside the provider. */
  function UseAlert(context: Option<AlertProvider>): (r: Result<AlertProvider, string>)
    ensures r.Ok? <==> context.Some?
    ensures r.Ok? ==> r.value == context.value
    ensures r.Err? ==> r.error == "useAlert must be used within an AlertProvider"
  {
    UseContext(context, "useAlert must be used within an AlertProvider")
  }

  /** The provider's state: the list of queued alerts, replaced by each operation. */
  class AlertProvider {
    var alerts: seq<AlertItem>

    /** The provider starts with an empty queue. */
    constructor ()
      ensures alerts == []
    {
      alerts := [];
    }

    /** Dismisses every queued alert carrying `id`; used as each alert's close handler. */
    method RemoveAlert(id: string)
      modifies this
      ensures alerts == Without(old(alerts), id)
    {
      alerts := Without(alerts, id);
    }

    /** Appends one alert; `id` stands for the randomly generated identifier. */
    method ShowAlert(id: string, kind: AlertType, message: string, icon: Option<Node>, duration: Option<int>)
      modifies this
      ensures alerts == old(alerts) + [NewAlert(id, kind, message, icon, duration)]
    {
      alerts := alerts + [NewAlert(id, kind, message, icon, duration)];
    }

    method ShowSuccess(id: string, message: string, icon: Option<Node>, duration: Option<int>)
      modifies this
      ensures alerts == old(alerts) + [NewAlert(id, Success, message, icon, duration)]
    {
      ShowAlert(id, Success, message, icon, duration);
    }

    method ShowError(id: string, message: string, icon: Option<Node>, duration: Option<int>)
      modifies this
      ensures alerts == old(alerts) + [NewAlert(id, Error, message, icon, duration)]
    {
      ShowAlert(id, Error, message, icon, duration);
    }

    method ShowWarning(id: string, message: string, icon: Option<Node>, duration: Option<int>)
      modifies this
      ensures alerts == old(alerts) + [NewAlert(id, Warning, message, icon, duration)]
    {
      ShowAlert(id, Warning, message, icon, duration);
    }

    method ShowInfo(id: string, message: string, icon: Option<Node>, duration: Option<int>)
      modifies this
      ensures alerts == old(alerts) + [NewAlert(id, Info, message, icon, duration)]
    {
      ShowAlert(id, Info, message, icon, duration);
    }

    /** What the provider renders: the queue, in order, each slot shifted by its index. */
    function Rendered(): (r: seq<Slot>)
      reads this
      ensures |r| == |alerts|
      ensures forall i :: 0 <= i < |r| ==> r[i].item == alerts[i] && r[i].offsetPx == i * SlotSpacing
    {
      Layout(alerts)
    }
  }
}
