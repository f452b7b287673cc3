/**
 * The alert evaluator of src/features/alerts/check-alerts/useAlertChecker.ts:
 * one `checkAlerts` pass walks the active alerts against the realtime
 * price table, fires those whose condition holds, and remembers every fired
 * id in a set that lives as long as the process, so an alert fires at most
 * once. The notification sent on firing is recorded in a ghost log.
 */
module AlertChecking {
  import opened Wrappers
  import opened Seqs
  import opened CoinModel
  import opened AlertModel

  /** The fire predicate: `above` at or over the target, `below` at or under it. */
  function ShouldTrigger(condition: Condition, price: real, target: real): (r: bool)
    ensures condition == Above ==> (r <==> price >= target)
    ensures condition == Below ==> (r <==> price <= target)
  {
    match condition
    case Above => price >= target
    case Below => price <= target
  }

  /** One `sendAlertNotification(alert, price)` call. */
  datatype Notification = Notification(alert: PriceAlert, price: real)

  /** The id a notification is for. */
  function NotifiedId(n: Notification): string {
    n.alert.id
  }

  /** The ids the notifications in `ns` are for. */
  function NotifiedIds(ns: seq<Notification>): set<string> {
    set n | n in ns :: n.alert.id
  }

  /** The loop's state: the checked set, and the notifications sent so far. */
  datatype PassState = PassState(checked: set<string>, fired: seq<Notification>)

  /**
   * The price `alert` would fire at, if its coin has a non-zero price in
   * the table (`if (!price) continue`) and the condition holds.
   */
  function FiringPrice(alert: PriceAlert, table: PriceTable): (r: Option<real>)
    ensures r.Some? <==>
      (alert.coinId in table && table[alert.coinId].price != 0.0
       && ShouldTrigger(alert.condition, table[alert.coinId].price, alert.targetPrice))
    ensures r.Some? ==> r.value == table[alert.coinId].price
  {
    match Lookup(table, alert.coinId)
    case None => None
    case Some(rp) =>
      if rp.price != 0.0 && ShouldTrigger(alert.condition, rp.price, alert.targetPrice)
      then Some(rp.price) else None
  }

  /** One iteration of the loop over the active alerts. */
  function Visit(st: PassState, alert: PriceAlert, table: PriceTable): PassState {
    if alert.id in st.checked then st
    else match FiringPrice(alert, table)
      case None => st
      case Some(price) => PassState(st.checked + {alert.id}, st.fired + [Notification(alert, price)])
  }

  /** The loop over `active`, from state `st`. */
  function Pass(st: PassState, active: seq<PriceAlert>, table: PriceTable): PassState
    decreases |active|
  {
    if |active| == 0 then st
    else Visit(Pass(st, active[..|active| - 1], table), active[|active| - 1], table)
  }

  /** The `triggerAlert` calls of a pass, in order, at clock reading `now`. */
  function TriggerEach(alerts: seq<PriceAlert>, fired: seq<Notification>, now: nat): seq<PriceAlert>
    decreases |fired|
  {
    if |fired| == 0 then alerts
    else UpdateWhere(TriggerEach(alerts, fired[..|fired| - 1], now), fired[|fired| - 1].alert.id, Fire(now))
  }

  /**
   * What a pass does: it only adds to the checked set, exactly the ids it
   * notifies; it notifies each id once, never one already checked, only
   * for an alert of `active` whose coin has a non-zero price meeting the
   * condition, and at that price.
   */
  lemma {:induction false} PassFiresOnlyEligible(checked: set<string>, active: seq<PriceAlert>, table: PriceTable)
    ensures Pass(PassState(checked, []), active, table).checked ==
      checked + NotifiedIds(Pass(PassState(checked, []), active, table).fired)
    ensures UniqueBy(Pass(PassState(checked, []), active, table).fired, NotifiedId)
    ensures forall n :: n in Pass(PassState(checked, []), active, table).fired ==>
      && n.alert in active
      && n.alert.id !in checked
      && FiringPrice(n.alert, table) == Some(n.price)
    decreases |active|
  {
    if |active| > 0 {
      var init := active[..|active| - 1];
      var a := active[|active| - 1];
      PassFiresOnlyEligible(checked, init, table);
      var st := Pass(PassState(checked, []), init, table);
      assert forall x :: x in init ==> x in active;
      if a.id !in st.checked && FiringPrice(a, table).Some? {
        var n := Notification(a, FiringPrice(a, table).value);
        UniqueAppend(st.fired, n, NotifiedId);
        assert NotifiedIds(st.fired + [n]) == NotifiedIds(st.fired) + {a.id};
      }
    }
  }

  /**
   * And it misses none: after a pass every alert of `active` that was not
   * checked and whose coin's price meets its condition is checked.
   */
  lemma {:induction false} PassComplete(checked: set<string>, active: seq<PriceAlert>, table: PriceTable)
    ensures checked <= Pass(PassState(checked, []), active, table).checked
    ensures forall a :: a in active && FiringPrice(a, table).Some? ==>
      a.id in Pass(PassState(checked, []), active, table).checked
    decreases |active|
  {
    if |active| > 0 {
      var init := active[..|active| - 1];
      PassComplete(checked, init, table);
      forall a | a in active && FiringPrice(a, table).Some?
        ensures a.id in Pass(PassState(checked, []), active, table).checked
      {
        if a != active[|active| - 1] {
          var i :| 0 <= i < |active| && active[i] == a;
          assert init[i] == a;
        }
      }
    }
  }

  /** Triggering is idempotent: firing an alert again changes nothing further. */
  lemma FireTwice(a: PriceAlert, now: nat)
    ensures Fire(now)(Fire(now)(a)) == Fire(now)(a)
  {
  }

  /**
   * The store after a pass: every alert whose id was notified is
   * triggered, every other alert is exactly as it was.
   */
  lemma {:induction false} TriggerEachEffect(alerts: seq<PriceAlert>, fired: seq<Notification>, now: nat)
    ensures |TriggerEach(alerts, fired, now)| == |alerts|
    ensures forall i :: 0 <= i < |alerts| && alerts[i].id in NotifiedIds(fired) ==>
      TriggerEach(alerts, fired, now)[i] == Fire(now)(alerts[i])
    ensures forall i :: 0 <= i < |alerts| && alerts[i].id !in NotifiedIds(fired) ==>
      TriggerEach(alerts, fired, now)[i] == alerts[i]
    decreases |fired|
  {
    if |fired| > 0 {
      var init := fired[..|fired| - 1];
      var last := fired[|fired| - 1];
      TriggerEachEffect(alerts, init, now);
      assert NotifiedIds(fired) == NotifiedIds(init) + {last.alert.id} by {
        assert fired == init + [last];
      }
    }
  }

  /**
   * An `above 60000` alert on bitcoin: no fire at 59000, one at 61000;
   * afterwards it is no longer active, and even switched back on it stays
   * checked, so neither 59500 nor 62000 fires it again.
   */
  lemma AboveAlertFiresOnce(now: nat)
    ensures var a := PriceAlert("alert-1", "bitcoin", "Bitcoin", "btc", "", 60000.0, Above,
                                true, false, 0, None);
      var at := (p: real) => map["bitcoin" := RealtimePrice(p, 0.0, 0.0)];
      && Pass(PassState({}, []), [a], at(59000.0)) == PassState({}, [])
      && Pass(PassState({}, []), [a], at(61000.0)) == PassState({"alert-1"}, [Notification(a, 61000.0)])
      && SelectActiveAlerts(TriggerEach([a], [Notification(a, 61000.0)], now)) == []
      && Pass(PassState({"alert-1"}, []), [a], at(59500.0)).fired == []
      && Pass(PassState({"alert-1"}, []), [a], at(62000.0)).fired == []
  {
    var a := PriceAlert("alert-1", "bitcoin", "Bitcoin", "btc", "", 60000.0, Above,
                        true, false, 0, None);
    assert [a][..0] == [];
    var fired := TriggerEach([a], [Notification(a, 61000.0)], now);
    assert [Notification(a, 61000.0)][..0] == [];
    var u := UpdateWhere([a], "alert-1", Fire(now));
    assert u[0] == Fire(now)(a);
    assert fired == u == [Fire(now)(a)];
  }

  /** The pass over one more alert is one more visit. */
  lemma PassSnoc(st: PassState, active: seq<PriceAlert>, i: nat, table: PriceTable)
    requires i < |active|
    ensures Pass(st, active[..i + 1], table) == Visit(Pass(st, active[..i], table), active[i], table)
  {
    assert active[..i + 1][..i] == active[..i];
  }

  /** Triggering after one more notification is one more `triggerAlert`. */
  lemma TriggerEachSnoc(alerts: seq<PriceAlert>, fired: seq<Notification>, n: Notification, now: nat)
    ensures TriggerEach(alerts, fired + [n], now) == UpdateWhere(TriggerEach(alerts, fired, now), n.alert.id, Fire(now))
  {
    assert (fired + [n])[..|fired|] == fired;
  }

  /** Notifying an unchecked id keeps the log free of repeats and the checked set in step. */
  lemma NotifyFresh(log: seq<Notification>, checked: set<string>, n: Notification)
    requires checked == NotifiedIds(log) && UniqueBy(log, NotifiedId)
    requires n.alert.id !in checked
    ensures checked + {n.alert.id} == NotifiedIds(log + [n])
    ensures UniqueBy(log + [n], NotifiedId)
  {
    UniqueAppend(log, n, NotifiedId);
  }

  /** A visit depends on the checked set only, and appends at most one notification. */
  lemma VisitFrom(st: PassState, alert: PriceAlert, table: PriceTable)
    ensures var step := Visit(PassState(st.checked, []), alert, table);
      && Visit(st, alert, table) == PassState(step.checked, st.fired + step.fired)
      && |step.fired| <= 1
  {
  }

  /** Triggering after the notifications `f` and then at most one more. */
  lemma TriggerEachConcat(alerts: seq<PriceAlert>, f: seq<Notification>, g: seq<Notification>, now: nat)
    requires |g| <= 1
    ensures TriggerEach(alerts, f + g, now) == TriggerEach(TriggerEach(alerts, f, now), g, now)
  {
    if |g| == 1 {
      TriggerEachSnoc(alerts, f, g[0], now);
      TriggerEachSnoc(TriggerEach(alerts, f, now), [], g[0], now);
      assert [] + [g[0]] == g;
      assert f + [g[0]] == f + g;
    } else {
      assert f + g == f;
    }
  }

  /** The hook's state: `checkedRef.current`, and the notifications it has sent. */
  class AlertChecker {
    var checked: set<string>
    ghost var notifications: seq<Notification>

    /** The checked set is exactly the notified ids, and no id was notified twice. */
    ghost predicate Valid()
      reads this
    {
      checked == NotifiedIds(notifications) && UniqueBy(notifications, NotifiedId)
    }

    constructor ()
      ensures Valid() && checked == {} && notifications == []
    {
      checked := {};
      notifications := [];
    }

    /**
     * One iteration of the loop in `checkAlerts`: skip a checked alert or
     * one without a non-zero price; otherwise fire it if its condition holds.
     */
    method VisitAlert(store: AlertStore, coins: CoinStore, alert: PriceAlert, now: nat)
      requires Valid() && store.Valid()
      modifies this, store
      ensures Valid() && store.Valid()
      ensures var st := Visit(PassState(old(checked), []), alert, coins.realtimePrices);
        && checked == st.checked
        && notifications == old(notifications) + st.fired
        && store.alerts == TriggerEach(old(store.alerts), st.fired, now)
    {
      if alert.id in checked {
        return;
      }
      var rp := coins.GetRealtimePrice(alert.coinId);
      if rp.None? || rp.value.price == 0.0 {
        return;
      }
      var price := rp.value.price;
      var shouldTrigger := ShouldTrigger(alert.condition, price, alert.targetPrice);
      if shouldTrigger {
        var n := Notification(alert, price);
        NotifyFresh(notifications, checked, n);
        TriggerEachSnoc(store.alerts, [], n, now);
        checked := checked + {alert.id};
        store.TriggerAlert(alert.id, now);
        notifications := notifications + [n];
      }
    }

    /**
     * `checkAlerts`: walk the active alerts of `store` against the price
     * table of `coins`, triggering and notifying those that fire. `now` is
     * the clock reading `triggerAlert` uses. The price table is not changed.
     */
    method CheckAlerts(store: AlertStore, coins: CoinStore, now: nat)
      requires Valid() && store.Valid()
      modifies this, store
      ensures Valid() && store.Valid()
      ensures var st := Pass(PassState(old(checked), []), SelectActiveAlerts(old(store.alerts)), coins.realtimePrices);
        && checked == st.checked
        && notifications == old(notifications) + st.fired
        && store.alerts == TriggerEach(old(store.alerts), st.fired, now)
    {
      var active := SelectActiveAlerts(store.alerts);
      ghost var checked0 := checked;
      ghost var log0 := notifications;
      ghost var alerts0 := store.alerts;
      for i := 0 to |active|
        invariant store.Valid() && Valid()
        invariant checked == Pass(PassState(checked0, []), active[..i], coins.realtimePrices).checked
        invariant notifications == log0 + Pass(PassState(checked0, []), active[..i], coins.realtimePrices).fired
        invariant store.alerts == TriggerEach(alerts0, Pass(PassState(checked0, []), active[..i], coins.realtimePrices).fired, now)
      {
        ghost var st := Pass(PassState(checked0, []), active[..i], coins.realtimePrices);
        PassSnoc(PassState(checked0, []), active, i, coins.realtimePrices);
        ghost var step := Visit(PassState(checked, []), active[i], coins.realtimePrices);
        VisitFrom(st, active[i], coins.realtimePrices);
        TriggerEachConcat(alerts0, st.fired, step.fired, now);
        ConcatAssoc(log0, st.fired, step.fired);
        VisitAlert(store, coins, active[i], now);
      }
      assert active[..|active|] == active;
    }
  }
}
