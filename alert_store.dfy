/**
 * The price-alert collection of src/entities/alert/model/store.ts: an
 * ordered list of alerts with a capacity-bounded add, remove, toggle,
 * trigger and clear-triggered actions, and three filtering selectors.
 * Clock readings (`Date.now()`) are parameters.
 */
module AlertModel {
  import opened Wrappers
  import opened Strings
  import opened Seqs
  import Config

  /** PriceAlertCondition (src/shared/types/index.ts). */
  datatype Condition = Above | Below

  /** PriceAlert (src/entities/alert/model/types.ts); `triggeredAt` is optional. */
  datatype PriceAlert = PriceAlert(
    id: string,
    coinId: string,
    coinName: string,
    coinSymbol: string,
    coinImage: string,
    targetPrice: real,
    condition: Condition,
    isActive: bool,
    isTriggered: bool,
    createdAt: nat,
    triggeredAt: Option<nat>)

  /** What `addAlert` is given: a PriceAlert without id, isTriggered and createdAt. */
  datatype AlertInput = AlertInput(
    coinId: string,
    coinName: string,
    coinSymbol: string,
    coinImage: string,
    targetPrice: real,
    condition: Condition,
    isActive: bool,
    triggeredAt: Option<nat>)

  /** The key alerts are told apart by. */
  function AlertKey(a: PriceAlert): string {
    a.id
  }

  /** The id `alert-${now}` made from a clock reading. */
  function AlertId(now: nat): (r: string)
    ensures |r| > 6 && r[..6] == "alert-"
  {
    "alert-" + Decimal(now)
  }

  /** Distinct clock readings give distinct ids. */
  lemma AlertIdInjective(t1: nat, t2: nat)
    requires AlertId(t1) == AlertId(t2)
    ensures t1 == t2
  {
    var p := "alert-";
    assert Decimal(t1) == AlertId(t1)[|p|..];
    assert Decimal(t2) == AlertId(t2)[|p|..];
    DecimalInjective(t1, t2);
  }

  /** Every alert in `alerts` got its id from a reading earlier than `now`. */
  ghost predicate IdsIssuedBefore(alerts: seq<PriceAlert>, now: nat) {
    forall a :: a in alerts ==> exists t: nat :: t < now && a.id == AlertId(t)
  }

  /** With a strictly increasing clock the next id is fresh. */
  lemma FreshAlertId(alerts: seq<PriceAlert>, now: nat)
    requires IdsIssuedBefore(alerts, now)
    ensures forall a :: a in alerts ==> a.id != AlertId(now)
  {
    forall a | a in alerts
      ensures a.id != AlertId(now)
    {
      var t: nat :| t < now && a.id == AlertId(t);
      if a.id == AlertId(now) {
        AlertIdInjective(t, now);
      }
    }
  }

  /** The alert `addAlert` builds: the input plus id, `isTriggered = false` and `createdAt`. */
  function NewAlert(input: AlertInput, idTime: nat, createdAt: nat): (r: PriceAlert)
    ensures r.id == AlertId(idTime) && !r.isTriggered && r.createdAt == createdAt
    ensures r.coinId == input.coinId && r.targetPrice == input.targetPrice
    ensures r.condition == input.condition && r.isActive == input.isActive
    ensures r.coinName == input.coinName && r.coinSymbol == input.coinSymbol
    ensures r.coinImage == input.coinImage && r.triggeredAt == input.triggeredAt
  {
    PriceAlert(AlertId(idTime), input.coinId, input.coinName, input.coinSymbol, input.coinImage,
               input.targetPrice, input.condition, input.isActive, false, createdAt, input.triggeredAt)
  }

  /**
   * `alerts.map(a => a.id === id ? f(a) : a)`: the alerts with that id are
   * replaced by `f` of themselves, all others are left as they were.
   */
  function UpdateWhere(alerts: seq<PriceAlert>, id: string, f: PriceAlert -> PriceAlert): (r: seq<PriceAlert>)
    ensures |r| == |alerts|
    ensures forall i :: 0 <= i < |alerts| && alerts[i].id == id ==> r[i] == f(alerts[i])
    ensures forall i :: 0 <= i < |alerts| && alerts[i].id != id ==> r[i] == alerts[i]
  {
    seq(|alerts|, i requires 0 <= i < |alerts| => if alerts[i].id == id then f(alerts[i]) else alerts[i])
  }

  /** The change `toggleAlert` makes to a matching alert. */
  function Flip(a: PriceAlert): PriceAlert {
    a.(isActive := !a.isActive)
  }

  /** The change `triggerAlert` makes to a matching alert, at clock reading `now`. */
  function Fire(now: nat): PriceAlert -> PriceAlert {
    (a: PriceAlert) => a.(isTriggered := true, isActive := false, triggeredAt := Some(now))
  }

  /** `removeAlert`'s new list: every alert without that id, in order. */
  function Removed(alerts: seq<PriceAlert>, id: string): (r: seq<PriceAlert>)
    ensures forall a :: a in r <==> a in alerts && a.id != id
    ensures (forall a :: a in alerts ==> a.id != id) ==> r == alerts
  {
    Filter(alerts, (a: PriceAlert) => a.id != id)
  }

  /** `clearTriggered`'s new list: the untriggered alerts, in order. */
  function Untriggered(alerts: seq<PriceAlert>): (r: seq<PriceAlert>)
    ensures forall a :: a in r <==> a in alerts && !a.isTriggered
    ensures (forall a :: a in alerts ==> !a.isTriggered) ==> r == alerts
  {
    Filter(alerts, (a: PriceAlert) => !a.isTriggered)
  }

  /** `selectActiveAlerts`: the alerts that are on and have not fired. */
  function SelectActiveAlerts(alerts: seq<PriceAlert>): (r: seq<PriceAlert>)
    ensures forall a :: a in r <==> a in alerts && a.isActive && !a.isTriggered
  {
    Filter(alerts, (a: PriceAlert) => a.isActive && !a.isTriggered)
  }

  /** `selectTriggeredAlerts`: the alerts that have fired. */
  function SelectTriggeredAlerts(alerts: seq<PriceAlert>): (r: seq<PriceAlert>)
    ensures forall a :: a in r <==> a in alerts && a.isTriggered
  {
    Filter(alerts, (a: PriceAlert) => a.isTriggered)
  }

  /** `selectAlertsByCoin(coinId)`: the alerts on that coin; none for an unknown coin. */
  function SelectAlertsByCoin(alerts: seq<PriceAlert>, coinId: string): (r: seq<PriceAlert>)
    ensures forall a :: a in r <==> a in alerts && a.coinId == coinId
    ensures (forall a :: a in alerts ==> a.coinId != coinId) ==> r == []
  {
    Filter(alerts, (a: PriceAlert) => a.coinId == coinId)
  }

  /** No alert is both active and triggered in the two selectors' results. */
  lemma ActiveAndTriggeredDisjoint(alerts: seq<PriceAlert>)
    ensures forall a :: a in SelectActiveAlerts(alerts) ==> a !in SelectTriggeredAlerts(alerts)
  {
  }

  /** Toggling the same id twice restores the list. */
  lemma ToggleTwice(alerts: seq<PriceAlert>, id: string)
    ensures UpdateWhere(UpdateWhere(alerts, id, Flip), id, Flip) == alerts
  {
    var once := UpdateWhere(alerts, id, Flip);
    var twice := UpdateWhere(once, id, Flip);
    forall i | 0 <= i < |alerts|
      ensures twice[i] == alerts[i]
    {
      if alerts[i].id == id {
        assert once[i].id == id;
      }
    }
  }

  /** A fired alert is switched off. */
  ghost predicate TriggeredInactive(alerts: seq<PriceAlert>) {
    forall a :: a in alerts ==> a.isTriggered ==> !a.isActive
  }

  /** `addAlert`, `triggerAlert`, `removeAlert` and `clearTriggered` keep fired alerts switched off. */
  lemma ActionsKeepTriggeredInactive(alerts: seq<PriceAlert>, input: AlertInput, idTime: nat,
                                     createdAt: nat, id: string, now: nat)
    requires TriggeredInactive(alerts)
    ensures TriggeredInactive(alerts + [NewAlert(input, idTime, createdAt)])
    ensures TriggeredInactive(UpdateWhere(alerts, id, Fire(now)))
    ensures TriggeredInactive(Removed(alerts, id))
    ensures TriggeredInactive(Untriggered(alerts))
  {
    var fired := UpdateWhere(alerts, id, Fire(now));
    forall a | a in fired && a.isTriggered
      ensures !a.isActive
    {
      var i :| 0 <= i < |fired| && fired[i] == a;
      assert alerts[i] in alerts;
    }
  }

  /**
   * `toggleAlert` does not: toggling a fired, switched-off alert switches
   * it back on while it stays fired.
   */
  lemma ToggleBreaksTriggeredInactive()
    ensures exists alerts: seq<PriceAlert>, id: string ::
      TriggeredInactive(alerts) && !TriggeredInactive(UpdateWhere(alerts, id, Flip))
  {
    var a := PriceAlert("alert-1", "bitcoin", "Bitcoin", "btc", "", 60000.0 as real, Above,
                        false, true, 0, Some(1));
    var toggled := UpdateWhere([a], "alert-1", Flip);
    assert toggled[0] == Flip(a);
    assert toggled[0] in toggled;
  }

  /** It does when the toggled alerts have not fired. */
  lemma ToggleUntriggeredKeepsTriggeredInactive(alerts: seq<PriceAlert>, id: string)
    requires TriggeredInactive(alerts)
    requires forall a :: a in alerts && a.id == id ==> !a.isTriggered
    ensures TriggeredInactive(UpdateWhere(alerts, id, Flip))
  {
    var toggled := UpdateWhere(alerts, id, Flip);
    forall a | a in toggled && a.isTriggered
      ensures !a.isActive
    {
      var i :| 0 <= i < |toggled| && toggled[i] == a;
      assert alerts[i] in alerts;
    }
  }

  /** The zustand store created by `useAlertStore`. */
  class AlertStore {
    var alerts: seq<PriceAlert>

    /** At most `MAX_ALERTS` alerts, no two with the same id. */
    ghost predicate Valid()
      reads this
    {
      |alerts| <= Config.MaxAlerts && UniqueBy(alerts, AlertKey)
    }

    constructor ()
      ensures Valid() && alerts == []
    {
      alerts := [];
    }

    /**
     * `addAlert`: refuse when full; otherwise append the new alert at the
     * end. `idTime` and `createdAt` are the two clock readings; the id
     * they give must not be taken (a strictly increasing clock ensures it,
     * see `FreshAlertId`).
     */
    method AddAlert(input: AlertInput, idTime: nat, createdAt: nat) returns (added: bool)
      requires Valid()
      requires |alerts| < Config.MaxAlerts ==> forall a :: a in alerts ==> a.id != AlertId(idTime)
      modifies this
      ensures Valid()
      ensures added <==> old(|alerts|) < Config.MaxAlerts
      ensures added ==> alerts == old(alerts) + [NewAlert(input, idTime, createdAt)]
      ensures !added ==> alerts == old(alerts)
    {
      if |alerts| >= Config.MaxAlerts {
        return false;
      }
      var alert := NewAlert(input, idTime, createdAt);
      UniqueAppend(alerts, alert, AlertKey);
      alerts := alerts + [alert];
      return true;
    }

    /** `removeAlert`. */
    method RemoveAlert(id: string)
      requires Valid()
      modifies this
      ensures Valid()
      ensures alerts == Removed(old(alerts), id)
    {
      UniqueFilter(alerts, (a: PriceAlert) => a.id != id, AlertKey);
      alerts := Removed(alerts, id);
    }

    /** `toggleAlert`. */
    method ToggleAlert(id: string)
      requires Valid()
      modifies this
      ensures Valid()
      ensures alerts == UpdateWhere(old(alerts), id, Flip)
    {
      var toggled := UpdateWhere(alerts, id, Flip);
      UniqueSameKeys(alerts, toggled, AlertKey);
      alerts := toggled;
    }

    /** `triggerAlert`, at clock reading `now`. */
    method TriggerAlert(id: string, now: nat)
      requires Valid()
      modifies this
      ensures Valid()
      ensures alerts == UpdateWhere(old(alerts), id, Fire(now))
    {
      var fired := UpdateWhere(alerts, id, Fire(now));
      UniqueSameKeys(alerts, fired, AlertKey);
      alerts := fired;
    }

    /** `clearTriggered`. */
    method ClearTriggered()
      requires Valid()
      modifies this
      ensures Valid()
      ensures alerts == Untriggered(old(alerts))
    {
      UniqueFilter(alerts, (a: PriceAlert) => !a.isTriggered, AlertKey);
      alerts := Untriggered(alerts);
    }
  }
}
