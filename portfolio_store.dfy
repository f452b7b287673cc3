/**
 * The holdings collection of src/entities/portfolio/model/store.ts: an
 * ordered list of holdings with append, remove, partial update and clear,
 * and two selectors. Clock readings (`Date.now()`) are parameters.
 */
module PortfolioModel {
  import opened Wrappers
  import opened Strings
  import opened Seqs

  /** Holding (src/entities/portfolio/model/types.ts). */
  datatype Holding = Holding(
    id: string,
    coinId: string,
    coinName: string,
    coinSymbol: string,
    coinImage: string,
    amount: real,
    buyPrice: real,
    addedAt: nat)

  /** What `addHolding` is given: a Holding without id and addedAt. */
  datatype HoldingInput = HoldingInput(
    coinId: string,
    coinName: string,
    coinSymbol: string,
    coinImage: string,
    amount: real,
    buyPrice: real)

  /** `Partial<Pick<Holding, 'amount' | 'buyPrice'>>`: each field may be absent. */
  datatype HoldingUpdate = HoldingUpdate(amount: Option<real>, buyPrice: Option<real>)

  /** The key holdings are told apart by. */
  function HoldingKey(h: Holding): string {
    h.id
  }

  /** The id `${coinId}-${now}`. */
  function HoldingId(coinId: string, now: nat): string {
    coinId + "-" + Decimal(now)
  }

  /**
   * Ids are injective in the coin and the clock reading, even for coin ids
   * that contain `-` themselves: the reading is all digits.
   */
  lemma HoldingIdInjective(c1: string, t1: nat, c2: string, t2: nat)
    requires HoldingId(c1, t1) == HoldingId(c2, t2)
    ensures c1 == c2 && t1 == t2
  {
    DashDigitsSplit(c1, Decimal(t1), c2, Decimal(t2));
    DecimalInjective(t1, t2);
  }

  /** Every holding in `holdings` got its id from a reading earlier than `now`. */
  ghost predicate IdsIssuedBefore(holdings: seq<Holding>, now: nat) {
    forall h :: h in holdings ==> exists c: string, t: nat :: t < now && h.id == HoldingId(c, t)
  }

  /** With a strictly increasing clock the next id is fresh, whatever the coin. */
  lemma FreshHoldingId(holdings: seq<Holding>, coinId: string, now: nat)
    requires IdsIssuedBefore(holdings, now)
    ensures forall h :: h in holdings ==> h.id != HoldingId(coinId, now)
  {
    forall h | h in holdings
      ensures h.id != HoldingId(coinId, now)
    {
      var c: string, t: nat :| t < now && h.id == HoldingId(c, t);
      if h.id == HoldingId(coinId, now) {
        HoldingIdInjective(c, t, coinId, now);
      }
    }
  }

  /** The holding `addHolding` builds: the input plus id and `addedAt`. */
  function NewHolding(input: HoldingInput, idTime: nat, addedAt: nat): (r: Holding)
    ensures r.id == HoldingId(input.coinId, idTime) && r.addedAt == addedAt
    ensures r.coinId == input.coinId && r.amount == input.amount && r.buyPrice == input.buyPrice
    ensures r.coinName == input.coinName && r.coinSymbol == input.coinSymbol && r.coinImage == input.coinImage
  {
    Holding(HoldingId(input.coinId, idTime), input.coinId, input.coinName, input.coinSymbol,
            input.coinImage, input.amount, input.buyPrice, addedAt)
  }

  /** Two additions for the same coin at different readings give two different holdings. */
  lemma AddTwiceDistinct(input: HoldingInput, t1: nat, a1: nat, t2: nat, a2: nat)
    requires t1 != t2
    ensures NewHolding(input, t1, a1).id != NewHolding(input, t2, a2).id
  {
    if HoldingId(input.coinId, t1) == HoldingId(input.coinId, t2) {
      HoldingIdInjective(input.coinId, t1, input.coinId, t2);
    }
  }

  /** `{ ...h, ...updates }`: a field present in the update replaces the holding's. */
  function Patch(h: Holding, u: HoldingUpdate): (r: Holding)
    ensures r.amount == (if u.amount.Some? then u.amount.value else h.amount)
    ensures r.buyPrice == (if u.buyPrice.Some? then u.buyPrice.value else h.buyPrice)
    ensures r.(amount := h.amount, buyPrice := h.buyPrice) == h
  {
    h.(amount := u.amount.GetOr(h.amount), buyPrice := u.buyPrice.GetOr(h.buyPrice))
  }

  /** `updateHolding`'s new list: the holdings with that id patched, the rest as they were. */
  function Updated(holdings: seq<Holding>, id: string, u: HoldingUpdate): (r: seq<Holding>)
    ensures |r| == |holdings|
    ensures forall i :: 0 <= i < |holdings| && holdings[i].id == id ==> r[i] == Patch(holdings[i], u)
    ensures forall i :: 0 <= i < |holdings| && holdings[i].id != id ==> r[i] == holdings[i]
    ensures forall i :: 0 <= i < |holdings| ==> r[i].id == holdings[i].id
  {
    seq(|holdings|, i requires 0 <= i < |holdings| =>
      if holdings[i].id == id then Patch(holdings[i], u) else holdings[i])
  }

  /** An empty update changes nothing; the same update applied twice is applied once. */
  lemma UpdateLaws(holdings: seq<Holding>, id: string, u: HoldingUpdate)
    ensures Updated(holdings, id, HoldingUpdate(None, None)) == holdings
    ensures Updated(Updated(holdings, id, u), id, u) == Updated(holdings, id, u)
  {
    var once := Updated(holdings, id, u);
    assert Updated(once, id, u) == once by {
      forall i | 0 <= i < |holdings|
        ensures Updated(once, id, u)[i] == once[i]
      {
        if holdings[i].id == id {
          assert once[i].id == id;
        }
      }
    }
  }

  /** `removeHolding`'s new list: every holding without that id, in order. */
  function Removed(holdings: seq<Holding>, id: string): (r: seq<Holding>)
    ensures forall h :: h in r <==> h in holdings && h.id != id
    ensures (forall h :: h in holdings ==> h.id != id) ==> r == holdings
  {
    Filter(holdings, (h: Holding) => h.id != id)
  }

  /** `selectHoldingByCoin(coinId)`: the holdings of that coin; none for an unknown coin. */
  function SelectHoldingByCoin(holdings: seq<Holding>, coinId: string): (r: seq<Holding>)
    ensures forall h :: h in r <==> h in holdings && h.coinId == coinId
    ensures (forall h :: h in holdings ==> h.coinId != coinId) ==> r == []
  {
    Filter(holdings, (h: Holding) => h.coinId == coinId)
  }

  /** The zustand store created by `usePortfolioStore`. */
  class PortfolioStore {
    var holdings: seq<Holding>

    /** No two holdings share an id. */
    ghost predicate Valid()
      reads this
    {
      UniqueBy(holdings, HoldingKey)
    }

    constructor ()
      ensures Valid() && holdings == []
    {
      holdings := [];
    }

    /**
     * `addHolding`: append the new holding. `idTime` and `addedAt` are the
     * two clock readings; the id must not be taken (see `FreshHoldingId`).
     */
    method AddHolding(input: HoldingInput, idTime: nat, addedAt: nat)
      requires Valid()
      requires forall h :: h in holdings ==> h.id != HoldingId(input.coinId, idTime)
      modifies this
      ensures Valid()
      ensures holdings == old(holdings) + [NewHolding(input, idTime, addedAt)]
    {
      var h := NewHolding(input, idTime, addedAt);
      UniqueAppend(holdings, h, HoldingKey);
      holdings := holdings + [h];
    }

    /** `removeHolding`. */
    method RemoveHolding(id: string)
      requires Valid()
      modifies this
      ensures Valid()
      ensures holdings == Removed(old(holdings), id)
    {
      UniqueFilter(holdings, (h: Holding) => h.id != id, HoldingKey);
      holdings := Removed(holdings, id);
    }

    /** `updateHolding`. */
    method UpdateHolding(id: string, updates: HoldingUpdate)
      requires Valid()
      modifies this
      ensures Valid()
      ensures holdings == Updated(old(holdings), id, updates)
    {
      var next := Updated(holdings, id, updates);
      UniqueSameKeys(holdings, next, HoldingKey);
      holdings := next;
    }

    /** `clearPortfolio`. */
    method ClearPortfolio()
      modifies this
      ensures Valid() && holdings == []
    {
      holdings := [];
    }

    /** `selectHoldings`. */
    function SelectHoldings(): seq<Holding>
      reads this
    {
      holdings
    }
  }
}
