/** The strategy catalogue and the locally kept set of followed strategies. */
module Strategies {

  datatype Category = Crypto | Quant

  datatype Strategy = Strategy(id: string, name: string, category: Category, risk: string)

  const CryptoStrategies: seq<Strategy> := [
    Strategy("btc-momentum", "BTC Momentum", Crypto, "high"),
    Strategy("eth-longterm", "ETH Long-term Hold", Crypto, "medium"),
    Strategy("stablecoin-yield", "Stablecoin Yield", Crypto, "low"),
    Strategy("altcoin-gems", "Altcoin Gems", Crypto, "high")
  ]

  const QuantStrategies: seq<Strategy> := [
    Strategy("mean-reversion", "Mean Reversion", Quant, "medium"),
    Strategy("momentum-trading", "Momentum Trading", Quant, "medium"),
    Strategy("arbitrage-sim", "Arbitrage Simulation", Quant, "low"),
    Strategy("ai-predictor", "AI Predictor", Quant, "high")
  ]

  /** The card's subscribe button and its badge. */
  datatype Variant = Secondary | Default | Destructive

  /** `getRiskBadgeVariant` */
  function RiskBadgeVariant(risk: string): (v: Variant)
    ensures v == Secondary <==> risk == "low"
    ensures v == Destructive <==> risk == "high"
    ensures v == Default <==> risk != "low" && risk != "high"
  {
    match risk
    case "low" => Secondary
    case "medium" => Default
    case "high" => Destructive
    case _ => Default
  }

  /** The set after `handleSubscribe(id)`: a copy of `subscribed` with `id` removed if present, added if not. */
  function Toggle(subscribed: set<string>, id: string): (r: set<string>)
    ensures id in r <==> id !in subscribed
    ensures forall x :: x != id ==> (x in r <==> x in subscribed)
    ensures id in subscribed ==> |r| == |subscribed| - 1
    ensures id !in subscribed ==> |r| == |subscribed| + 1
  {
    if id in subscribed then subscribed - {id} else subscribed + {id}
  }

  /** Following and then unfollowing (or the reverse) gives back the set one started with. */
  lemma {:induction false} ToggleTwice(subscribed: set<string>, id: string)
    ensures Toggle(Toggle(subscribed, id), id) == subscribed
  {
    var once := Toggle(subscribed, id);
    var twice := Toggle(once, id);
    forall x ensures x in twice <==> x in subscribed {
      if x == id {
        assert x in once <==> x !in subscribed;
      }
    }
  }

  /** The button text on a strategy's card. */
  function ButtonCaption(subscribed: set<string>, id: string): (c: string)
    ensures c == "Unsubscribe" <==> id in subscribed
    ensures c == "Subscribe" <==> id !in subscribed
  {
    if id in subscribed then "Unsubscribe" else "Subscribe"
  }

  /** The figure under "Active Strategies". */
  function ActiveStrategies(subscribed: set<string>): (n: nat)
    ensures n == 0 <==> subscribed == {}
  {
    |subscribed|
  }

  /** After toggling a catalogue id, the figure moves by exactly one, in the direction of the caption. */
  lemma {:induction false} ToggleMovesCount(subscribed: set<string>, id: string)
    ensures ButtonCaption(subscribed, id) == "Subscribe" ==>
              ActiveStrategies(Toggle(subscribed, id)) == ActiveStrategies(subscribed) + 1
    ensures ButtonCaption(subscribed, id) == "Unsubscribe" ==>
              ActiveStrategies(Toggle(subscribed, id)) == ActiveStrategies(subscribed) - 1
  {
  }

  /** The eight ids of the two lists are pairwise distinct, so each card toggles its own entry. */
  lemma {:induction false} StrategyIdsDistinct()
    ensures var all := CryptoStrategies + QuantStrategies;
            |all| == 8 && forall i, j :: 0 <= i < j < |all| ==> all[i].id != all[j].id
  {
  }

  class StrategiesPage {
    var subscribedStrategies: set<string>

    constructor ()
      ensures subscribedStrategies == {}
    {
      subscribedStrategies := {};
    }

    /** `handleSubscribe`: copy, then delete or add in place, then store the copy. */
    method HandleSubscribe(id: string)
      modifies this
      ensures subscribedStrategies == Toggle(old(subscribedStrategies), id)
    {
      var newSet := subscribedStrategies;
      if id in newSet {
        newSet := newSet - {id};
      } else {
        newSet := newSet + {id};
      }
      subscribedStrategies := newSet;
    }
  }
}
