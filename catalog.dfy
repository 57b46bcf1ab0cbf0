/**
 * The static plan catalogue: an ordered table from plan id to plan. The
 * configuration module that holds it is not part of this model; only the
 * fields the order flow and the store read are kept (price and currency only
 * reach the payment gateway, which is an oracle here).
 */
module Catalog {

  import opened Wrappers

  datatype Plan = Plan(id: string, name: string, durationDays: int)

  /** The ids of a catalogue. */
  function Ids(plans: seq<Plan>): set<string>
  {
    set p | p in plans :: p.id
  }

  /** Plan ids are dictionary keys, so no id occurs twice. */
  predicate DistinctIds(plans: seq<Plan>)
  {
    forall i, j :: 0 <= i < j < |plans| ==> plans[i].id != plans[j].id
  }

  /** The plan stored under an id, `None` where indexing the dictionary raises a key error. */
  function Find(plans: seq<Plan>, id: string): (r: Option<Plan>)
    ensures r.Some? ==> r.value in plans && r.value.id == id
    ensures r.None? <==> id !in Ids(plans)
  {
    if |plans| == 0 then None
    else if plans[0].id == id then Some(plans[0])
    else
      var r := Find(plans[1..], id);
      assert Ids(plans) == {plans[0].id} + Ids(plans[1..]) by {
        assert plans == [plans[0]] + plans[1..];
      }
      r
  }

  /** With distinct ids, looking up the id of an entry yields that very entry. */
  lemma {:induction false} FindEntry(plans: seq<Plan>, k: int)
    requires DistinctIds(plans)
    requires 0 <= k < |plans|
    ensures Find(plans, plans[k].id) == Some(plans[k])
  {
    if k > 0 {
      assert plans[0].id != plans[k].id;
      assert plans[1..][k - 1] == plans[k];
      FindEntry(plans[1..], k - 1);
    }
  }

}
