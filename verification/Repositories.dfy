/** The trip, offer and appeal tables as objects: conditional and bulk updates in place. */
module Repositories {
  import opened Wrappers
  import opened Ledger
  import Matching
  import Kin

  class TripRepository {
    var trips: map<Id, Matching.Trip>

    constructor ()
      ensures trips == map[]
    {
      trips := map[];
    }

    /** Updates the trip only if it still has the expected status, and says whether it did. */
    method CompareAndSwapStatus(trip: Id, expected: Matching.TripStatus, update: Matching.Trip -> Matching.Trip)
      returns (ok: bool)
      modifies this
      ensures ok <==> trip in old(trips) && old(trips)[trip].status == expected
      ensures trips == if ok then old(trips)[trip := update(old(trips)[trip])] else old(trips)
    {
      ok := trip in trips && trips[trip].status == expected;
      if ok {
        trips := trips[trip := update(trips[trip])];
      }
    }

    method FindActiveByPassenger(passenger: Id) returns (found: Option<Id>)
      ensures found.Some? <==> Matching.HasActiveTrip(trips, passenger)
      ensures found.Some? ==>
        found.value in trips && trips[found.value].passenger == passenger && Matching.Active(trips[found.value])
    {
      var rest := trips.Keys;
      while rest != {}
        invariant rest <= trips.Keys
        invariant forall t :: t in trips && t !in rest ==>
          !(trips[t].passenger == passenger && Matching.Active(trips[t]))
        decreases rest
      {
        var t :| t in rest;
        if trips[t].passenger == passenger && Matching.Active(trips[t]) {
          return Some(t);
        }
        rest := rest - {t};
      }
      return None;
    }

    method FindActiveByDriver(driver: Id) returns (found: Option<Id>)
      ensures found.Some? <==> Matching.IsDriving(trips, driver)
      ensures found.Some? ==> found.value in trips && Matching.Driving(trips[found.value], driver)
    {
      var rest := trips.Keys;
      while rest != {}
        invariant rest <= trips.Keys
        invariant forall t :: t in trips && t !in rest ==> !Matching.Driving(trips[t], driver)
        decreases rest
      {
        var t :| t in rest;
        if Matching.Driving(trips[t], driver) {
          return Some(t);
        }
        rest := rest - {t};
      }
      return None;
    }
  }

  class TripOfferRepository {
    var offers: map<Id, Matching.Offer>

    constructor ()
      ensures offers == map[]
    {
      offers := map[];
    }

    method CompareAndSwapStatus(offer: Id, expected: Matching.OfferStatus, new_: Matching.OfferStatus)
      returns (ok: bool)
      modifies this
      ensures ok <==> offer in old(offers) && old(offers)[offer].status == expected
      ensures offers == Matching.SwapOffer(old(offers), offer, expected, new_)
    {
      ok := offer in offers && offers[offer].status == expected;
      if ok {
        offers := offers[offer := offers[offer].(status := new_)];
      }
    }

    /** The bulk UPDATE behind SupersedeOtherPending and WithdrawAllPending, row by row. */
    method ClosePending(trip: Id, except: Option<Id>, new_: Matching.OfferStatus)
      modifies this
      ensures offers == Matching.ClosePending(old(offers), trip, except, new_)
    {
      var closed := Matching.ClosePending(offers, trip, except, new_);
      var rest := offers.Keys;
      while rest != {}
        invariant rest <= offers.Keys == old(offers).Keys
        invariant forall o :: o in offers ==> offers[o] == if o in rest then old(offers)[o] else closed[o]
        decreases rest
      {
        var o :| o in rest;
        if offers[o].trip == trip && offers[o].status.OfferPending? && except != Some(o) {
          offers := offers[o := offers[o].(status := new_)];
        }
        rest := rest - {o};
      }
    }

    method SupersedeOtherPending(trip: Id, accepted: Id)
      modifies this
      ensures offers == Matching.ClosePending(old(offers), trip, Some(accepted), Matching.OfferSuperseded)
    {
      ClosePending(trip, Some(accepted), Matching.OfferSuperseded);
    }

    method WithdrawAllPending(trip: Id)
      modifies this
      ensures offers == Matching.ClosePending(old(offers), trip, None, Matching.OfferWithdrawn)
    {
      ClosePending(trip, None, Matching.OfferWithdrawn);
    }
  }

  class KinRepository {
    var appeals: map<Id, Kin.Appeal>

    constructor ()
      ensures appeals == map[]
    {
      appeals := map[];
    }

    method TransitionAppeal(id: Id, from: set<Kin.AppealStatus>, update: Kin.Appeal -> Kin.Appeal) returns (ok: bool)
      modifies this
      ensures ok <==> id in old(appeals) && old(appeals)[id].status in from
      ensures appeals == Kin.Transition(old(appeals), id, from, update)
    {
      ok := id in appeals && appeals[id].status in from;
      if ok {
        appeals := appeals[id := update(appeals[id])];
      }
    }

    method CreateAppeal(id: Id, driver: Id, destination: Id)
      requires id !in appeals
      modifies this
      ensures appeals == old(appeals)[id := Kin.Appeal(driver, destination, Kin.Submitted, None, None, None, 0, None)]
    {
      appeals := appeals[id := Kin.Appeal(driver, destination, Kin.Submitted, None, None, None, 0, None)];
    }

    method ListOpenAppealsForDriver(driver: Id) returns (rows: set<Id>)
      ensures rows == Kin.OpenAppeals(appeals, driver)
    {
      rows := set id | id in appeals && appeals[id].driver == driver && appeals[id].status in Kin.OPEN;
    }

    /** At most `limit` approved appeals whose cooling-off time is over. */
    method DueAppeals(now: int, limit: nat) returns (rows: seq<Id>)
      ensures |rows| <= limit
      ensures |rows| < limit ==> forall id :: id in appeals && Kin.DueNow(appeals[id], now) ==> id in rows
      ensures forall i :: 0 <= i < |rows| ==> rows[i] in appeals && Kin.DueNow(appeals[rows[i]], now)
      ensures forall id :: id in appeals ==>
        (Kin.DueNow(appeals[id], now) <==> appeals[id].status == Kin.AppealStatus.Approved
                                           && appeals[id].disbursableAfter.Some?
                                           && appeals[id].disbursableAfter.value <= now)
      ensures forall i, j :: 0 <= i < j < |rows| ==> rows[i] != rows[j]
    {
      rows := [];
      var rest := appeals.Keys;
      while rest != {} && |rows| < limit
        invariant |rows| <= limit && rest <= appeals.Keys
        invariant forall id :: id in appeals && Kin.DueNow(appeals[id], now) ==> id in rest || id in rows
        invariant forall i :: 0 <= i < |rows| ==>
          rows[i] in appeals && rows[i] !in rest && Kin.DueNow(appeals[rows[i]], now)
        invariant forall i, j :: 0 <= i < j < |rows| ==> rows[i] != rows[j]
        decreases rest
      {
        var id :| id in rest;
        if Kin.DueNow(appeals[id], now) {
          rows := rows + [id];
        }
        rest := rest - {id};
      }
    }
  }
}
