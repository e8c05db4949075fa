/** The membership services as imperative code on one provider's rows. */
module MembershipService {
  import opened BookingRows
  import opened MonthTable
  import opened MembershipPolicy
  import S = MembershipSteps

  class ProviderStore {
    var m: Membership
    var payments: map<Id, S.Payment>
    var quotes: set<(Quote, int)>
    var listings: map<Id, S.Listing>
    var applied: seq<Id>
    var starters: seq<Id>
    var clock: int

    ghost function View(): S.Provider
      reads this
    {
      S.Provider(m, payments, quotes, listings, applied, starters, clock)
    }

    constructor (now: int)
      ensures View() == S.Provider(Membership(Free, Active, None, None, None, None, now), map[], {}, map[], [], [], now)
    {
      m, payments, quotes := Membership(Free, Active, None, None, None, None, now), map[], {};
      listings, applied, starters, clock := map[], [], [], now;
    }

    /** ensureProviderTrial */
    method EnsureTrial()
      modifies this`m
      ensures View() == S.StartTrial(old(View()))
    {
      if m.freeStarts.None? {
        m := m.(freeStarts := Some(clock), freeExpires := Some(clock + 30 * DAY_MS), updated := clock);
      }
    }

    /** startSubscriptionCheckout's transaction */
    method Checkout(id: Id, plan: Plan, signed: Option<(Quote, int)>) returns (ok: bool)
      modifies this`payments
      ensures Commits(S.Checkout(old(View()), id, plan, signed), old(View()), View(), ok)
    {
      if plan == Free || id in payments || m.freeStarts.None? {
        return false;
      }
      if signed.Some? && (signed.value !in quotes || signed.value.0.plan != plan || signed.value.1 <= clock) {
        return false;
      }
      var quote := Quoted(m, plan, clock);
      if quote.None? || (signed.Some? && signed.value.0.updated != m.updated) {
        return false;
      }
      if exists i | i in payments :: payments[i].status == S.PayPending && payments[i].plan != plan {
        return false;
      }
      if exists i | i in payments :: payments[i].Ready(clock) {
        return true;
      }
      if exists i | i in payments :: payments[i].BeingPrepared(clock) {
        return false;
      }
      if S.SomePending(payments) {
        payments := S.TakenUp(payments, clock);
      } else {
        payments := payments[id :=
            S.NewPayment(quote.value, if signed.Some? then Some(signed.value.0) else None, clock)];
      }
      return true;
    }

    /** finalizeSubscriptionPayment; `order` is its query of active services, oldest first. */
    method FinalizePayment(id: Id, accountOk: bool, order: seq<Id>) returns (ok: bool)
      modifies this`m, this`payments, this`listings, this`applied, this`starters
      ensures Commits(S.FinalizePayment(old(View()), id, accountOk, order), old(View()), View(), ok)
    {
      if id !in payments {
        return false;
      }
      var pay := payments[id];
      if pay.status == S.PaySucceeded || pay.status == S.PayRefunded || pay.status == S.PayRefundRequired {
        return true;
      }
      var access := Access(m, clock);
      var upgrade := pay.action == Upgrade;
      var validUpgrade := access && m.plan == Basic && pay.plan == Pro && pay.quotedExpires == m.expires;
      if pay.status == S.PayCancelled || !accountOk || pay.quotedUpdated != m.updated
         || (if upgrade then !validUpgrade else access && m.plan != Free) {
        payments := payments[id := pay.(status := S.PayRefundRequired)];
        return true;
      }
      var startsAt, expiresAt := clock, S.EndOfMonth(clock);
      if upgrade {
        startsAt, expiresAt := m.starts.value, pay.quotedExpires.value;
      }
      Take(id, startsAt, expiresAt, order);
      return true;
    }

    method Take(id: Id, startsAt: int, expiresAt: int, order: seq<Id>)
      requires id in payments
      modifies this`m, this`payments, this`listings, this`applied, this`starters
      ensures View() == S.ApplyPayment(old(View()), id, (startsAt, expiresAt), order)
    {
      var pay := payments[id];
      if pay.plan == Basic && |order| > 3 {
        PauseAll(order[3..]);
      }
      m := m.(plan := pay.plan, status := Active, starts := Some(startsAt), expires := Some(expiresAt),
          updated := clock);
      payments := payments[id :=
          pay.(status := S.PaySucceeded, period := Some((startsAt, expiresAt)), claimed := None)];
      applied := applied + [id];
      if pay.action != Upgrade {
        starters := starters + [id];
      }
    }

    /** Hide the excess listings one by one. */
    method PauseAll(ids: seq<Id>)
      modifies this`listings
      ensures listings == S.Pause(old(listings), ids)
    {
      for k := 0 to |ids|
        invariant listings == S.Pause(old(listings), ids[..k])
      {
        if ids[k] in listings {
          listings := listings[ids[k] := listings[ids[k]].(status := S.Hidden, available := false)];
        }
        assert ids[..k + 1] == ids[..k] + [ids[k]];
      }
      assert ids[..|ids|] == ids;
    }

    /** toggleServiceAvailability */
    method ToggleListing(id: Id) returns (ok: bool)
      modifies this`m, this`listings
      ensures Commits(S.ToggleListing(old(View()), id), old(View()), View(), ok)
    {
      if id !in listings || (listings[id].status != S.Shown && listings[id].status != S.Hidden) {
        return false;
      }
      var l := listings[id];
      if l.status == S.Shown && l.available {
        listings := listings[id := l.(status := S.Hidden, available := false)];
        return true;
      }
      var m0 := m;
      EnsureTrial();
      var occupied := |S.ActiveIds(listings) - {id}|;
      if !Access(m, clock) || (Limit(m.plan).Some? && occupied >= Limit(m.plan).value) {
        m := m0;
        return false;
      }
      listings := listings[id :=
          l.(status := S.Shown, available := true, published := if l.published.Some? then l.published
          else Some(clock))];
      return true;
    }
  }
}
