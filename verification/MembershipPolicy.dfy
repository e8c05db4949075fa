/** Provider plans: access, prices and upgrade quotes. Amounts are centavos. */
module MembershipPolicy {
  import opened BookingRows

  datatype Plan = Free | Basic | Pro

  function Price(p: Plan): nat { match p case Free => 0 case Basic => 9900 case Pro => 19900 }

  /** The most listings a plan may show; Pro has no limit. */
  function Limit(p: Plan): Option<nat> { match p case Free => Some(1) case Basic => Some(3) case Pro => None }

  datatype MemberStatus = Active | CancelledAtEnd | Lapsed

  datatype Membership = Membership(plan: Plan, status: MemberStatus, starts: Option<int>, expires: Option<int>,
                                   freeStarts: Option<int>, freeExpires: Option<int>, updated: int)

  predicate Within(starts: Option<int>, expires: Option<int>, now: int) {
    starts.Some? && expires.Some? && starts.value <= now < expires.value
  }

  /** subscriptionBenefits' marketplaceAccess */
  predicate Access(m: Membership, now: int) {
    if m.plan == Free then Within(m.freeStarts, m.freeExpires, now)
    else m.status != Lapsed && Within(m.starts, m.expires, now)
  }

  datatype Action = NewPlan | Renewal | Upgrade | Downgrade

  datatype Quote = Quote(plan: Plan, amount: nat, action: Action, period: Option<int>, updated: int)

  /** The unused share of the price difference, rounded half up to a centavo. */
  function UpgradePrice(remaining: int, duration: int): int
    requires duration > 0
  {
    (2 * (Price(Pro) - Price(Basic)) * remaining + duration) / (2 * duration)
  }

  /** membershipQuote; None is a refusal. */
  function Quoted(m: Membership, target: Plan, now: int): Option<Quote> {
    if Access(m, now) && (m.plan == target || (m.plan == Pro && target == Basic)) then None
    else if Access(m, now) && m.plan == Basic && target == Pro then
      var amount := UpgradePrice(m.expires.value - now, m.expires.value - m.starts.value);
      if amount < 100 then None else Some(Quote(Pro, amount, Upgrade, m.expires, m.updated))
    else Some(Quote(target, Price(target),
                    if m.plan == target then Renewal else if m.plan == Pro
                        && target == Basic then Downgrade else NewPlan, None, m.updated))
  }

  // ---------------------------------------------------------- price bounds

  /** a * b with a factor replaced by a larger one. */
  lemma TimesMonotone(a: int, b: int, c: int)
    requires 0 <= a && b <= c
    ensures a * b <= a * c
  {
  }

  lemma RoundedShare(part: int, whole: int, price: int)
    requires whole > 0 && 0 <= part <= whole && price >= 0
    ensures var r := (2 * price * part + whole) / (2 * whole);
            && 2 * r * whole <= 2 * price * part + whole
            && 2 * price * part < 2 * r * whole + whole
            && 0 <= r <= price
  {
    var x := 2 * price * part + whole;
    var r := x / (2 * whole);
    assert x == r * (2 * whole) + x % (2 * whole);
    assert r * (2 * whole) == 2 * r * whole;
    TimesMonotone(2 * price, part, whole);
    if r > price {
      TimesMonotone(2 * whole, price + 1, r);
      assert false;
    }
    if r < 0 {
      TimesMonotone(2 * whole, r, -1);
      assert false;
    }
  }

  /** The quote is the exact share of the difference, off by at most half a centavo. */
  lemma UpgradePriceIsTheShare(remaining: int, duration: int)
    requires duration > 0 && 0 <= remaining <= duration
    ensures var r := UpgradePrice(remaining, duration);
            && 2 * r * duration <= 2 * 10000 * remaining + duration
            && 2 * 10000 * remaining < 2 * r * duration + duration
            && 0 <= r <= 10000
  {
    RoundedShare(remaining, duration, 10000);
  }

  /** A Basic month plus any upgrade within it never costs more than a Pro month. */
  lemma UpgradeNeverCostsMore(m: Membership, now: int)
    requires Quoted(m, Pro, now).Some? && Quoted(m, Pro, now).value.action == Upgrade
    ensures 100 <= Quoted(m, Pro, now).value.amount && 9900 + Quoted(m, Pro, now).value.amount <= 19900
  {
    UpgradePriceIsTheShare(m.expires.value - now, m.expires.value - m.starts.value);
  }

  /** Waiting never makes the upgrade dearer. */
  lemma UpgradeGetsCheaper(a: int, b: int, duration: int)
    requires duration > 0 && 0 <= a <= b <= duration
    ensures UpgradePrice(a, duration) <= UpgradePrice(b, duration)
  {
    UpgradePriceIsTheShare(a, duration);
    UpgradePriceIsTheShare(b, duration);
    var x, y := UpgradePrice(a, duration), UpgradePrice(b, duration);
    if y < x {
      TimesMonotone(2 * duration, y + 1, x);
      assert false;
    }
  }
}
