/** Plan prices, upgrade charges and the start of the billing cycle. Amounts are whole cents. */
module Pricing {
  import opened Outcomes

  datatype Plan = Student | Pro | Enterprise | Unlimited

  datatype Quota = Quota(vms: int, cpu: int, ram: int, disk: int)

  datatype Config = Config(rank: int, price: int, quota: Quota)

  datatype Catalog = Catalog(student: Config, pro: Config, enterprise: Config, unlimited: Config)

  function Of(cat: Catalog, p: Plan): Config {
    match p
    case Student => cat.student
    case Pro => cat.pro
    case Enterprise => cat.enterprise
    case Unlimited => cat.unlimited
  }

  function Rank(cat: Catalog, p: Option<Plan>): int {
    match p
    case None => 0
    case Some(Unlimited) => 99
    case Some(q) => Of(cat, q).rank
  }

  predicate Fits(q: Quota, c: Config) { q.vms >= c.quota.vms && q.cpu >= c.quota.cpu }

  /** `resolvePlanFromQuota` */
  function Resolve(cat: Catalog, quota: Option<Quota>): Option<Plan> {
    if quota.None? then None
    else
      var q := quota.value;
      if q.vms >= cat.unlimited.quota.vms || q.cpu >= cat.unlimited.quota.cpu then Some(Unlimited)
      else if Fits(q, cat.enterprise) then Some(Enterprise)
      else if Fits(q, cat.pro) then Some(Pro)
      else if Fits(q, cat.student) then Some(Student)
      else None
  }

  // ---------------------------------------------------------------- plans from quotas

  function Position(p: Plan): nat {
    match p case Student => 0 case Pro => 1 case Enterprise => 2 case Unlimited => 3
  }

  /** The quota `p` gives is taken for that of `higher`. */
  predicate TakenFor(cat: Catalog, p: Plan, higher: Plan) {
    if higher == Unlimited then
      Of(cat, p).quota.vms >= cat.unlimited.quota.vms || Of(cat, p).quota.cpu >= cat.unlimited.quota.cpu
    else Fits(Of(cat, p).quota, Of(cat, higher))
  }

  /** A plan is found again from the quota it gives exactly when no higher plan's quota fits into it. */
  lemma {:induction false} ResolveRoundTrip(cat: Catalog, p: Plan)
    ensures Resolve(cat, Some(Of(cat, p).quota)) == Some(p)
       <==> forall higher :: Position(p) < Position(higher) ==> !TakenFor(cat, p, higher)
  {
    assert TakenFor(cat, p, Unlimited) || TakenFor(cat, p, Enterprise) || TakenFor(cat, p, Pro) || TakenFor(cat, p, Student);
  }

  /** Any quota: the highest plan it is enough for, where either amount alone makes it unlimited. */
  lemma {:induction false} ResolveMeans(cat: Catalog, q: Quota)
    ensures var r := Resolve(cat, Some(q));
            var unlimited := q.vms >= cat.unlimited.quota.vms || q.cpu >= cat.unlimited.quota.cpu;
            var enterprise := q.vms >= cat.enterprise.quota.vms && q.cpu >= cat.enterprise.quota.cpu;
            var pro := q.vms >= cat.pro.quota.vms && q.cpu >= cat.pro.quota.cpu;
            var student := q.vms >= cat.student.quota.vms && q.cpu >= cat.student.quota.cpu;
            && (r == Some(Unlimited) <==> unlimited)
            && (r == Some(Enterprise) <==> !unlimited && enterprise)
            && (r == Some(Pro) <==> !unlimited && !enterprise && pro)
            && (r == Some(Student) <==> !unlimited && !enterprise && !pro && student)
            && (r == None <==> !unlimited && !enterprise && !pro && !student)
            && Resolve(cat, None) == None
  {}

  // ---------------------------------------------------------------- buying

  datatype Payment = Payment(plan: Option<Plan>, amount: int, createdAt: int)

  /** `payments` holds the paid rows, newest first. */
  datatype Account = Account(quota: Option<Quota>, payments: seq<Payment>)

  datatype Purchase = Purchase(plan: Plan, renewalOpen: bool, now: int)

  predicate IsUpgrade(cat: Catalog, current: Option<Plan>, p: Plan) {
    current.Some? && current != Some(Unlimited) && Rank(cat, Some(p)) > Rank(cat, current)
  }

  /** `enforcePlanPurchaseRules`; the unlimited plan is not for sale. */
  predicate MayBuy(cat: Catalog, current: Option<Plan>, p: Purchase) {
    p.plan != Unlimited && current != Some(Unlimited) &&
    (current.None? || Rank(cat, Some(p.plan)) > Rank(cat, current) || p.renewalOpen)
  }

  function Charge(cat: Catalog, current: Option<Plan>, p: Plan): int {
    if !IsUpgrade(cat, current, p) then Of(cat, p).price
    else
      var difference := Of(cat, p).price - Of(cat, current.value).price;
      if difference < 0 then 0 else difference
  }

  /** A purchase, paid and activated before the next. */
  function Buy(cat: Catalog, a: Account, p: Purchase): Account {
    var current := Resolve(cat, a.quota);
    if !MayBuy(cat, current, p) then a
    else Account(Some(Of(cat, p.plan).quota), [Payment(Some(p.plan), Charge(cat, current, p.plan), p.now)] + a.payments)
  }

  /**
    What a purchase does, by ranks and prices: it is refused to an unlimited account, and to one that has a
    plan of the same or a higher rank while renewal is closed; a higher rank costs the difference, if
    positive, and anything else the full price; and the quota becomes that of the plan.
  */
  lemma {:induction false} BuyMeans(cat: Catalog, a: Account, p: Purchase)
    requires p.plan != Unlimited
    ensures var a', current := Buy(cat, a, p), Resolve(cat, a.quota);
            var plan := Of(cat, p.plan);
            if current == Some(Unlimited) then a' == a
            else if current.None? then a' == Account(Some(plan.quota), [Payment(Some(p.plan), plan.price, p.now)] + a.payments)
            else
              var held := Of(cat, current.value);
              if plan.rank <= held.rank && !p.renewalOpen then a' == a
              else
                var amount := if plan.rank <= held.rank then plan.price else if plan.price < held.price then 0 else plan.price - held.price;
                a' == Account(Some(plan.quota), [Payment(Some(p.plan), amount, p.now)] + a.payments)
  {}

  const NewAccount := Account(None, [])

  function After(cat: Catalog, run: seq<Purchase>): Account {
    if run == [] then NewAccount else Buy(cat, After(cat, run[..|run| - 1]), run[|run| - 1])
  }

  function Total(ps: seq<Payment>): int {
    if ps == [] then 0 else ps[0].amount + Total(ps[1..])
  }

  // ---------------------------------------------------------------- the reference: chains of upgrades

  /** A full-price purchase and the plan last reached by upgrades from it. */
  datatype Chain = Chain(start: int, reached: Plan, upgrades: nat)

  /** The plan last reached. */
  function Current(chains: seq<Chain>): Option<Plan> { if chains == [] then None else Some(chains[0].reached) }

  /** One more purchase: it extends the newest chain or starts one. */
  function Next(cat: Catalog, chains: seq<Chain>, p: Purchase): seq<Chain> {
    var current := Current(chains);
    if !MayBuy(cat, current, p) then chains
    else if IsUpgrade(cat, current, p.plan) then
      [chains[0].(reached := p.plan, upgrades := chains[0].upgrades + 1)] + chains[1..]
    else [Chain(p.now, p.plan, 0)] + chains
  }

  /** The chains of a run, newest first. */
  function Chains(cat: Catalog, run: seq<Purchase>): seq<Chain> {
    if run == [] then [] else Next(cat, Chains(cat, run[..|run| - 1]), run[|run| - 1])
  }

  function Worth(cat: Catalog, chains: seq<Chain>): int {
    if chains == [] then 0 else Of(cat, chains[0].reached).price + Worth(cat, chains[1..])
  }

  /** Positive prices that do not fall with rank. */
  ghost predicate Priced(cat: Catalog) {
    && (forall p :: p != Unlimited ==> Of(cat, p).price > 0)
    && (forall p, q :: p != Unlimited && q != Unlimited && Of(cat, p).rank < Of(cat, q).rank ==> Of(cat, p).price <= Of(cat, q).price)
  }

  /** A user taken to be on `q` is treated and charged as one on `p`. */
  predicate Interchangeable(cat: Catalog, p: Plan, q: Plan) {
    && q != Unlimited && Of(cat, p).rank == Of(cat, q).rank
    && (Of(cat, p).price == Of(cat, q).price || forall r :: r != Unlimited ==> Of(cat, r).rank <= Of(cat, p).rank)
  }

  /** Every plan on sale is found again from its quota, or mistaken for one that makes no difference. */
  predicate PlansTold(cat: Catalog) {
    forall p :: p != Unlimited ==>
      var q := Resolve(cat, Some(Of(cat, p).quota)); q == Some(p) || (q.Some? && Interchangeable(cat, p, q.value))
  }

  // ---------------------------------------------------------------- the billing cycle

  predicate IsFullPrice(cat: Catalog, p: Payment) {
    && p.plan.Some?
    && (p.plan == Some(Unlimited) || p.amount >= Of(cat, p.plan.value).price - 1)
  }

  const TAKE := 20

  function Newest(ps: seq<Payment>): seq<Payment> { if |ps| > TAKE then ps[..TAKE] else ps }

  /** The position of the newest full-price payment. */
  function FirstFull(cat: Catalog, ps: seq<Payment>): (r: Option<nat>)
    ensures r.Some? ==> r.value < |ps| && IsFullPrice(cat, ps[r.value])
    ensures forall j :: 0 <= j < (if r.Some? then r.value else |ps|) ==> !IsFullPrice(cat, ps[j])
  {
    if ps == [] then None
    else if IsFullPrice(cat, ps[0]) then Some(0)
    else
      var rest := FirstFull(cat, ps[1..]);
      if rest.Some? then Some(rest.value + 1) else None
  }

  /** `getLatestBillingCycleStart` */
  function CycleStart(cat: Catalog, ps: seq<Payment>): Option<int> {
    var taken := Newest(ps);
    if taken == [] then None
    else
      var full := FirstFull(cat, taken);
      Some(taken[if full.Some? then full.value else 0].createdAt)
  }

  /** The row counts as paid in full: unlimited, or at most one cent below the price of its plan. */
  predicate PaidInFull(cat: Catalog, p: Payment) {
    match p.plan
    case None => false
    case Some(Unlimited) => true
    case Some(Student) => p.amount + 1 >= cat.student.price
    case Some(Pro) => p.amount + 1 >= cat.pro.price
    case Some(Enterprise) => p.amount + 1 >= cat.enterprise.price
  }

  /** The cycle starts at the newest full payment among the 20 newest rows, at the newest row if there is none, and not at all without rows. */
  lemma {:induction false} CycleStartMeans(cat: Catalog, ps: seq<Payment>, k: nat)
    ensures CycleStart(cat, ps).None? <==> ps == []
    ensures k < |ps| && k < 20 && PaidInFull(cat, ps[k]) && (forall j :: 0 <= j < k ==> !PaidInFull(cat, ps[j])) ==>
              CycleStart(cat, ps) == Some(ps[k].createdAt)
    ensures ps != [] && (forall j :: 0 <= j < |ps| && j < 20 ==> !PaidInFull(cat, ps[j])) ==>
              CycleStart(cat, ps) == Some(ps[0].createdAt)
  {
    var taken := Newest(ps);
    var full := FirstFull(cat, taken);
    forall j | 0 <= j < |taken| ensures taken[j] == ps[j] && IsFullPrice(cat, taken[j]) == PaidInFull(cat, ps[j]) {}
    if k < |ps| && k < 20 && PaidInFull(cat, ps[k]) && forall j :: 0 <= j < k ==> !PaidInFull(cat, ps[j]) {
      assert full.Some? && full.value == k;
    }
  }

  lemma {:induction false} FirstFullTaken(cat: Catalog, ps: seq<Payment>, k: nat)
    requires FirstFull(cat, ps) == Some(k)
    ensures FirstFull(cat, Newest(ps)) == if k < TAKE then Some(k) else None
  {
    var full := FirstFull(cat, Newest(ps));
    if k < TAKE {
      assert Newest(ps)[k] == ps[k];
    }
    if full.Some? {
      assert Newest(ps)[full.value] == ps[full.value];
    }
  }

  /** A later payment below full price moves the cycle start exactly when 20 rows are then newer than the full-price one. */
  lemma {:induction false} PartialPaymentKeepsStart(cat: Catalog, ps: seq<Payment>, p: Payment, k: nat)
    requires !IsFullPrice(cat, p) && FirstFull(cat, ps) == Some(k) && k < TAKE && ps[k].createdAt != p.createdAt
    ensures CycleStart(cat, ps) == Some(ps[k].createdAt)
    ensures CycleStart(cat, [p] + ps) == CycleStart(cat, ps) <==> k + 1 < TAKE
  {
    var more := [p] + ps;
    assert more[1..] == ps && more[k + 1] == ps[k];
    FirstFullTaken(cat, ps, k);
    FirstFullTaken(cat, more, k + 1);
  }

  // ---------------------------------------------------------------- runs

  /** How many plans rank below: a chain of upgrades is no longer than that. */
  function Below(cat: Catalog, p: Plan): nat {
    (if cat.student.rank < Of(cat, p).rank then 1 else 0) +
    (if cat.pro.rank < Of(cat, p).rank then 1 else 0) +
    (if cat.enterprise.rank < Of(cat, p).rank then 1 else 0)
  }

  // ---------------------------------------------------------------- the total

  /** The quota is that of the plan last reached, and the payments add up to the chains. */
  ghost predicate Agrees(cat: Catalog, a: Account, chains: seq<Chain>) {
    && Total(a.payments) == Worth(cat, chains)
    && (chains == [] ==> a == NewAccount)
    && (chains != [] ==> chains[0].reached != Unlimited && a.quota == Some(Of(cat, chains[0].reached).quota))
  }

  /** What the service takes for the current plan decides and charges as the plan that was bought. */
  lemma {:induction false} SameTreatment(cat: Catalog, a: Account, chains: seq<Chain>, p: Purchase)
    requires Priced(cat) && PlansTold(cat) && Agrees(cat, a, chains)
    ensures var taken := Resolve(cat, a.quota);
            && MayBuy(cat, taken, p) == MayBuy(cat, Current(chains), p)
            && (MayBuy(cat, taken, p) ==>
                  && IsUpgrade(cat, taken, p.plan) == IsUpgrade(cat, Current(chains), p.plan)
                  && Charge(cat, taken, p.plan) == Charge(cat, Current(chains), p.plan))
  {
    if chains != [] {
      var bought := chains[0].reached;
      var q := Resolve(cat, Some(Of(cat, bought).quota));
      assert q == Some(bought) || (q.Some? && Interchangeable(cat, bought, q.value));
    }
  }

  /** An upgrade is charged the difference. */
  lemma {:induction false} UpgradeCharge(cat: Catalog, current: Plan, p: Plan)
    requires Priced(cat) && p != Unlimited && IsUpgrade(cat, Some(current), p)
    ensures Charge(cat, Some(current), p) == Of(cat, p).price - Of(cat, current).price
  {
    assert Of(cat, current).rank < Of(cat, p).rank;
  }

  lemma {:induction false} BuyAgrees(cat: Catalog, a: Account, chains: seq<Chain>, p: Purchase)
    requires Priced(cat) && PlansTold(cat) && Agrees(cat, a, chains)
    ensures Agrees(cat, Buy(cat, a, p), Next(cat, chains, p))
  {
    SameTreatment(cat, a, chains, p);
    var current := Current(chains);
    if MayBuy(cat, current, p) {
      var pay := Payment(Some(p.plan), Charge(cat, current, p.plan), p.now);
      assert ([pay] + a.payments)[1..] == a.payments;
      if IsUpgrade(cat, current, p.plan) {
        UpgradeCharge(cat, chains[0].reached, p.plan);
        var c := chains[0].(reached := p.plan, upgrades := chains[0].upgrades + 1);
        assert ([c] + chains[1..])[1..] == chains[1..];
      } else {
        assert ([Chain(p.now, p.plan, 0)] + chains)[1..] == chains;
      }
    }
  }

  lemma {:induction false} RunAgrees(cat: Catalog, run: seq<Purchase>)
    requires Priced(cat) && PlansTold(cat)
    ensures Agrees(cat, After(cat, run), Chains(cat, run))
  {
    if run != [] {
      RunAgrees(cat, run[..|run| - 1]);
      BuyAgrees(cat, After(cat, run[..|run| - 1]), Chains(cat, run[..|run| - 1]), run[|run| - 1]);
    }
  }

  /**
    Over every run of purchases the total charged is the sum, over the full-price purchases, of the
    price of the plan last reached by upgrades from each.
  */
  lemma {:induction false} TotalTelescopes(cat: Catalog, run: seq<Purchase>)
    requires Priced(cat) && PlansTold(cat)
    ensures Total(After(cat, run).payments) == Worth(cat, Chains(cat, run))
  {
    RunAgrees(cat, run);
  }

  // ---------------------------------------------------------------- mistaken plans

  lemma {:induction false} OnePurchase(cat: Catalog, p: Purchase)
    requires p.plan != Unlimited
    ensures After(cat, [p]) == Account(Some(Of(cat, p.plan).quota), [Payment(Some(p.plan), Of(cat, p.plan).price, p.now)])
    ensures Chains(cat, [p]) == [Chain(p.now, p.plan, 0)]
  {
    assert [p][..0] == [];
  }

  /** What a first purchase of `p` and a second one are charged, if the buyer is taken to be on `taken` in between. */
  function Charged(cat: Catalog, p: Plan, taken: Option<Plan>, second: Purchase): int {
    Of(cat, p).price + (if MayBuy(cat, taken, second) then Charge(cat, taken, second.plan) else 0)
  }

  /** What the two are worth. */
  function Due(cat: Catalog, p: Plan, second: Purchase): int {
    if !MayBuy(cat, Some(p), second) then Of(cat, p).price
    else if IsUpgrade(cat, Some(p), second.plan) then Of(cat, second.plan).price
    else Of(cat, p).price + Of(cat, second.plan).price
  }

  lemma {:induction false} TwoPurchases(cat: Catalog, p: Purchase, second: Purchase)
    requires p.plan != Unlimited
    ensures Total(After(cat, [p, second]).payments) == Charged(cat, p.plan, Resolve(cat, Some(Of(cat, p.plan).quota)), second)
    ensures Worth(cat, Chains(cat, [p, second])) == Due(cat, p.plan, second)
  {
    assert [p, second][..1] == [p];
    OnePurchase(cat, p);
    var a, chains := After(cat, [p]), Chains(cat, [p]);
    var taken := Resolve(cat, a.quota);
    var pay := Payment(Some(second.plan), Charge(cat, taken, second.plan), second.now);
    assert a.payments[1..] == [] && ([pay] + a.payments)[1..] == a.payments;
    assert Total(a.payments) == Of(cat, p.plan).price;
    assert chains[1..] == [] && Worth(cat, chains) == Of(cat, p.plan).price;
    var c := chains[0].(reached := second.plan, upgrades := 1);
    assert [c] + chains[1..] == [c] && [c][1..] == [];
    assert ([Chain(second.now, second.plan, 0)] + chains)[1..] == chains;
  }

  /** A plan of higher rank, if there is one. */
  function Higher(cat: Catalog, p: Plan): Plan {
    if cat.student.rank > Of(cat, p).rank then Student else if cat.pro.rank > Of(cat, p).rank then Pro else Enterprise
  }

  /** The second purchase that brings it to light that a buyer of `p` is taken to be on `q`. */
  function Revealing(cat: Catalog, p: Plan, q: Plan): Purchase {
    if q == Unlimited then Purchase(p, true, 1)
    else if Of(cat, p).rank < Of(cat, q).rank then Purchase(q, true, 1)
    else if Of(cat, q).rank < Of(cat, p).rank then Purchase(p, true, 1)
    else Purchase(Higher(cat, p), true, 1)
  }

  lemma {:induction false} TakenForRanked(cat: Catalog, p: Plan, q: Plan)
    requires Priced(cat) && p != Unlimited && q != p && (q == Unlimited || Of(cat, p).rank != Of(cat, q).rank)
    ensures Charged(cat, p, Some(q), Revealing(cat, p, q)) != Due(cat, p, Revealing(cat, p, q))
  {}

  lemma {:induction false} TakenForPriced(cat: Catalog, p: Plan, q: Plan)
    requires Priced(cat) && p != Unlimited && q != Unlimited && Of(cat, p).rank == Of(cat, q).rank && !Interchangeable(cat, p, q)
    ensures Charged(cat, p, Some(q), Revealing(cat, p, q)) != Due(cat, p, Revealing(cat, p, q))
  {
    var r :| r != Unlimited && Of(cat, r).rank > Of(cat, p).rank;
    var h := Higher(cat, p);
    assert Of(cat, h).rank > Of(cat, p).rank;
    UpgradeCharge(cat, q, h);
  }

  /**
    The condition is exact: a catalog in which some plan is mistaken for another that makes a
    difference has a run of two purchases whose total is wrong.
  */
  lemma {:induction false} MistakenPlanMiscounts(cat: Catalog) returns (run: seq<Purchase>)
    requires Priced(cat) && !PlansTold(cat)
    ensures Total(After(cat, run).payments) != Worth(cat, Chains(cat, run))
  {
    var p, q := Mistaken(cat);
    run := [Purchase(p, true, 0), Revealing(cat, p, q)];
    TwoPurchases(cat, Purchase(p, true, 0), Revealing(cat, p, q));
    if q == Unlimited || Of(cat, p).rank != Of(cat, q).rank {
      TakenForRanked(cat, p, q);
    } else {
      TakenForPriced(cat, p, q);
    }
  }

  lemma {:induction false} Mistaken(cat: Catalog) returns (p: Plan, q: Plan)
    requires !PlansTold(cat)
    ensures p != Unlimited && q != p && Resolve(cat, Some(Of(cat, p).quota)) == Some(q) && !Interchangeable(cat, p, q)
  {
    p :| p != Unlimited &&
      var q := Resolve(cat, Some(Of(cat, p).quota)); q != Some(p) && (q.None? || !Interchangeable(cat, p, q.value));
    assert Fits(Of(cat, p).quota, Of(cat, p));
    q := Resolve(cat, Some(Of(cat, p).quota)).value;
  }

  /** Student and Pro with the same VMs and CPUs. */
  const Overlapping := Catalog(Config(1, 1000, Quota(4, 4, 4096, 40)), Config(2, 2000, Quota(4, 4, 8192, 80)),
                               Config(3, 5000, Quota(16, 16, 65536, 640)), Config(99, 0, Quota(999, 999, 999_999, 9999)))

  /** A Student who upgrades to Enterprise pays as one who comes from Pro: 40 in all for a plan of 50. */
  lemma {:induction false} StudentTakenForPro()
    ensures Resolve(Overlapping, Some(Overlapping.student.quota)) == Some(Pro)
    ensures var run := [Purchase(Student, false, 0), Purchase(Enterprise, false, 1)];
            Total(After(Overlapping, run).payments) == 4000 && Worth(Overlapping, Chains(Overlapping, run)) == 5000
  {
    TwoPurchases(Overlapping, Purchase(Student, false, 0), Purchase(Enterprise, false, 1));
    assert Of(Overlapping, Student).quota == Overlapping.student.quota;
  }

  // ---------------------------------------------------------------- the start of the cycle

  ghost predicate AtLeastTwoCents(cat: Catalog) { forall p :: p != Unlimited ==> Of(cat, p).price >= 2 }

  /** The newest full-price payment is the newest chain's start, behind its upgrades. */
  ghost predicate StartsAt(cat: Catalog, ps: seq<Payment>, chains: seq<Chain>) {
    && (chains == [] ==> ps == [])
    && (chains != [] ==>
          && chains[0].upgrades <= Below(cat, chains[0].reached)
          && FirstFull(cat, ps) == Some(chains[0].upgrades)
          && ps[chains[0].upgrades].createdAt == chains[0].start)
  }

  /** Two cents are what it takes: an upgrade counts as a full payment exactly if the plan left behind costs at most one. */
  lemma {:induction false} UpgradeLooksFull(cat: Catalog, current: Plan, p: Plan, now: int)
    requires p != Unlimited && IsUpgrade(cat, Some(current), p) && 0 <= Of(cat, current).price <= Of(cat, p).price
    ensures IsFullPrice(cat, Payment(Some(p), Charge(cat, Some(current), p), now)) <==> Of(cat, current).price <= 1
  {}

  lemma {:induction false} BuyStartsAt(cat: Catalog, a: Account, chains: seq<Chain>, p: Purchase)
    requires Priced(cat) && PlansTold(cat) && AtLeastTwoCents(cat) && Agrees(cat, a, chains) && StartsAt(cat, a.payments, chains)
    ensures StartsAt(cat, Buy(cat, a, p).payments, Next(cat, chains, p))
  {
    SameTreatment(cat, a, chains, p);
    var current := Current(chains);
    if MayBuy(cat, current, p) {
      var pay := Payment(Some(p.plan), Charge(cat, current, p.plan), p.now);
      assert ([pay] + a.payments)[1..] == a.payments;
      if IsUpgrade(cat, current, p.plan) {
        UpgradeCharge(cat, chains[0].reached, p.plan);
        assert Of(cat, chains[0].reached).rank < Of(cat, p.plan).rank;
        assert !IsFullPrice(cat, pay);
      }
    }
  }

  predicate Increasing(run: seq<Purchase>) {
    forall i, j :: 0 <= i < j < |run| ==> run[i].now < run[j].now
  }

  predicate NewestFirst(ps: seq<Payment>) {
    forall i, j :: 0 <= i < j < |ps| ==> ps[i].createdAt > ps[j].createdAt
  }

  lemma {:induction false} PaymentsNewestFirst(cat: Catalog, run: seq<Purchase>)
    requires Increasing(run)
    ensures NewestFirst(After(cat, run).payments)
    ensures forall i :: 0 <= i < |After(cat, run).payments| ==> run != [] && After(cat, run).payments[i].createdAt <= run[|run| - 1].now
  {
    if run != [] { PaymentsNewestFirst(cat, run[..|run| - 1]); }
  }

  lemma {:induction false} RunStartsAt(cat: Catalog, run: seq<Purchase>)
    requires Priced(cat) && PlansTold(cat) && AtLeastTwoCents(cat)
    ensures StartsAt(cat, After(cat, run).payments, Chains(cat, run))
  {
    if run != [] {
      var before := run[..|run| - 1];
      RunStartsAt(cat, before);
      RunAgrees(cat, before);
      BuyStartsAt(cat, After(cat, before), Chains(cat, before), run[|run| - 1]);
    }
  }

  /**
    Over every run of purchases at increasing times the rows are in the order they are read in, newest
    first, and the billing cycle starts at the last full-price purchase: no upgrade ever moves it.
  */
  lemma {:induction false} CycleStartsAtFullPrice(cat: Catalog, run: seq<Purchase>)
    requires Priced(cat) && PlansTold(cat) && AtLeastTwoCents(cat) && Increasing(run)
    ensures NewestFirst(After(cat, run).payments)
    ensures CycleStart(cat, After(cat, run).payments) ==
            if Chains(cat, run) == [] then None else Some(Chains(cat, run)[0].start)
  {
    PaymentsNewestFirst(cat, run);
    RunStartsAt(cat, run);
    var chains := Chains(cat, run);
    if chains != [] {
      FirstFullTaken(cat, After(cat, run).payments, chains[0].upgrades);
    }
  }
}
