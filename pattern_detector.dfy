/** The customer-pattern panel.

    This is a MOCK generator: it reads no transaction data at all. Every
    merchant and every "detected" upgrade candidate is fabricated from random
    draws, and the panel only reveals the fabricated list a few entries at a
    time to look like streaming detection. Here each random draw is a value the
    caller supplies, with its range as a precondition: the integer draws arrive
    already scaled and floored as the source does, while the three fractional
    draws of a candidate (weight, rank, percentile) arrive raw in [0, 1) and
    Fabricate scales them as the source does. The timed waits are replaced by a
    recorded timeline of the states the panel shows. */
module CustomerPatternDetector {
  import opened Decimal
  import opened StableSort

  datatype Customer = Customer(
    id: string,
    name: string,
    merchantId: string,
    merchantName: string,
    totalTransactions: int,
    avgWeight: real,
    percentileRank: real,
    weightPercentile: real,
    actionType: string)

  datatype MerchantStats = MerchantStats(
    id: string,
    name: string,
    totalTransactions: int,
    eligibleForUpgrade: bool,
    topCustomers: int,
    upgradesCandidates: int)

  const MerchantNames: seq<string> :=
    ["TechCorp Bank", "Global Finance", "Metro Credit", "Digital Pay", "Swift Banking"]

  /** A merchant is eligible when it has strictly more transactions than this. */
  const EligibilityThreshold: int := 50000

  /** The largest candidate count a fabricated merchant can get (5 + 14). */
  const MaxCandidates: nat := 19

  function Min(a: int, b: int): int {
    if a <= b then a else b
  }

  // ================================================================ generateMockData

  /** The three random draws made for one merchant, already scaled and floored:
      floor(random * 100000), floor(random * 500) and floor(random * 15). */
  datatype MerchantDraw = MerchantDraw(transactions: int, topCustomers: int, candidates: int)

  predicate ValidMerchantDraw(d: MerchantDraw) {
    0 <= d.transactions < 100000 && 0 <= d.topCustomers < 500 && 0 <= d.candidates < 15
  }

  function MerchantId(k: nat): string {
    "M" + NatToString(k + 1)
  }

  /** The merchants as first built from the name list: not yet eligible, no candidates. */
  function InitialMerchants(draws: seq<MerchantDraw>): seq<MerchantStats>
    requires |draws| == |MerchantNames|
  {
    seq(|MerchantNames|, k requires 0 <= k < |MerchantNames| =>
      MerchantStats(MerchantId(k), MerchantNames[k], draws[k].transactions + 30000,
                    false, draws[k].topCustomers + 100, 0))
  }

  /** The second pass over one merchant: decide eligibility and, only for an
      eligible merchant, draw its candidate count. */
  function Settle(m: MerchantStats, d: MerchantDraw): MerchantStats {
    var eligible := m.totalTransactions > EligibilityThreshold;
    if eligible then m.(eligibleForUpgrade := true, upgradesCandidates := d.candidates + 5)
    else m.(eligibleForUpgrade := false)
  }

  /** The list generateMockData returns. */
  function MockMerchants(draws: seq<MerchantDraw>): seq<MerchantStats>
    requires |draws| == |MerchantNames|
  {
    seq(|MerchantNames|, k requires 0 <= k < |MerchantNames| => Settle(InitialMerchants(draws)[k], draws[k]))
  }

  /** Builds the five merchants, then settles each one in place. */
  method GenerateMockData(draws: seq<MerchantDraw>) returns (ms: seq<MerchantStats>)
    requires |draws| == |MerchantNames|
    ensures ms == MockMerchants(draws)
  {
    var initial := InitialMerchants(draws);
    var mock := new MerchantStats[|initial|](k requires 0 <= k < |initial| => initial[k]);
    ghost var target := MockMerchants(draws);
    for k := 0 to mock.Length
      invariant forall j :: 0 <= j < k ==> mock[j] == target[j]
      invariant forall j :: k <= j < mock.Length ==> mock[j] == initial[j]
    {
      var merchant := mock[k];
      merchant := merchant.(eligibleForUpgrade := merchant.totalTransactions > EligibilityThreshold);
      if merchant.eligibleForUpgrade {
        merchant := merchant.(upgradesCandidates := draws[k].candidates + 5);
      }
      assert merchant == Settle(initial[k], draws[k]);
      mock[k] := merchant;
    }
    ms := mock[..];
    assert ms == target;
  }

  /** Distinct positions give distinct merchant ids. */
  lemma MerchantIdInjective(i: nat, j: nat)
    requires MerchantId(i) == MerchantId(j)
    ensures i == j
  {
    assert NatToString(i + 1) == MerchantId(i)[1..];
    assert NatToString(j + 1) == MerchantId(j)[1..];
    NatToStringInjective(i + 1, j + 1);
  }

  /** What generateMockData promises about the merchants it fabricates from valid draws. */
  lemma MockMerchantsFacts(draws: seq<MerchantDraw>)
    requires |draws| == |MerchantNames|
    requires forall k :: 0 <= k < |draws| ==> ValidMerchantDraw(draws[k])
    ensures var ms := MockMerchants(draws);
      && |ms| == 5
      && (forall k :: 0 <= k < 5 ==> ms[k].id == MerchantId(k) && ms[k].name == MerchantNames[k])
      && (forall k :: 0 <= k < 5 ==>
            30000 <= ms[k].totalTransactions <= 129999 && 100 <= ms[k].topCustomers <= 599)
      && (forall k :: 0 <= k < 5 ==> (ms[k].eligibleForUpgrade <==> ms[k].totalTransactions > 50000))
      && (forall k :: 0 <= k < 5 && !ms[k].eligibleForUpgrade ==> ms[k].upgradesCandidates == 0)
      && (forall k :: 0 <= k < 5 && ms[k].eligibleForUpgrade ==> 5 <= ms[k].upgradesCandidates <= 19)
      && (forall i, j :: 0 <= i < j < 5 ==> ms[i].id != ms[j].id)
      && (forall k :: 0 <= k < 5 ==> '_' !in ms[k].id)
  {
    var ms := MockMerchants(draws);
    forall i, j | 0 <= i < j < 5 ensures ms[i].id != ms[j].id {
      if ms[i].id == ms[j].id {
        MerchantIdInjective(i, j);
      }
    }
    forall k | 0 <= k < 5 ensures '_' !in ms[k].id {
      NatToStringAvoids(k + 1, '_');
    }
  }

  /** Draw lists of MaxCandidates entries are enough for every mock merchant. */
  lemma MockMerchantsHaveDraws(draws: seq<MerchantDraw>, dss: seq<seq<CandidateDraw>>)
    requires |draws| == |MerchantNames| && forall k :: 0 <= k < |draws| ==> ValidMerchantDraw(draws[k])
    requires |dss| == |MerchantNames| && forall k :: 0 <= k < |dss| ==> MaxCandidates <= |dss[k]|
    ensures EnoughDraws(MockMerchants(draws), dss)
  {
    MockMerchantsFacts(draws);
  }

  /** Eligibility is a strict inequality: 50000 transactions is not enough, 50001 is. */
  lemma EligibilityIsStrict(m: MerchantStats, d: MerchantDraw)
    ensures m.totalTransactions == 50000 ==>
      !Settle(m, d).eligibleForUpgrade && Settle(m, d).upgradesCandidates == m.upgradesCandidates
    ensures m.totalTransactions == 50001 ==>
      Settle(m, d).eligibleForUpgrade && Settle(m, d).upgradesCandidates == d.candidates + 5
  {
  }

  // ================================================================ generatePatternDetections

  /** The random draws made for one candidate: floor(random * 9999) for the
      name, floor(random * 200) for the transactions, and three raw draws in
      [0, 1) for the weight and the two percentiles. */
  datatype CandidateDraw = CandidateDraw(nameNumber: nat, transactions: nat, weight: real, rank: real, percentile: real)

  predicate ValidCandidateDraw(d: CandidateDraw) {
    && d.nameNumber < 9999
    && d.transactions < 200
    && 0.0 <= d.weight < 1.0
    && 0.0 <= d.rank < 1.0
    && 0.0 <= d.percentile < 1.0
  }

  function CandidateId(merchantId: string, i: nat): string {
    "C" + merchantId + "_" + NatToString(i + 1)
  }

  /** The record pushed for the i-th candidate (counting from 0) of merchant m.
      The detection time (wall clock) is not modelled. */
  function Fabricate(m: MerchantStats, i: nat, d: CandidateDraw): Customer {
    Customer(
      id := CandidateId(m.id, i),
      name := "Customer " + NatToString(d.nameNumber),
      merchantId := m.id,
      merchantName := m.name,
      totalTransactions := d.transactions + 150,
      avgWeight := d.weight * 0.2 + 0.05,
      percentileRank := d.rank * 10.0 + 90.0,
      weightPercentile := d.percentile * 10.0,
      actionType := "UPGRADE")
  }

  /** How many times the inner loop runs for merchant m. */
  function CandidateCount(m: MerchantStats): nat {
    if m.eligibleForUpgrade && m.upgradesCandidates > 0 then m.upgradesCandidates else 0
  }

  /** Every merchant has a draw list, long enough for its candidates. */
  predicate EnoughDraws(ms: seq<MerchantStats>, dss: seq<seq<CandidateDraw>>) {
    |dss| == |ms| && forall k :: 0 <= k < |ms| ==> CandidateCount(ms[k]) <= |dss[k]|
  }

  /** The candidates pushed for one merchant, in push order. */
  function MerchantCandidates(m: MerchantStats, ds: seq<CandidateDraw>): seq<Customer>
    requires CandidateCount(m) <= |ds|
  {
    seq(CandidateCount(m), i requires 0 <= i < CandidateCount(m) => Fabricate(m, i, ds[i]))
  }

  /** The list as pushed, before sorting: merchant by merchant, candidate by candidate. */
  function Pushed(ms: seq<MerchantStats>, dss: seq<seq<CandidateDraw>>): seq<Customer>
    requires EnoughDraws(ms, dss)
  {
    if ms == [] then []
    else Pushed(ms[..|ms| - 1], dss[..|ms| - 1]) + MerchantCandidates(ms[|ms| - 1], dss[|ms| - 1])
  }

  /** The sum of upgradesCandidates over the eligible merchants. */
  function UpgradeTotal(ms: seq<MerchantStats>): int {
    if ms == [] then 0
    else
      var m := ms[|ms| - 1];
      UpgradeTotal(ms[..|ms| - 1]) + (if m.eligibleForUpgrade then m.upgradesCandidates else 0)
  }

  /** The sum of upgradesCandidates over the eligible merchants whose id is mid. */
  function UpgradeTotalOf(ms: seq<MerchantStats>, mid: string): int {
    if ms == [] then 0
    else
      var m := ms[|ms| - 1];
      UpgradeTotalOf(ms[..|ms| - 1], mid) + (if m.eligibleForUpgrade && m.id == mid then m.upgradesCandidates else 0)
  }

  /** How many candidates in s belong to merchant id mid. */
  function CountOf(s: seq<Customer>, mid: string): nat {
    if s == [] then 0
    else CountOf(s[..|s| - 1], mid) + (if s[|s| - 1].merchantId == mid then 1 else 0)
  }

  ghost predicate NonNegativeCounts(ms: seq<MerchantStats>) {
    forall k :: 0 <= k < |ms| ==> ms[k].upgradesCandidates >= 0
  }

  ghost predicate DistinctMerchantIds(ms: seq<MerchantStats>) {
    forall i, j :: 0 <= i < j < |ms| ==> ms[i].id != ms[j].id
  }

  ghost predicate UniqueIds(s: seq<Customer>) {
    forall i, j :: 0 <= i < j < |s| ==> s[i].id != s[j].id
  }

  /** The fields a fabricated candidate always has, whatever the draws. */
  ghost predicate WellFormed(c: Customer) {
    && c.actionType == "UPGRADE"
    && 150 <= c.totalTransactions <= 349
    && 0.05 <= c.avgWeight < 0.25
    && 90.0 <= c.percentileRank < 100.0
    && 0.0 <= c.weightPercentile < 10.0
  }

  /** c was fabricated for the eligible merchant m, as its i-th candidate for some i. */
  ghost predicate FromMerchant(c: Customer, m: MerchantStats) {
    && m.eligibleForUpgrade
    && c.merchantId == m.id
    && c.merchantName == m.name
    && exists i :: 0 <= i < CandidateCount(m) && c.id == CandidateId(m.id, i)
  }

  ghost predicate ValidCandidateDraws(dss: seq<seq<CandidateDraw>>) {
    forall k, j :: 0 <= k < |dss| && 0 <= j < |dss[k]| ==> ValidCandidateDraw(dss[k][j])
  }

  lemma PushedStep(ms: seq<MerchantStats>, dss: seq<seq<CandidateDraw>>, k: nat)
    requires EnoughDraws(ms, dss) && k < |ms|
    ensures EnoughDraws(ms[..k], dss[..k])
    ensures Pushed(ms[..k + 1], dss[..k + 1]) == Pushed(ms[..k], dss[..k]) + MerchantCandidates(ms[k], dss[k])
  {
    assert ms[..k + 1][..k] == ms[..k];
    assert dss[..k + 1][..k] == dss[..k];
  }

  /** With no negative candidate count, the pushed list has one entry per
      candidate of every eligible merchant. */
  lemma {:induction false} PushedLength(ms: seq<MerchantStats>, dss: seq<seq<CandidateDraw>>)
    requires EnoughDraws(ms, dss)
    requires NonNegativeCounts(ms)
    ensures |Pushed(ms, dss)| == UpgradeTotal(ms)
  {
    if ms != [] {
      PushedLength(ms[..|ms| - 1], dss[..|ms| - 1]);
    }
  }

  /** A candidate fabricated from a valid draw is well formed. */
  lemma FabricateWellFormed(m: MerchantStats, i: nat, d: CandidateDraw)
    requires ValidCandidateDraw(d)
    ensures WellFormed(Fabricate(m, i, d))
  {
  }

  /** From valid draws, every candidate of merchant m's block is well formed and
      comes from m. */
  lemma BlockCandidates(m: MerchantStats, ds: seq<CandidateDraw>)
    requires CandidateCount(m) <= |ds|
    requires forall j :: 0 <= j < |ds| ==> ValidCandidateDraw(ds[j])
    ensures forall c :: c in MerchantCandidates(m, ds) ==> WellFormed(c) && FromMerchant(c, m)
  {
    var block := MerchantCandidates(m, ds);
    forall c | c in block ensures WellFormed(c) && FromMerchant(c, m) {
      var i :| 0 <= i < |block| && block[i] == c;
      FabricateWellFormed(m, i, ds[i]);
    }
  }

  /** From valid draws, every pushed candidate is well formed and comes from an
      eligible merchant. */
  lemma {:induction false} PushedCandidates(ms: seq<MerchantStats>, dss: seq<seq<CandidateDraw>>)
    requires EnoughDraws(ms, dss)
    requires ValidCandidateDraws(dss)
    ensures forall c :: c in Pushed(ms, dss) ==>
      WellFormed(c) && exists k :: 0 <= k < |ms| && FromMerchant(c, ms[k])
  {
    if ms != [] {
      var n := |ms| - 1;
      var init, initDraws := ms[..n], dss[..n];
      PushedCandidates(init, initDraws);
      var front, block := Pushed(init, initDraws), MerchantCandidates(ms[n], dss[n]);
      assert Pushed(ms, dss) == front + block;
      BlockCandidates(ms[n], dss[n]);
      forall c | c in front + block
        ensures WellFormed(c) && exists k :: 0 <= k < |ms| && FromMerchant(c, ms[k])
      {
        if c in block {
          assert FromMerchant(c, ms[n]);
        } else {
          var k :| 0 <= k < |init| && FromMerchant(c, init[k]);
          assert init[k] == ms[k];
        }
      }
    }
  }

  /** Every candidate of a block carries the block's merchant id. */
  lemma {:induction false} CountOfSameMerchant(s: seq<Customer>, mid: string, other: string)
    requires forall i :: 0 <= i < |s| ==> s[i].merchantId == mid
    ensures CountOf(s, other) == if other == mid then |s| else 0
  {
    if s != [] {
      CountOfSameMerchant(s[..|s| - 1], mid, other);
    }
  }

  lemma {:induction false} CountOfAppend(a: seq<Customer>, b: seq<Customer>, mid: string)
    ensures CountOf(a + b, mid) == CountOf(a, mid) + CountOf(b, mid)
  {
    if b == [] {
      assert a + b == a;
    } else {
      assert (a + b)[..|a + b| - 1] == a + b[..|b| - 1];
      CountOfAppend(a, b[..|b| - 1], mid);
    }
  }

  /** With no negative candidate count, the candidates with merchant id mid
      number the candidate counts of the eligible merchants with that id. */
  lemma {:induction false} PushedCountOf(ms: seq<MerchantStats>, dss: seq<seq<CandidateDraw>>, mid: string)
    requires EnoughDraws(ms, dss)
    requires NonNegativeCounts(ms)
    ensures CountOf(Pushed(ms, dss), mid) == UpgradeTotalOf(ms, mid)
  {
    if ms != [] {
      var n := |ms| - 1;
      PushedCountOf(ms[..n], dss[..n], mid);
      CountOfAppend(Pushed(ms[..n], dss[..n]), MerchantCandidates(ms[n], dss[n]), mid);
      CountOfSameMerchant(MerchantCandidates(ms[n], dss[n]), ms[n].id, mid);
    }
  }

  lemma {:induction false} UpgradeTotalOfAbsent(ms: seq<MerchantStats>, mid: string)
    requires forall k :: 0 <= k < |ms| ==> ms[k].id != mid
    ensures UpgradeTotalOf(ms, mid) == 0
  {
    if ms != [] {
      UpgradeTotalOfAbsent(ms[..|ms| - 1], mid);
    }
  }

  /** With distinct merchant ids and no negative candidate count, merchant k has
      exactly upgradesCandidates candidates if it is eligible, and none otherwise. */
  lemma {:induction false} PushedCountPerMerchant(ms: seq<MerchantStats>, dss: seq<seq<CandidateDraw>>, k: nat)
    requires EnoughDraws(ms, dss)
    requires NonNegativeCounts(ms)
    requires DistinctMerchantIds(ms)
    requires k < |ms|
    ensures CountOf(Pushed(ms, dss), ms[k].id)
         == if ms[k].eligibleForUpgrade then ms[k].upgradesCandidates else 0
  {
    PushedCountOf(ms, dss, ms[k].id);
    UpgradeTotalOfSingle(ms, k);
  }

  lemma {:induction false} UpgradeTotalOfSingle(ms: seq<MerchantStats>, k: nat)
    requires DistinctMerchantIds(ms)
    requires k < |ms|
    ensures UpgradeTotalOf(ms, ms[k].id) == if ms[k].eligibleForUpgrade then ms[k].upgradesCandidates else 0
  {
    var n := |ms| - 1;
    if k == n {
      UpgradeTotalOfAbsent(ms[..n], ms[k].id);
    } else {
      UpgradeTotalOfSingle(ms[..n], k);
    }
  }

  /** An id "C<m>_<i>" determines m and i, as long as m has no underscore. */
  lemma CandidateIdInjective(m1: string, i1: nat, m2: string, i2: nat)
    requires '_' !in m1 && '_' !in m2
    requires CandidateId(m1, i1) == CandidateId(m2, i2)
    ensures m1 == m2 && i1 == i2
  {
    var a, b := "C" + m1, "C" + m2;
    var d1, d2 := NatToString(i1 + 1), NatToString(i2 + 1);
    assert '_' !in a && '_' !in b;
    SplitAtMarker(a, d1, b, d2, '_');
    assert m1 == a[1..] && m2 == b[1..];
    NatToStringInjective(i1 + 1, i2 + 1);
  }

  /** The position of the first c in s. */
  function IndexOf(s: string, c: char): nat
    requires c in s
  {
    if s[0] == c then 0 else 1 + IndexOf(s[1..], c)
  }

  lemma {:induction false} IndexOfMarker(a: string, d: string, c: char)
    requires c !in a
    ensures IndexOf(a + [c] + d, c) == |a|
  {
    if a != [] {
      assert (a + [c] + d)[1..] == a[1..] + [c] + d;
      IndexOfMarker(a[1..], d, c);
    }
  }

  /** a c d1 == b c d2, with c in neither a nor b, splits at the first c. */
  lemma SplitAtMarker(a: string, d1: string, b: string, d2: string, c: char)
    requires c !in a && c !in b
    requires a + [c] + d1 == b + [c] + d2
    ensures a == b && d1 == d2
  {
    var s := a + [c] + d1;
    IndexOfMarker(a, d1, c);
    IndexOfMarker(b, d2, c);
    assert a == s[..|a|] && b == s[..|b|];
    assert d1 == s[|a| + 1..] && d2 == s[|b| + 1..];
  }

  lemma UniqueIdsAppend(a: seq<Customer>, b: seq<Customer>)
    requires UniqueIds(a) && UniqueIds(b)
    requires forall x, y :: x in a && y in b ==> x.id != y.id
    ensures UniqueIds(a + b)
  {
    var s := a + b;
    forall i, j | 0 <= i < j < |s| ensures s[i].id != s[j].id {
      if j < |a| {
        assert s[i] == a[i] && s[j] == a[j];
      } else if i >= |a| {
        assert s[i] == b[i - |a|] && s[j] == b[j - |a|];
      } else {
        assert s[i] in a && s[j] in b;
      }
    }
  }

  /** For one merchant id, whatever it contains, the candidate number is
      determined by the id: both ids share the prefix "C<m>_". */
  lemma CandidateIdSameMerchant(m: string, i: nat, j: nat)
    requires CandidateId(m, i) == CandidateId(m, j)
    ensures i == j
  {
    var p := "C" + m + "_";
    assert NatToString(i + 1) == CandidateId(m, i)[|p|..];
    assert NatToString(j + 1) == CandidateId(m, j)[|p|..];
    NatToStringInjective(i + 1, j + 1);
  }

  /** The candidates of one merchant have pairwise distinct ids. */
  lemma BlockIdsUnique(m: MerchantStats, ds: seq<CandidateDraw>)
    requires CandidateCount(m) <= |ds|
    ensures UniqueIds(MerchantCandidates(m, ds))
  {
    var block := MerchantCandidates(m, ds);
    forall i, j | 0 <= i < j < |block| ensures block[i].id != block[j].id {
      if block[i].id == block[j].id {
        CandidateIdSameMerchant(m.id, i, j);
      }
    }
  }

  /** Every pushed id is CandidateId(m, i) for a merchant m and one of its
      candidate numbers i. */
  ghost predicate IdFromMerchants(c: Customer, ms: seq<MerchantStats>) {
    exists k, i :: 0 <= k < |ms| && 0 <= i < CandidateCount(ms[k]) && c.id == CandidateId(ms[k].id, i)
  }

  lemma {:induction false} PushedIdsShape(ms: seq<MerchantStats>, dss: seq<seq<CandidateDraw>>)
    requires EnoughDraws(ms, dss)
    ensures forall c :: c in Pushed(ms, dss) ==> IdFromMerchants(c, ms)
  {
    if ms != [] {
      var n := |ms| - 1;
      var init, initDraws := ms[..n], dss[..n];
      PushedIdsShape(init, initDraws);
      var front, block := Pushed(init, initDraws), MerchantCandidates(ms[n], dss[n]);
      assert Pushed(ms, dss) == front + block;
      forall c | c in front + block ensures IdFromMerchants(c, ms) {
        if c in block {
          var j :| 0 <= j < |block| && block[j] == c;
          assert c.id == CandidateId(ms[n].id, j);
        } else {
          var k, i :| 0 <= k < n && 0 <= i < CandidateCount(init[k]) && c.id == CandidateId(init[k].id, i);
          assert init[k] == ms[k];
        }
      }
    }
  }

  /** A candidate of another merchant never shares an id with m's block. */
  lemma BlockIdsFresh(ms: seq<MerchantStats>, m: MerchantStats, ds: seq<CandidateDraw>, x: Customer)
    requires CandidateCount(m) <= |ds|
    requires IdFromMerchants(x, ms)
    requires forall k :: 0 <= k < |ms| ==> ms[k].id != m.id && '_' !in ms[k].id
    requires '_' !in m.id
    ensures forall y :: y in MerchantCandidates(m, ds) ==> x.id != y.id
  {
    var block := MerchantCandidates(m, ds);
    var k, i :| 0 <= k < |ms| && 0 <= i < CandidateCount(ms[k]) && x.id == CandidateId(ms[k].id, i);
    forall y | y in block ensures x.id != y.id {
      var j :| 0 <= j < |block| && block[j] == y;
      if x.id == y.id {
        CandidateIdInjective(ms[k].id, i, m.id, j);
        assert false;
      }
    }
  }

  /** With distinct, underscore-free merchant ids, all candidate ids differ. */
  lemma {:induction false} PushedIdsUnique(ms: seq<MerchantStats>, dss: seq<seq<CandidateDraw>>)
    requires EnoughDraws(ms, dss)
    requires DistinctMerchantIds(ms)
    requires forall k :: 0 <= k < |ms| ==> '_' !in ms[k].id
    ensures UniqueIds(Pushed(ms, dss))
  {
    if ms != [] {
      var n := |ms| - 1;
      var init, initDraws := ms[..n], dss[..n];
      var m := ms[n];
      PushedIdsUnique(init, initDraws);
      PushedIdsShape(init, initDraws);
      var front, block := Pushed(init, initDraws), MerchantCandidates(m, dss[n]);
      assert Pushed(ms, dss) == front + block;
      BlockIdsUnique(m, dss[n]);
      forall k | 0 <= k < |init| ensures init[k].id != m.id && '_' !in init[k].id {
        assert init[k] == ms[k];
      }
      forall x, y | x in front && y in block ensures x.id != y.id {
        BlockIdsFresh(init, m, dss[n], x);
      }
      UniqueIdsAppend(front, block);
    }
  }

  // ---------------------------------------------------------------- the sort by transactions

  /** The sort key: candidates are listed by descending totalTransactions. */
  function Transactions(c: Customer): int {
    c.totalTransactions
  }

  /** The number of x's merchant's candidates goes up by one when x is inserted. */
  lemma {:induction false} InsertDescCountOf(x: Customer, s: seq<Customer>, mid: string)
    ensures CountOf(InsertDesc(x, s, Transactions), mid) == CountOf(s, mid) + (if x.merchantId == mid then 1 else 0)
  {
    var one := if x.merchantId == mid then 1 else 0;
    if s == [] {
      assert CountOf([x], mid) == CountOf([x][..0], mid) + one;
    } else if Transactions(s[|s| - 1]) < Transactions(x) {
      var init, last := s[..|s| - 1], s[|s| - 1];
      var t := InsertDesc(x, init, Transactions);
      assert InsertDesc(x, s, Transactions) == t + [last];
      InsertDescCountOf(x, init, mid);
      CountOfAppend(t, [last], mid);
      CountOfAppend(init, [last], mid);
      assert init + [last] == s;
    } else {
      assert InsertDesc(x, s, Transactions) == s + [x];
      CountOfAppend(s, [x], mid);
      assert CountOf([x], mid) == CountOf([x][..0], mid) + one;
    }
  }

  lemma {:induction false} InsertDescUniqueIds(x: Customer, s: seq<Customer>)
    requires UniqueIds(s)
    requires forall y :: y in s ==> y.id != x.id
    ensures UniqueIds(InsertDesc(x, s, Transactions))
  {
    if s == [] {
    } else if s[|s| - 1].totalTransactions < x.totalTransactions {
      var init, last := s[..|s| - 1], s[|s| - 1];
      InsertDescUniqueIds(x, init);
      var t := InsertDesc(x, init, Transactions);
      forall y, z | y in t && z in [last] ensures y.id != z.id {
        InsertDescMember(x, init, Transactions, y);
        if y != x {
          var i :| 0 <= i < |init| && init[i] == y;
          assert s[i] == y && s[|s| - 1] == z;
        }
      }
      UniqueIdsAppend(t, [last]);
    } else {
      UniqueIdsAppend(s, [x]);
    }
  }

  /** Sorting keeps the number of candidates of every merchant. */
  lemma {:induction false} SortDescCountOf(s: seq<Customer>, mid: string)
    ensures CountOf(SortDesc(s, Transactions), mid) == CountOf(s, mid)
  {
    if s != [] {
      SortDescCountOf(s[..|s| - 1], mid);
      InsertDescCountOf(s[|s| - 1], SortDesc(s[..|s| - 1], Transactions), mid);
    }
  }

  /** Sorting keeps ids pairwise distinct. */
  lemma {:induction false} SortDescUniqueIds(s: seq<Customer>)
    requires UniqueIds(s)
    ensures UniqueIds(SortDesc(s, Transactions))
  {
    if s != [] {
      var init, last := s[..|s| - 1], s[|s| - 1];
      SortDescUniqueIds(init);
      forall y | y in SortDesc(init, Transactions) ensures y.id != last.id {
        SortDescPermutes(init, Transactions);
        assert y in multiset(SortDesc(init, Transactions));
        var i :| 0 <= i < |init| && init[i] == y;
        assert s[i] == y;
      }
      InsertDescUniqueIds(last, SortDesc(init, Transactions));
    }
  }

  /** Fabricates the candidates of every eligible merchant, then sorts them. */
  method GeneratePatternDetections(ms: seq<MerchantStats>, dss: seq<seq<CandidateDraw>>)
    returns (patterns: seq<Customer>)
    requires EnoughDraws(ms, dss)
    ensures patterns == SortDesc(Pushed(ms, dss), Transactions)
  {
    var pushed: seq<Customer> := [];
    for k := 0 to |ms|
      invariant EnoughDraws(ms[..k], dss[..k])
      invariant pushed == Pushed(ms[..k], dss[..k])
    {
      PushedStep(ms, dss, k);
      var merchant := ms[k];
      ghost var block := MerchantCandidates(merchant, dss[k]);
      if merchant.eligibleForUpgrade {
        var i := 0;
        while i < merchant.upgradesCandidates
          invariant 0 <= i <= CandidateCount(merchant)
          invariant pushed == Pushed(ms[..k], dss[..k]) + block[..i]
        {
          assert block[..i + 1] == block[..i] + [Fabricate(merchant, i, dss[k][i])];
          pushed := pushed + [Fabricate(merchant, i, dss[k][i])];
          i := i + 1;
        }
        assert block[..i] == block;
      } else {
        assert block == [];
      }
    }
    assert ms[..|ms|] == ms && dss[..|ms|] == dss;
    var a := new Customer[|pushed|](i requires 0 <= i < |pushed| => pushed[i]);
    assert a[..] == pushed;
    SortByKeyDesc(a, Transactions);
    patterns := a[..];
  }

  /** Everything a run promises about its candidate list: it is sorted, a
      stable permutation of the pushed list, as long as the sum of the
      eligible merchants' counts, gives each merchant exactly its count, and
      every entry is well formed, has a unique id and comes from an eligible
      merchant. */
  lemma DetectionsOfARun(draws: seq<MerchantDraw>, dss: seq<seq<CandidateDraw>>)
    requires |draws| == |MerchantNames| && forall k :: 0 <= k < |draws| ==> ValidMerchantDraw(draws[k])
    requires |dss| == |MerchantNames| && forall k :: 0 <= k < |dss| ==> MaxCandidates <= |dss[k]|
    requires ValidCandidateDraws(dss)
    ensures EnoughDraws(MockMerchants(draws), dss)
    ensures var ms := MockMerchants(draws);
      var pushed := Pushed(ms, dss);
      var r := SortDesc(pushed, Transactions);
      && SortedDesc(r, Transactions)
      && multiset(r) == multiset(pushed)
      && (forall v :: KeyFilter(r, Transactions, v) == KeyFilter(pushed, Transactions, v))
      && |r| == UpgradeTotal(ms)
      && (forall k :: 0 <= k < |ms| ==>
            CountOf(r, ms[k].id) == if ms[k].eligibleForUpgrade then ms[k].upgradesCandidates else 0)
      && UniqueIds(r)
      && (forall c :: c in r ==> WellFormed(c) && exists k :: 0 <= k < |ms| && FromMerchant(c, ms[k]))
  {
    var ms := MockMerchants(draws);
    MockMerchantsFacts(draws);
    assert EnoughDraws(ms, dss);
    var pushed := Pushed(ms, dss);
    var r := SortDesc(pushed, Transactions);
    SortDescCorrect(pushed, Transactions);
    PushedLength(ms, dss);
    forall k | 0 <= k < |ms|
      ensures CountOf(r, ms[k].id) == if ms[k].eligibleForUpgrade then ms[k].upgradesCandidates else 0
    {
      PushedCountPerMerchant(ms, dss, k);
      SortDescCountOf(pushed, ms[k].id);
    }
    PushedIdsUnique(ms, dss);
    SortDescUniqueIds(pushed);
    PushedCandidates(ms, dss);
    forall c | c in r ensures c in pushed {
      assert c in multiset(r);
    }
  }

  // ================================================================ the reveal loop

  /** The batches the loop publishes from index i on: the prefix up to i + 5
      (slice clamps at the end), then the rest from i + 5. */
  function Batches(s: seq<Customer>, i: nat): seq<seq<Customer>>
    decreases |s| - i
  {
    if i >= |s| then [] else [s[..Min(i + 5, |s|)]] + Batches(s, i + 5)
  }

  function RevealBatches(s: seq<Customer>): seq<seq<Customer>> {
    Batches(s, 0)
  }

  lemma {:induction false} BatchesShape(s: seq<Customer>, i: nat)
    ensures |Batches(s, i)| == if i >= |s| then 0 else (|s| - i + 4) / 5
    ensures forall k :: 0 <= k < |Batches(s, i)| ==> Batches(s, i)[k] == s[..Min(i + 5 * k + 5, |s|)]
    decreases |s| - i
  {
    if i < |s| {
      BatchesShape(s, i + 5);
      var b := Batches(s, i);
      forall k | 1 <= k < |b| ensures b[k] == s[..Min(i + 5 * k + 5, |s|)] {
        assert b[k] == Batches(s, i + 5)[k - 1];
      }
    }
  }

  /** The reveal publishes ceil(n / 5) batches; batch k is the first
      min(5(k + 1), n) candidates; no batch for an empty list; the last batch
      is the whole list; every batch but the last holds a multiple of five
      and is a strict prefix of the next, which is at most five longer, and
      exactly five longer unless it is the last. */
  lemma RevealBatchesShape(s: seq<Customer>)
    ensures var r := RevealBatches(s);
      && |r| == (|s| + 4) / 5
      && (forall k :: 0 <= k < |r| ==> r[k] == s[..Min(5 * k + 5, |s|)])
      && (|s| == 0 ==> r == [])
      && (|s| > 0 ==> r[|r| - 1] == s)
      && (forall k :: 0 <= k < |r| - 1 ==>
            |r[k]| == 5 * k + 5 && r[k] == r[k + 1][..|r[k]|] && 0 < |r[k + 1]| - |r[k]| <= 5)
      && (forall k :: 0 <= k < |r| - 2 ==> |r[k + 1]| - |r[k]| == 5)
  {
    var r := RevealBatches(s);
    var n := |s|;
    BatchesShape(s, 0);
    assert |r| == (n + 4) / 5;
    var q := (n + 4) / 5;
    assert 5 * q <= n + 4 < 5 * q + 5;
    if n > 0 {
      assert r[q - 1] == s[..Min(5 * (q - 1) + 5, n)];
      assert Min(5 * (q - 1) + 5, n) == n;
    }
    forall k | 0 <= k < |r| - 1
      ensures |r[k]| == 5 * k + 5 && r[k] == r[k + 1][..|r[k]|] && 0 < |r[k + 1]| - |r[k]| <= 5
    {
      assert 5 * k + 5 < n;
    }
    forall k | 0 <= k < |r| - 2 ensures |r[k + 1]| - |r[k]| == 5 {
      assert 5 * (k + 1) + 5 < n;
    }
  }

  // ================================================================ runPatternDetection

  /** What the panel shows at one moment: the four state values of the component. */
  datatype Snapshot = Snapshot(
    merchants: seq<MerchantStats>,
    detectedPatterns: seq<Customer>,
    isAnalyzing: bool,
    totalDetections: int)

  /** The states shown while each batch is on screen, one per batch. */
  function BatchSnapshots(ms: seq<MerchantStats>, batches: seq<seq<Customer>>): seq<Snapshot> {
    if batches == [] then []
    else [Snapshot(ms, batches[0], true, |batches[0]|)] + BatchSnapshots(ms, batches[1..])
  }

  /** Every state shown during the reveal is busy and counts exactly the
      candidates on screen; there is one per batch, showing that batch. */
  lemma {:induction false} BatchSnapshotsFacts(ms: seq<MerchantStats>, batches: seq<seq<Customer>>)
    ensures |BatchSnapshots(ms, batches)| == |batches|
    ensures forall j :: 0 <= j < |batches| ==> BatchSnapshots(ms, batches)[j] == Snapshot(ms, batches[j], true, |batches[j]|)
  {
    if batches != [] {
      BatchSnapshotsFacts(ms, batches[1..]);
      var r := BatchSnapshots(ms, batches);
      forall j | 1 <= j < |batches| ensures r[j] == Snapshot(ms, batches[j], true, |batches[j]|) {
        assert r[j] == BatchSnapshots(ms, batches[1..])[j - 1];
      }
    }
  }

  /** One turn of the reveal loop: the batch from index i is shown, then the rest. */
  lemma RevealStep(ms: seq<MerchantStats>, s: seq<Customer>, i: nat)
    requires i < |s|
    ensures var b := s[..Min(i + 5, |s|)];
      BatchSnapshots(ms, Batches(s, i)) == [Snapshot(ms, b, true, |b|)] + BatchSnapshots(ms, Batches(s, i + 5))
  {
    var b := s[..Min(i + 5, |s|)];
    assert Batches(s, i) == [b] + Batches(s, i + 5);
    assert ([b] + Batches(s, i + 5))[1..] == Batches(s, i + 5);
  }

  /** What a run's timeline shows: it starts with the cleared, busy state;
      every state it shows is busy and counts exactly the candidates on
      screen; it ends, unless there are no candidates, with the whole list on
      screen; and it shows ceil(n / 5) batches after the two cleared states. */
  lemma RunTimeline(before: seq<Snapshot>, previous: seq<MerchantStats>, ms: seq<MerchantStats>, r: seq<Customer>)
    ensures var t := before + [Snapshot(previous, [], true, 0)] + [Snapshot(ms, [], true, 0)]
                     + BatchSnapshots(ms, RevealBatches(r));
      && |t| == |before| + 2 + (|r| + 4) / 5
      && t[|before|] == Snapshot(previous, [], true, 0)
      && (forall j :: |before| <= j < |t| ==> t[j].isAnalyzing && t[j].totalDetections == |t[j].detectedPatterns|)
      && (r != [] ==> t[|t| - 1] == Snapshot(ms, r, true, |r|))
      && (r == [] ==> t[|t| - 1] == Snapshot(ms, [], true, 0))
  {
    var bs := RevealBatches(r);
    var shown := BatchSnapshots(ms, bs);
    var t := before + [Snapshot(previous, [], true, 0)] + [Snapshot(ms, [], true, 0)] + shown;
    var n := |before| + 2;
    RevealBatchesShape(r);
    BatchSnapshotsFacts(ms, bs);
    forall j | n <= j < |t| ensures t[j] == shown[j - n] {
    }
    if r != [] {
      assert t[|t| - 1] == shown[|bs| - 1];
    }
  }

  /** The component's state. `timeline` records, in order, the state the panel
      shows at every wait of every run, in place of the waits themselves. */
  class PatternDetector {
    var merchants: seq<MerchantStats>
    var detectedPatterns: seq<Customer>
    var isAnalyzing: bool
    var totalDetections: int
    var timeline: seq<Snapshot>

    constructor ()
      ensures merchants == [] && detectedPatterns == [] && !isAnalyzing && totalDetections == 0
      ensures timeline == []
    {
      merchants := [];
      detectedPatterns := [];
      isAnalyzing := false;
      totalDetections := 0;
      timeline := [];
    }

    function View(): Snapshot
      reads this
    {
      Snapshot(merchants, detectedPatterns, isAnalyzing, totalDetections)
    }

    /** One run: clear the results and raise the busy flag, fabricate the
        merchants, fabricate and sort the candidates, publish them in growing
        prefixes of five, then lower the busy flag. The last four ensures are
        what RunTimeline derives from the timeline: one state for the cleared
        panel, one for the new merchants and one per batch, every one of them
        busy and counting what it shows, the last showing the whole list. */
    method RunPatternDetection(draws: seq<MerchantDraw>, dss: seq<seq<CandidateDraw>>)
      requires |draws| == |MerchantNames| && forall k :: 0 <= k < |draws| ==> ValidMerchantDraw(draws[k])
      requires |dss| == |MerchantNames| && forall k :: 0 <= k < |dss| ==> MaxCandidates <= |dss[k]|
      modifies this
      ensures EnoughDraws(merchants, dss)
      ensures merchants == MockMerchants(draws)
      ensures detectedPatterns == SortDesc(Pushed(merchants, dss), Transactions)
      ensures totalDetections == |detectedPatterns|
      ensures !isAnalyzing
      ensures timeline == old(timeline)
        + [Snapshot(old(merchants), [], true, 0)]
        + [Snapshot(merchants, [], true, 0)]
        + BatchSnapshots(merchants, RevealBatches(detectedPatterns))
      ensures |timeline| == |old(timeline)| + 2 + (|detectedPatterns| + 4) / 5
      ensures timeline[|old(timeline)|] == Snapshot(old(merchants), [], true, 0)
      ensures forall j :: |old(timeline)| <= j < |timeline| ==>
        timeline[j].isAnalyzing && timeline[j].totalDetections == |timeline[j].detectedPatterns|
      ensures timeline[|timeline| - 1] == Snapshot(merchants, detectedPatterns, true, |detectedPatterns|)
    {
      ghost var before, previous := timeline, merchants;
      isAnalyzing := true;
      detectedPatterns := [];
      totalDetections := 0;
      timeline := timeline + [Snapshot(merchants, [], true, 0)];

      var newMerchants := GenerateMockData(draws);
      merchants := newMerchants;
      timeline := timeline + [Snapshot(newMerchants, [], true, 0)];

      MockMerchantsHaveDraws(draws, dss);
      var patterns := GeneratePatternDetections(newMerchants, dss);
      RevealInBatches(patterns);
      isAnalyzing := false;
      RunTimeline(before, previous, merchants, detectedPatterns);
    }

    /** The reveal loop: show prefixes of patterns growing by five, one state
        per batch, while the busy flag stays up. An empty list shows nothing
        and leaves the (already cleared) results as they were. */
    method RevealInBatches(patterns: seq<Customer>)
      requires isAnalyzing && totalDetections == |detectedPatterns|
      modifies this
      ensures merchants == old(merchants) && isAnalyzing
      ensures detectedPatterns == if patterns == [] then old(detectedPatterns) else patterns
      ensures totalDetections == |detectedPatterns|
      ensures timeline == old(timeline) + BatchSnapshots(merchants, RevealBatches(patterns))
    {
      var i := 0;
      while i < |patterns|
        invariant merchants == old(merchants) && isAnalyzing
        invariant patterns == [] ==> i == 0
        invariant i == 0 ==> detectedPatterns == old(detectedPatterns)
        invariant i > 0 ==> detectedPatterns == patterns[..Min(i, |patterns|)]
        invariant totalDetections == |detectedPatterns|
        invariant timeline + BatchSnapshots(merchants, Batches(patterns, i))
               == old(timeline) + BatchSnapshots(merchants, RevealBatches(patterns))
        decreases |patterns| - i
      {
        var batch := patterns[..Min(i + 5, |patterns|)];
        RevealStep(merchants, patterns, i);
        detectedPatterns := batch;
        totalDetections := |batch|;
        ghost var rest := BatchSnapshots(merchants, Batches(patterns, i + 5));
        assert timeline + ([View()] + rest) == (timeline + [View()]) + rest;
        timeline := timeline + [View()];
        i := i + 5;
      }
      if patterns != [] {
        assert i > 0 && Min(i, |patterns|) == |patterns|;
        assert patterns[..|patterns|] == patterns;
      }
    }
  }

  // ================================================================ getWeightColor

  /** The colour of a customer's average weight. */
  function WeightColor(weight: real): string {
    if weight < 0.15 then "text-destructive"
    else if weight < 0.3 then "text-warning"
    else "text-success"
  }

  /** A fabricated weight lies in [0.05, 0.25), so it is never shown as a
      success: below 0.15 it is destructive, otherwise a warning. */
  lemma FabricatedWeightColor(c: Customer)
    requires WellFormed(c)
    ensures WeightColor(c.avgWeight) != "text-success"
    ensures WeightColor(c.avgWeight) == "text-destructive" <==> c.avgWeight < 0.15
    ensures WeightColor(c.avgWeight) == "text-warning" <==> 0.15 <= c.avgWeight
  {
  }
}
