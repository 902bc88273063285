/**
 * The overview screen (ems-frontend/src/components/EMSDashboard.js): the
 * department histogram, the five most recent employees, the count of new
 * hires this month and the avatar chosen for an employee's name.
 */
module Dashboard {
  import opened Wrappers
  import opened Text
  import Seqs
  import Sorting

  /**
   * When a record was created, as the browser reads its `createdAt` text:
   * milliseconds since the epoch, and the local calendar year and month (0-11).
   */
  datatype Stamp = Stamp(millis: int, year: int, month: int)

  /**
   * An employee as the list endpoint returns it. Every field may be absent;
   * an empty `createdAt` text is falsy and is written None here.
   */
  datatype Member = Member(
    mongoId: Option<string>,
    id: Option<string>,
    employeeId: Option<string>,
    name: Option<string>,
    position: Option<string>,
    designation: Option<string>,
    department: Option<string>,
    status: Option<string>,
    createdAt: Option<Stamp>)

  // ---------------------------------------------------------------------------
  // Department histogram
  // ---------------------------------------------------------------------------

  /** The eight chart colours, used in turn. */
  const Palette: seq<string> := ["#3B82F6", "#10B981", "#F59E0B", "#EF4444", "#8B5CF6", "#06B6D4", "#F97316", "#84CC16"]

  /** One slice of the department chart. */
  datatype Bucket = Bucket(name: string, employees: nat, color: string)

  /** `emp.department || 'Unassigned'`. */
  function DepartmentOf(e: Member): string {
    OrElse(e.department, "Unassigned")
  }

  function Departments(data: seq<Member>): seq<string> {
    Seqs.Map(data, DepartmentOf)
  }

  /** How many times `d` occurs in `names`. */
  function Tally(names: seq<string>, d: string): (n: nat)
    ensures n <= |names|
    ensures n > 0 <==> d in names
  {
    if names == [] then 0
    else
      assert forall x :: x in names <==> x in names[..|names| - 1] || x == names[|names| - 1];
      Tally(names[..|names| - 1], d) + if names[|names| - 1] == d then 1 else 0
  }

  /** The distinct names of `names`, each where it first occurs. */
  function FirstSeen(names: seq<string>): (r: seq<string>)
    ensures forall x :: x in r <==> x in names
    ensures forall i, j :: 0 <= i < j < |r| ==> r[i] != r[j]
  {
    if names == [] then []
    else
      var rest := FirstSeen(names[..|names| - 1]);
      var last := names[|names| - 1];
      assert forall x :: x in names <==> x in names[..|names| - 1] || x == last;
      if last in rest then rest else rest + [last]
  }

  /** The histogram the chart shows: one bucket per distinct department, in first-seen order. */
  function Distribution(data: seq<Member>): seq<Bucket> {
    BucketsOf(FirstSeen(Departments(data)), Departments(data))
  }

  /** Bucket `k` is the `k`-th name with its tally and the `k`-th colour, cycling. */
  function BucketsOf(order: seq<string>, names: seq<string>): (r: seq<Bucket>)
    ensures |r| == |order|
    ensures forall k :: 0 <= k < |order| ==> r[k] == Bucket(order[k], Tally(names, order[k]), Palette[k % |Palette|])
  {
    seq(|order|, k requires 0 <= k < |order| => Bucket(order[k], Tally(names, order[k]), Palette[k % |Palette|]))
  }

  /** The dictionary the one pass builds: every name seen so far, mapped to how often it was seen. */
  function TallyMap(names: seq<string>): map<string, nat> {
    if names == [] then map[]
    else
      var m := TallyMap(names[..|names| - 1]);
      var d := names[|names| - 1];
      m[d := (if d in m then m[d] else 0) + 1]
  }

  /** The dictionary's keys are the names seen, and each holds its tally. */
  lemma {:induction false} TallyMapHoldsTallies(names: seq<string>)
    ensures forall d :: d in TallyMap(names) <==> d in names
    ensures forall d :: d in TallyMap(names) ==> TallyMap(names)[d] == Tally(names, d)
  {
    if names != [] {
      TallyMapHoldsTallies(names[..|names| - 1]);
      assert forall x :: x in names <==> x in names[..|names| - 1] || x == names[|names| - 1];
    }
  }

  /** The listing step: bucket `k` is the `k`-th key with its count and the `k`-th colour, cycling. */
  function BucketsFrom(order: seq<string>, counts: map<string, nat>): (r: seq<Bucket>)
    requires forall d :: d in order ==> d in counts
    ensures |r| == |order|
  {
    seq(|order|, k requires 0 <= k < |order| => Bucket(order[k], counts[order[k]], Palette[k % |Palette|]))
  }

  /** Listing counts that are the tallies gives the histogram of those tallies. */
  lemma BucketsFromTallies(order: seq<string>, names: seq<string>, counts: map<string, nat>)
    requires forall d :: d in order ==> d in counts && counts[d] == Tally(names, d)
    ensures BucketsFrom(order, counts) == BucketsOf(order, names)
  {
    var r := BucketsFrom(order, counts);
    forall k | 0 <= k < |order|
      ensures r[k] == BucketsOf(order, names)[k]
    {
      assert r[k] == Bucket(order[k], counts[order[k]], Palette[k % |Palette|]);
    }
  }

  /**
   * calculateDepartmentDistribution: a dictionary filled in one pass over the
   * employees, then listed in insertion order with a colour per position.
   * A JavaScript object is modelled by its key-to-count map together with
   * the order its keys were inserted in.
   */
  method DepartmentDistribution(data: seq<Member>) returns (buckets: seq<Bucket>)
    ensures buckets == Distribution(data)
  {
    ghost var names := Departments(data);
    var counts: map<string, nat> := map[];
    var order: seq<string> := [];
    var i := 0;
    while i < |data|
      invariant 0 <= i <= |data|
      invariant order == FirstSeen(names[..i])
      invariant counts == TallyMap(names[..i])
    {
      var dept := OrElse(data[i].department, "Unassigned");
      assert dept == names[i] && names[..i + 1][..i] == names[..i];
      TallyMapHoldsTallies(names[..i]);
      var before := if dept in counts then counts[dept] else 0;
      if dept !in counts {
        order := order + [dept];
      }
      counts := counts[dept := before + 1];
      i := i + 1;
    }
    assert names[..|data|] == names;
    TallyMapHoldsTallies(names);
    buckets := BucketsFrom(order, counts);
    BucketsFromTallies(order, names, counts);
  }

  /** The number of employees the buckets account for. */
  function BucketTotal(bs: seq<Bucket>): nat {
    if bs == [] then 0 else BucketTotal(bs[..|bs| - 1]) + bs[|bs| - 1].employees
  }

  /** The tallies of the names in `order`, added up. */
  function Total(order: seq<string>, names: seq<string>): nat {
    if order == [] then 0 else Total(order[..|order| - 1], names) + Tally(names, order[|order| - 1])
  }

  lemma {:induction false} BucketTotalIsTotal(order: seq<string>, names: seq<string>)
    ensures BucketTotal(BucketsOf(order, names)) == Total(order, names)
  {
    if order != [] {
      var bs := BucketsOf(order, names);
      var prefix := order[..|order| - 1];
      assert bs[..|bs| - 1] == BucketsOf(prefix, names);
      BucketTotalIsTotal(prefix, names);
    }
  }

  /** One more name adds one to the total when the name is among the distinct ones counted. */
  lemma {:induction false} TotalAppend(order: seq<string>, names: seq<string>, x: string)
    requires forall i, j :: 0 <= i < j < |order| ==> order[i] != order[j]
    ensures Total(order, names + [x]) == Total(order, names) + if x in order then 1 else 0
  {
    if order != [] {
      var prefix := order[..|order| - 1];
      assert (names + [x])[..|names|] == names;
      assert x in order <==> x in prefix || x == order[|order| - 1];
      TotalAppend(prefix, names, x);
    }
  }

  /** The tallies of the distinct names add up to the number of names. */
  lemma {:induction false} FirstSeenTotal(names: seq<string>)
    ensures Total(FirstSeen(names), names) == |names|
  {
    if names != [] {
      var p := names[..|names| - 1];
      var x := names[|names| - 1];
      var rest := FirstSeen(p);
      assert names == p + [x];
      FirstSeenTotal(p);
      TotalAppend(rest, p, x);
      if x !in rest {
        assert (rest + [x])[..|rest|] == rest;
        assert Tally(p, x) == 0;
      }
    }
  }

  /** Every employee is counted in exactly one bucket: the bucket counts sum to the number of employees. */
  lemma BucketsCoverEveryone(data: seq<Member>)
    ensures BucketTotal(Distribution(data)) == |data|
  {
    BucketTotalIsTotal(FirstSeen(Departments(data)), Departments(data));
    FirstSeenTotal(Departments(data));
  }

  /**
   * There is one bucket per distinct department, a missing or empty one
   * counting as "Unassigned": every bucket names the department of some
   * employee, and every employee's department has a bucket.
   */
  lemma DistributionNames(data: seq<Member>)
    ensures forall k :: 0 <= k < |Distribution(data)| ==> Distribution(data)[k].name in Departments(data)
    ensures forall i :: 0 <= i < |data| ==> exists k :: 0 <= k < |Distribution(data)| && Distribution(data)[k].name == DepartmentOf(data[i])
  {
    var names := Departments(data);
    var order := FirstSeen(names);
    var dist := Distribution(data);
    forall i | 0 <= i < |data|
      ensures exists k :: 0 <= k < |dist| && dist[k].name == DepartmentOf(data[i])
    {
      assert names[i] == DepartmentOf(data[i]);
      assert names[i] in order;
      var k :| 0 <= k < |order| && order[k] == names[i];
      assert dist[k].name == order[k];
    }
  }

  /** No two buckets share a name, every bucket counts at least one employee, and bucket `k` has colour `k mod 8`. */
  lemma DistributionBuckets(data: seq<Member>)
    ensures forall k, l :: 0 <= k < l < |Distribution(data)| ==> Distribution(data)[k].name != Distribution(data)[l].name
    ensures forall k :: 0 <= k < |Distribution(data)| ==> Distribution(data)[k].employees >= 1
    ensures forall k :: 0 <= k < |Distribution(data)| ==> Distribution(data)[k].color == Palette[k % 8]
  {
    var order := FirstSeen(Departments(data));
    assert forall k :: 0 <= k < |order| ==> order[k] in Departments(data);
  }

  /** Some occurrence of `a` in `names` comes before every occurrence of `b`. */
  ghost predicate SeenBefore(names: seq<string>, a: string, b: string) {
    exists p :: 0 <= p < |names| && names[p] == a && forall q :: 0 <= q <= p ==> names[q] != b
  }

  /**
   * Buckets appear in first-seen order: when bucket `k` comes before bucket
   * `l`, some employee of department `k` comes before every employee of
   * department `l`.
   */
  lemma {:induction false} FirstSeenOrder(names: seq<string>)
    ensures forall k, l :: 0 <= k < l < |FirstSeen(names)| ==> SeenBefore(names, FirstSeen(names)[k], FirstSeen(names)[l])
  {
    if names != [] {
      var p0 := names[..|names| - 1];
      var x := names[|names| - 1];
      var rest := FirstSeen(p0);
      var r := FirstSeen(names);
      FirstSeenOrder(p0);
      forall k, l | 0 <= k < l < |r|
        ensures SeenBefore(names, r[k], r[l])
      {
        if l < |rest| {
          assert r[k] == rest[k] && r[l] == rest[l];
          assert SeenBefore(p0, rest[k], rest[l]);
          var p :| 0 <= p < |p0| && p0[p] == rest[k] && forall q :: 0 <= q <= p ==> p0[q] != rest[l];
          assert names[p] == r[k];
          assert forall q :: 0 <= q <= p ==> names[q] == p0[q];
        } else {
          assert r == rest + [x] && r[l] == x && x !in p0;
          assert r[k] == rest[k] && rest[k] in p0;
          var p :| 0 <= p < |p0| && p0[p] == rest[k];
          assert names[p] == r[k];
          assert forall q :: 0 <= q <= p ==> names[q] == p0[q];
        }
      }
    }
  }

  // ---------------------------------------------------------------------------
  // Recent employees
  // ---------------------------------------------------------------------------

  /** `b._id || b.id || ''`: the text compared when creation times are not both known. */
  function SortKey(e: Member): string {
    OrElse(e.mongoId, OrElse(e.id, ""))
  }

  /**
   * The comparator of calculateRecentEmployees: newer creation time first
   * when both records carry one, otherwise the id texts in descending order.
   */
  function Compare(a: Member, b: Member): (r: int)
    ensures a.createdAt.Some? && b.createdAt.Some? ==>
              (r < 0 <==> a.createdAt.value.millis > b.createdAt.value.millis) &&
              (r == 0 <==> a.createdAt.value.millis == b.createdAt.value.millis)
    ensures !(a.createdAt.Some? && b.createdAt.Some?) ==>
              (r < 0 <==> LexCompare(SortKey(a), SortKey(b)) > 0) && (r == 0 <==> SortKey(a) == SortKey(b))
  {
    LexAntisymmetric(SortKey(a), SortKey(b));
    LexEqual(SortKey(b), SortKey(a));
    if a.createdAt.Some? && b.createdAt.Some? then b.createdAt.value.millis - a.createdAt.value.millis
    else LexCompare(SortKey(b), SortKey(a))
  }

  /** Swapping the two employees negates the comparison. */
  lemma CompareAntisymmetric(a: Member, b: Member)
    ensures Compare(b, a) == -Compare(a, b)
  {
    LexAntisymmetric(SortKey(a), SortKey(b));
  }

  /** The card shown for a recent employee. */
  datatype Card = Card(
    id: Option<string>,
    name: Option<string>,
    position: string,
    department: string,
    status: string,
    employeeId: Option<string>,
    avatar: nat)

  /** The number of avatar glyphs. */
  const AvatarCount := 8

  /** getAvatarForEmployee: the glyph index is the name's length modulo 8; a missing name picks the first. */
  function AvatarIndex(name: Option<string>): (k: nat)
    ensures k < AvatarCount
    ensures name.None? ==> k == 0
    ensures name.Some? ==> k == |name.value| % AvatarCount
  {
    |name.GetOr("")| % AvatarCount
  }

  function CardOf(e: Member): Card {
    Card(
      if Truthy(e.mongoId) then e.mongoId else e.id,
      e.name,
      OrElse(e.position, OrElse(e.designation, "Not Specified")),
      OrElse(e.department, "Unassigned"),
      OrElse(e.status, "Active"),
      e.employeeId,
      AvatarIndex(e.name))
  }

  /** The employees in the comparator's order. */
  function Newest(data: seq<Member>): seq<Member> {
    Sorting.Sort(data, Compare)
  }

  /** calculateRecentEmployees: the first five of the sorted copy, as cards. */
  function Recent(data: seq<Member>): (r: seq<Card>)
    ensures |r| == if |data| < 5 then |data| else 5
    ensures forall i :: 0 <= i < |r| ==> r[i] == CardOf(Newest(data)[i])
  {
    var sorted := Newest(data);
    assert |sorted| == |multiset(sorted)| == |data|;
    var top := if |sorted| < 5 then sorted else sorted[..5];
    Seqs.Map(top, CardOf)
  }

  /** The sorted copy holds exactly the employees given, each as often as given. */
  lemma NewestIsPermutation(data: seq<Member>)
    ensures multiset(Newest(data)) == multiset(data)
  {
  }

  /** Every card shows an employee from the data. */
  lemma RecentFromData(data: seq<Member>)
    ensures forall c :: c in Recent(data) ==> c in Seqs.Map(data, CardOf)
  {
    var sorted := Newest(data);
    var cards := Seqs.Map(data, CardOf);
    forall c | c in Recent(data)
      ensures c in cards
    {
      var i :| 0 <= i < |Recent(data)| && Recent(data)[i] == c;
      assert c == CardOf(sorted[i]);
      assert sorted[i] in multiset(sorted);
      var j :| 0 <= j < |data| && data[j] == sorted[i];
      assert cards[j] == c;
    }
  }

  /** The fallbacks of a card: `_id` then `id`; position, designation, "Not Specified"; "Unassigned"; "Active". */
  lemma CardFallbacks(e: Member)
    ensures !Truthy(e.mongoId) ==> CardOf(e).id == e.id
    ensures !Truthy(e.position) && Truthy(e.designation) ==> CardOf(e).position == e.designation.value
    ensures !Truthy(e.position) && !Truthy(e.designation) ==> CardOf(e).position == "Not Specified"
    ensures !Truthy(e.department) ==> CardOf(e).department == "Unassigned"
    ensures !Truthy(e.status) ==> CardOf(e).status == "Active"
  {
  }

  /** When every employee has a creation time, the comparator is consistent and the sort puts newer first. */
  lemma AllStampedNewestFirst(data: seq<Member>)
    requires forall e :: e in data ==> e.createdAt.Some?
    ensures forall i, j :: 0 <= i < j < |Newest(data)| ==>
      Newest(data)[i].createdAt.Some? && Newest(data)[j].createdAt.Some? &&
      Newest(data)[i].createdAt.value.millis >= Newest(data)[j].createdAt.value.millis
  {
    assert Sorting.ConsistentOn(data, Compare);
    Sorting.SortSorted(data, Compare);
    var sorted := Newest(data);
    forall i | 0 <= i < |sorted|
      ensures sorted[i].createdAt.Some?
    {
      assert sorted[i] in multiset(sorted);
    }
  }

  /** When no employee has a creation time, the sort lists the id texts in descending order. */
  lemma NoneStampedIdsDescending(data: seq<Member>)
    requires forall e :: e in data ==> e.createdAt.None?
    ensures forall i, j :: 0 <= i < j < |Newest(data)| ==>
      LexCompare(SortKey(Newest(data)[j]), SortKey(Newest(data)[i])) <= 0
  {
    forall a, b | a in data && b in data
      ensures Compare(a, b) < 0 <==> Compare(b, a) > 0
    {
      LexAntisymmetric(SortKey(a), SortKey(b));
    }
    forall a, b, c | a in data && b in data && c in data && Compare(a, b) <= 0 && Compare(b, c) <= 0
      ensures Compare(a, c) <= 0
    {
      LexTransitive(SortKey(c), SortKey(b), SortKey(a));
    }
    Sorting.SortSorted(data, Compare);
    var sorted := Newest(data);
    forall i, j | 0 <= i < j < |sorted|
      ensures LexCompare(SortKey(sorted[j]), SortKey(sorted[i])) <= 0
    {
      assert sorted[i] in multiset(sorted) && sorted[j] in multiset(sorted);
      assert Compare(sorted[i], sorted[j]) <= 0;
    }
  }

  // ---------------------------------------------------------------------------
  // New hires
  // ---------------------------------------------------------------------------

  /** Created in the given month (0-11) of the given year; an employee without a creation time never is. */
  predicate HiredIn(e: Member, year: int, month: int) {
    e.createdAt.Some? && e.createdAt.value.month == month && e.createdAt.value.year == year
  }

  function HireTest(year: int, month: int): Member -> bool {
    e => HiredIn(e, year, month)
  }

  /**
   * calculateNewHires: the employees created in the current month of the
   * current year; none exactly when no employee was.
   */
  function NewHires(data: seq<Member>, year: int, month: int): (n: nat)
    ensures n <= |data|
    ensures n == 0 <==> forall i :: 0 <= i < |data| ==> !HiredIn(data[i], year, month)
  {
    Seqs.CountZero(data, HireTest(year, month));
    Seqs.Count(data, HireTest(year, month))
  }

  /** At most every employee is a new hire, and appending one adds one exactly when it was created this month. */
  lemma NewHiresAppend(data: seq<Member>, e: Member, year: int, month: int)
    ensures NewHires(data, year, month) <= |data|
    ensures NewHires(data + [e], year, month) == NewHires(data, year, month) + if HiredIn(e, year, month) then 1 else 0
  {
    assert (data + [e])[..|data|] == data;
  }

  /** An employee without a creation time is never counted. */
  lemma UnstampedNotCounted(data: seq<Member>, year: int, month: int)
    requires forall e :: e in data ==> e.createdAt.None?
    ensures NewHires(data, year, month) == 0
  {
    assert forall i :: 0 <= i < |data| ==> data[i] in data;
    Seqs.CountNone(data, HireTest(year, month));

  }

  // ---------------------------------------------------------------------------
  // The screen's state
  // ---------------------------------------------------------------------------

  /** The figures the overview cards show alongside the employee count. */
  datatype SampleStats = SampleStats(activeProjects: nat, onLeaveToday: nat, newHiresThisMonth: nat)

  /**
   * The stats object as each render builds it: a fresh object from the same
   * literal, whatever an earlier fetch assigned to an earlier render's object.
   */
  function RenderedStats(): (s: SampleStats)
    ensures s.newHiresThisMonth == 7
  {
    SampleStats(24, 7, 7)
  }

  /**
   * The count written by calculateNewHires is never displayed: with one
   * employee hired this month the count is 1, but the card reads the
   * freshly built object, which says 7.
   */
  lemma NewHiresNeverShown()
    ensures var data := [Member(None, Some("1"), None, None, None, None, None, None, Some(Stamp(0, 2024, 0)))];
            NewHires(data, 2024, 0) == 1 && RenderedStats().newHiresThisMonth != NewHires(data, 2024, 0)
  {
    var e := Member(None, Some("1"), None, None, None, None, None, None, Some(Stamp(0, 2024, 0)));
    assert [e] == [] + [e];
    NewHiresAppend([], e, 2024, 0);
  }

  /** The outcome of the employee list request. */
  datatype Load = Loaded(data: seq<Member>) | LoadFailed

  class DashboardView {
    var employees: seq<Member>
    var loading: bool
    var departmentData: seq<Bucket>
    var recentEmployees: seq<Card>
    /** The new-hire count, kept in the screen's state so that renders see it. */
    var newHiresThisMonth: nat

    constructor()
      ensures employees == [] && loading && departmentData == [] && recentEmployees == []
      ensures newHiresThisMonth == RenderedStats().newHiresThisMonth
    {
      employees := [];
      loading := true;
      departmentData := [];
      recentEmployees := [];
      newHiresThisMonth := 7;
    }

    /** The "New Hires" card: "..." (None) while loading, otherwise the count. */
    function ShownNewHires(): Option<nat>
      reads this
    {
      if loading then None else Some(newHiresThisMonth)
    }

    /**
     * fetchEmployees, with the current year and month passed in. A failed
     * request keeps everything shown before; either way loading ends. The
     * new-hire count is kept in view state so that the card shows it: this is
     * the intended behaviour, which EMSDashboard.js as written does not reach
     * (its card always shows 7; `NewHiresNeverShown` models that).
     */
    method FetchEmployees(load: Load, year: int, month: int)
      modifies this
      ensures !loading
      ensures load.LoadFailed? ==>
        (employees == old(employees) && departmentData == old(departmentData)
         && recentEmployees == old(recentEmployees) && newHiresThisMonth == old(newHiresThisMonth))
      ensures load.Loaded? ==>
        (employees == load.data && departmentData == Distribution(load.data) && recentEmployees == Recent(load.data))
      ensures load.Loaded? ==> ShownNewHires() == Some(NewHires(load.data, year, month))
    {
      loading := true;
      match load {
        case LoadFailed =>
        case Loaded(data) => {
          employees := data;
          departmentData := DepartmentDistribution(data);
          recentEmployees := Recent(data);
          newHiresThisMonth := NewHires(data, year, month);
        }
      }
      loading := false;
    }
  }
}
