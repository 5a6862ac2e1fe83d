/**
 * The "Upcoming Due Dates" list: the weekly assignments tagged as weekly,
 * then every day plan's assignments tagged with their day in canonical
 * order, keeping only the entries whose `due` is truthy.
 */
module DueDates {
  import opened Weekly

  /** Where a due entry came from: the weekly list or one day's plan. */
  datatype Source = Weekly | Day(day: DayKey)

  /** `{ source, ...a }`: an assignment tagged with its origin. */
  datatype DueEntry = DueEntry(source: Source, title: string, due: Option<string>)

  /** The `source` string of an entry: "Weekly" or the day label. */
  function SourceLabel(s: Source): string
  {
    match s
    case Weekly => "Weekly"
    case Day(d) => DayLabel(d)
  }

  /** The assignment an entry was made from. */
  function Untagged(e: DueEntry): Assignment
  {
    Assignment(e.title, e.due)
  }

  /** `items.map(a => ({ source, ...a }))` */
  function Tag(src: Source, items: seq<Assignment>): (r: seq<DueEntry>)
    ensures |r| == |items|
  {
    if items == [] then [] else [DueEntry(src, items[0].title, items[0].due)] + Tag(src, items[1..])
  }

  /** Entry `k` of a tagged list is assignment `k` with the source attached. */
  lemma {:induction false} TagAt(src: Source, items: seq<Assignment>, k: nat)
    requires k < |items|
    ensures Tag(src, items)[k].source == src && Untagged(Tag(src, items)[k]) == items[k]
  {
    if k > 0 {
      TagAt(src, items[1..], k - 1);
    }
  }

  /** `WEEKDAYS.flatMap(day => (d.dayPlans?.[day]?.assignments || []).map(...))` over `days`. */
  function FromDaily(w: WeekData, days: seq<DayKey>): seq<DueEntry>
  {
    if days == [] then [] else Tag(Day(days[0]), PlanAssignments(w, days[0])) + FromDaily(w, days[1..])
  }

  /** `.filter(x => !!x.due)` on tagged entries. */
  function KeepDue(es: seq<DueEntry>): (r: seq<DueEntry>)
    ensures forall e :: e in r <==> e in es && Truthy(e.due)
    ensures |r| <= |es|
  {
    if es == [] then []
    else
      assert es == [es[0]] + es[1..];
      if Truthy(es[0].due) then [es[0]] + KeepDue(es[1..]) else KeepDue(es[1..])
  }

  /** `upcomingDueDates(d)` */
  function UpcomingDueDates(w: WeekData): (r: seq<DueEntry>)
    ensures forall e :: e in r <==> (e in Tag(Weekly, w.assignments) || e in FromDaily(w, Weekdays)) && Truthy(e.due)
  {
    KeepDue(Tag(Weekly, w.assignments) + FromDaily(w, Weekdays))
  }

  /** `items.filter(a => !!a.due)`, the untagged filter used by the self-check. */
  function DueAssignments(items: seq<Assignment>): (r: seq<Assignment>)
    ensures forall a :: a in r <==> a in items && Truthy(a.due)
    ensures |r| <= |items|
  {
    if items == [] then []
    else
      assert items == [items[0]] + items[1..];
      if Truthy(items[0].due) then [items[0]] + DueAssignments(items[1..]) else DueAssignments(items[1..])
  }

  /** `WEEKDAYS.reduce((acc, day) => acc + <due count of day>, acc)`, folding from the left over `days`. */
  function SumDailyDue(w: WeekData, days: seq<DayKey>, acc: nat): (r: nat)
    ensures acc <= r <= acc + |FromDaily(w, days)|
  {
    if days == [] then acc
    else SumDailyDue(w, days[1..], acc + |DueAssignments(PlanAssignments(w, days[0]))|)
  }

  /** The self-check's independently computed count of assignments with a due value. */
  function DueExpected(w: WeekData): (r: nat)
    ensures r == |Group(w, Weekly)| + |DailyGroups(w, Weekdays)|
  {
    SumDailyDueCounts(w, Weekdays, 0);
    |DueAssignments(w.assignments)| + SumDailyDue(w, Weekdays, 0)
  }

  /**
   * The reference list: each source's assignments filtered first and tagged
   * afterwards, weekly first and then Monday to Friday.
   */
  function DueByGroup(w: WeekData): seq<DueEntry>
  {
    Group(w, Weekly) + (Group(w, Day(Mon)) + (Group(w, Day(Tue))
      + (Group(w, Day(Wed)) + (Group(w, Day(Thu)) + Group(w, Day(Fri))))))
  }

  /** One source's due assignments, tagged with that source, in their original order. */
  function Group(w: WeekData, src: Source): seq<DueEntry>
  {
    Tag(src, DueAssignments(Origin(w, src)))
  }

  /** The assignment list a source draws from. */
  function Origin(w: WeekData, src: Source): seq<Assignment>
  {
    match src
    case Weekly => w.assignments
    case Day(d) => PlanAssignments(w, d)
  }

  /** Filtering splits over concatenation, so it keeps the order of what it keeps. */
  lemma {:induction false} KeepDueConcat(a: seq<DueEntry>, b: seq<DueEntry>)
    ensures KeepDue(a + b) == KeepDue(a) + KeepDue(b)
  {
    if a == [] {
      assert a + b == b;
    } else {
      assert (a + b)[0] == a[0];
      assert (a + b)[1..] == a[1..] + b;
      KeepDueConcat(a[1..], b);
    }
  }

  /** Tagging then filtering equals filtering then tagging. */
  lemma {:induction false} KeepDueTag(src: Source, items: seq<Assignment>)
    ensures KeepDue(Tag(src, items)) == Tag(src, DueAssignments(items))
  {
    if items != [] {
      var t := Tag(src, items);
      assert t == [t[0]] + Tag(src, items[1..]);
      KeepDueTag(src, items[1..]);
    }
  }

  /** An entry is among the tagged assignments exactly when its assignment is in the list. */
  lemma TagMembership(src: Source, items: seq<Assignment>, e: DueEntry)
    ensures e in Tag(src, items) <==> e.source == src && Untagged(e) in items
  {
    var t := Tag(src, items);
    if e.source == src && Untagged(e) in items {
      var k :| 0 <= k < |items| && items[k] == Untagged(e);
      TagAt(src, items, k);
      assert t[k] == e;
    }
    if e in t {
      var k :| 0 <= k < |t| && t[k] == e;
      TagAt(src, items, k);
    }
  }

  /** The daily part of the list, filtered, is the daily groups one after another. */
  lemma {:induction false} KeepDueDaily(w: WeekData, days: seq<DayKey>)
    ensures KeepDue(FromDaily(w, days)) == DailyGroups(w, days)
  {
    if days != [] {
      KeepDueConcat(Tag(Day(days[0]), PlanAssignments(w, days[0])), FromDaily(w, days[1..]));
      KeepDueTag(Day(days[0]), PlanAssignments(w, days[0]));
      KeepDueDaily(w, days[1..]);
    }
  }

  /** Each day's due assignments, tagged, in the order of `days`. */
  function DailyGroups(w: WeekData, days: seq<DayKey>): seq<DueEntry>
  {
    if days == [] then []
    else Group(w, Day(days[0])) + DailyGroups(w, days[1..])
  }

  /** Over the five weekdays, the daily groups are Monday's to Friday's in turn. */
  lemma DailyGroupsWeekdays(w: WeekData)
    ensures DailyGroups(w, Weekdays) ==
      Group(w, Day(Mon)) + (Group(w, Day(Tue)) + (Group(w, Day(Wed)) + (Group(w, Day(Thu)) + Group(w, Day(Fri)))))
  {
    var fri := DailyGroups(w, [Fri]);
    assert fri == Group(w, Day(Fri)) by {
      assert [Fri][1..] == [];
      assert DailyGroups(w, [Fri][1..]) == [];
      assert Group(w, Day(Fri)) + [] == Group(w, Day(Fri));
    }
    var thu := DailyGroups(w, [Thu, Fri]);
    assert thu == Group(w, Day(Thu)) + fri by {
      assert [Thu, Fri][1..] == [Fri];
    }
    var wed := DailyGroups(w, [Wed, Thu, Fri]);
    assert wed == Group(w, Day(Wed)) + thu by {
      assert [Wed, Thu, Fri][1..] == [Thu, Fri];
    }
    var tue := DailyGroups(w, [Tue, Wed, Thu, Fri]);
    assert tue == Group(w, Day(Tue)) + wed by {
      assert [Tue, Wed, Thu, Fri][1..] == [Wed, Thu, Fri];
    }
    assert DailyGroups(w, Weekdays) == Group(w, Day(Mon)) + tue by {
      assert Weekdays[1..] == [Tue, Wed, Thu, Fri];
    }
  }

  /**
   * Ordering: the list is the weekly entries first, in their order, then the
   * entries of Monday, Tuesday, Wednesday, Thursday and Friday, each group in
   * its own order.
   */
  lemma UpcomingIsGrouped(w: WeekData)
    ensures UpcomingDueDates(w) == DueByGroup(w)
  {
    var weekly, daily := Tag(Weekly, w.assignments), FromDaily(w, Weekdays);
    assert UpcomingDueDates(w) == KeepDue(weekly + daily);
    KeepDueConcat(weekly, daily);
    KeepDueTag(Weekly, w.assignments);
    assert KeepDue(weekly) == Group(w, Weekly);
    KeepDueDaily(w, Weekdays);
    DailyGroupsWeekdays(w);
  }

  /** Every entry has a non-empty due and one of the six source labels. */
  lemma UpcomingSound(w: WeekData)
    ensures forall e :: e in UpcomingDueDates(w) ==>
      Truthy(e.due) && SourceLabel(e.source) in {"Weekly", "Mon", "Tue", "Wed", "Thu", "Fri"}
  {
  }

  /** An entry is among the daily entries of `days` exactly when its day is one of them and its plan holds it. */
  lemma {:induction false} FromDailyMembership(w: WeekData, days: seq<DayKey>, e: DueEntry)
    ensures e in FromDaily(w, days) <==>
      e.source.Day? && e.source.day in days && Untagged(e) in PlanAssignments(w, e.source.day)
  {
    if days != [] {
      TagMembership(Day(days[0]), PlanAssignments(w, days[0]), e);
      FromDailyMembership(w, days[1..], e);
      assert forall d :: d in days <==> d == days[0] || d in days[1..] by {
        assert days == [days[0]] + days[1..];
      }
    }
  }

  /**
   * An entry is listed exactly when it has a truthy due and its assignment
   * appears in the list its source names.
   */
  lemma UpcomingMembership(w: WeekData, e: DueEntry)
    ensures e in UpcomingDueDates(w) <==> Truthy(e.due) && Untagged(e) in Origin(w, e.source)
  {
    TagMembership(Weekly, w.assignments, e);
    FromDailyMembership(w, Weekdays, e);
    WeekdaysCanonical();
  }

  /** The left fold starting from `acc` adds the daily counts to `acc`. */
  lemma {:induction false} SumDailyDueCounts(w: WeekData, days: seq<DayKey>, acc: nat)
    ensures SumDailyDue(w, days, acc) == acc + |DailyGroups(w, days)|
  {
    if days != [] {
      SumDailyDueCounts(w, days[1..], acc + |DueAssignments(PlanAssignments(w, days[0]))|);
    }
  }

  /**
   * The self-check's count always matches: the list is as long as
   * the weekly due assignments plus, over Monday to Friday, each day's.
   */
  lemma DueCountMatches(w: WeekData)
    ensures |UpcomingDueDates(w)| == DueExpected(w)
  {
    KeepDueConcat(Tag(Weekly, w.assignments), FromDaily(w, Weekdays));
    KeepDueTag(Weekly, w.assignments);
    KeepDueDaily(w, Weekdays);
    SumDailyDueCounts(w, Weekdays, 0);
  }

  /** A source whose list is one due assignment contributes exactly that entry. */
  lemma SingleDueGroup(w: WeekData, src: Source, a: Assignment)
    requires Origin(w, src) == [a] && Truthy(a.due)
    ensures Group(w, src) == [DueEntry(src, a.title, a.due)]
  {
    assert [a][1..] == [];
    assert DueAssignments([a]) == [a];
  }

  /**
   * The worked ordering example: weekly A due Wed, Monday's B due Mon and
   * Thursday's C due Thu come out as A, B, C, whether the other days have an
   * empty plan or none at all.
   */
  lemma OrderingExample(w: WeekData)
    requires w.assignments == [Assignment("A", Some("Wed"))]
    requires PlanAssignments(w, Mon) == [Assignment("B", Some("Mon"))]
    requires PlanAssignments(w, Thu) == [Assignment("C", Some("Thu"))]
    requires PlanAssignments(w, Tue) == [] && PlanAssignments(w, Wed) == [] && PlanAssignments(w, Fri) == []
    ensures UpcomingDueDates(w) == [DueEntry(Weekly, "A", Some("Wed")),
                                    DueEntry(Day(Mon), "B", Some("Mon")),
                                    DueEntry(Day(Thu), "C", Some("Thu"))]
  {
    UpcomingIsGrouped(w);
    SingleDueGroup(w, Weekly, Assignment("A", Some("Wed")));
    SingleDueGroup(w, Day(Mon), Assignment("B", Some("Mon")));
    SingleDueGroup(w, Day(Thu), Assignment("C", Some("Thu")));
    assert Group(w, Day(Tue)) == [] && Group(w, Day(Wed)) == [] && Group(w, Day(Fri)) == [];
  }

  /** The same example on a week whose plan record has all five days, three of them empty. */
  lemma OrderingExampleFullRecord(w: WeekData)
    requires w.assignments == [Assignment("A", Some("Wed"))]
    requires w.dayPlans == map[Mon := DayPlan([Assignment("B", Some("Mon"))], ""), Tue := DayPlan([], ""),
                               Wed := DayPlan([], ""), Thu := DayPlan([Assignment("C", Some("Thu"))], ""),
                               Fri := DayPlan([], "")]
    ensures UpcomingDueDates(w) == [DueEntry(Weekly, "A", Some("Wed")),
                                    DueEntry(Day(Mon), "B", Some("Mon")),
                                    DueEntry(Day(Thu), "C", Some("Thu"))]
  {
    OrderingExample(w);
  }
}
