/**
 * The day-selection controls of the planner: the five preset buttons, which
 * replace `activeDays` wholesale, and the five per-day toggles, which remove
 * a day or append it and re-sort by canonical weekday position.
 */
module ActiveDays {
  import opened Weekly

  /** The preset table, one constructor per entry, in the order it is listed. */
  datatype Preset = FullWeek | NoMonday | NoFriday | NoMonAndFri | WedOnly

  const Presets: seq<Preset> := [FullWeek, NoMonday, NoFriday, NoMonAndFri, WedOnly]

  /**
   * The buttons `Object.entries` lists: every preset once, captioned in the
   * order the table is written.
   */
  lemma PresetButtons()
    ensures forall p: Preset :: p in Presets
    ensures forall i, j :: 0 <= i < j < |Presets| ==> Presets[i] != Presets[j]
    ensures |Presets| == 5
    ensures PresetLabel(Presets[0]) == "Full week (Mon–Fri)" && PresetLabel(Presets[1]) == "No Monday"
    ensures PresetLabel(Presets[2]) == "No Friday" && PresetLabel(Presets[3]) == "No Mon & Fri"
    ensures PresetLabel(Presets[4]) == "Wed Only"
  {
    forall p: Preset ensures p in Presets {
      match p
      case FullWeek => assert Presets[0] == p;
      case NoMonday => assert Presets[1] == p;
      case NoFriday => assert Presets[2] == p;
      case NoMonAndFri => assert Presets[3] == p;
      case WedOnly => assert Presets[4] == p;
    }
  }

  /** The caption of a preset button. */
  function PresetLabel(p: Preset): string
  {
    match p
    case FullWeek => "Full week (Mon–Fri)"
    case NoMonday => "No Monday"
    case NoFriday => "No Friday"
    case NoMonAndFri => "No Mon & Fri"
    case WedOnly => "Wed Only"
  }

  /** The day list a preset installs. */
  function PresetDays(p: Preset): (r: seq<DayKey>)
    ensures Canonical(r) && r != []
  {
    match p
    case FullWeek => [Mon, Tue, Wed, Thu, Fri]
    case NoMonday => [Tue, Wed, Thu, Fri]
    case NoFriday => [Mon, Tue, Wed, Thu]
    case NoMonAndFri => [Tue, Wed, Thu]
    case WedOnly => [Wed]
  }

  /** The preset captions are pairwise different, so the table is a function of its keys. */
  lemma PresetLabelsDistinct(p: Preset, q: Preset)
    ensures PresetLabel(p) == PresetLabel(q) <==> p == q
  {
  }

  /** Each preset keeps exactly the days its caption names. */
  lemma PresetMembership(d: DayKey)
    ensures d in PresetDays(FullWeek)
    ensures d in PresetDays(NoMonday) <==> d != Mon
    ensures d in PresetDays(NoFriday) <==> d != Fri
    ensures d in PresetDays(NoMonAndFri) <==> d != Mon && d != Fri
    ensures d in PresetDays(WedOnly) <==> d == Wed
  {
  }

  /** A preset button: `activeDays` becomes the template's list and nothing else changes. */
  function ChoosePreset(w: WeekData, p: Preset): (r: WeekData)
    ensures r.activeDays == PresetDays(p) && Canonical(r.activeDays)
    ensures r.(activeDays := w.activeDays) == w
  {
    w.(activeDays := PresetDays(p))
  }

  /** Prepending a day that comes no later than every member keeps a list sorted. */
  lemma ConsSorted(h: DayKey, t: seq<DayKey>)
    requires SortedByDay(t)
    requires forall x :: x in t ==> DayIndex(h) <= DayIndex(x)
    ensures SortedByDay([h] + t)
  {
    var s := [h] + t;
    forall i, j | 0 <= i < j < |s| ensures DayIndex(s[i]) <= DayIndex(s[j]) {
      if i > 0 {
        assert s[i] == t[i - 1] && s[j] == t[j - 1];
      } else {
        assert s[j] == t[j - 1];
      }
    }
  }

  /** Prepending a day that comes strictly before every member keeps a list canonical. */
  lemma ConsCanonical(h: DayKey, t: seq<DayKey>)
    requires Canonical(t)
    requires forall x :: x in t ==> DayIndex(h) < DayIndex(x)
    ensures Canonical([h] + t)
  {
    var s := [h] + t;
    forall i, j | 0 <= i < j < |s| ensures DayIndex(s[i]) < DayIndex(s[j]) {
      if i > 0 {
        assert s[i] == t[i - 1] && s[j] == t[j - 1];
      } else {
        assert s[j] == t[j - 1];
      }
    }
  }

  /** The tail of a sorted list is sorted and comes no earlier than its head. */
  lemma SortedTail(s: seq<DayKey>)
    requires SortedByDay(s) && s != []
    ensures SortedByDay(s[1..])
    ensures forall x :: x in s[1..] ==> DayIndex(s[0]) <= DayIndex(x)
  {
    forall x | x in s[1..] ensures DayIndex(s[0]) <= DayIndex(x) {
      var k :| 0 <= k < |s[1..]| && s[1..][k] == x;
      assert s[k + 1] == x;
    }
  }

  /** The tail of a canonical list is canonical and comes strictly after its head. */
  lemma CanonicalTail(s: seq<DayKey>)
    requires Canonical(s) && s != []
    ensures Canonical(s[1..])
    ensures forall x :: x in s[1..] ==> DayIndex(s[0]) < DayIndex(x)
  {
    forall x | x in s[1..] ensures DayIndex(s[0]) < DayIndex(x) {
      var k :| 0 <= k < |s[1..]| && s[1..][k] == x;
      assert s[k + 1] == x;
    }
  }

  /** `days.filter(x => x !== d)` */
  function RemoveDay(days: seq<DayKey>, d: DayKey): (r: seq<DayKey>)
    ensures forall x :: x in r <==> x in days && x != d
    ensures multiset(r) == multiset(days)[d := 0]
  {
    if days == [] then []
    else
      assert days == [days[0]] + days[1..];
      var rest := RemoveDay(days[1..], d);
      if days[0] == d then rest
      else [days[0]] + rest
  }

  /** Filtering a day out keeps a sorted list sorted and a canonical list canonical. */
  lemma {:induction false} RemoveDayOrdered(days: seq<DayKey>, d: DayKey)
    ensures SortedByDay(days) ==> SortedByDay(RemoveDay(days, d))
    ensures Canonical(days) ==> Canonical(RemoveDay(days, d))
  {
    if days != [] {
      RemoveDayOrdered(days[1..], d);
      var rest := RemoveDay(days[1..], d);
      if SortedByDay(days) {
        SortedTail(days);
        if days[0] != d {
          ConsSorted(days[0], rest);
        }
      }
      if Canonical(days) {
        CanonicalTail(days);
        if days[0] != d {
          ConsCanonical(days[0], rest);
        }
      }
    }
  }

  /** The filter keeps the other days in their previous relative order: it splits over concatenation. */
  lemma {:induction false} RemoveDayConcat(a: seq<DayKey>, b: seq<DayKey>, d: DayKey)
    ensures RemoveDay(a + b, d) == RemoveDay(a, d) + RemoveDay(b, d)
  {
    if a == [] {
      assert a + b == b;
    } else {
      assert (a + b)[0] == a[0];
      assert (a + b)[1..] == a[1..] + b;
      RemoveDayConcat(a[1..], b, d);
    }
  }

  /** Inserts `x` after every element whose weekday position is smaller. */
  function InsertByDay(x: DayKey, s: seq<DayKey>): (r: seq<DayKey>)
    ensures forall y :: y in r <==> y == x || y in s
    ensures multiset(r) == multiset(s) + multiset{x}
  {
    if s == [] then [x]
    else if DayIndex(x) <= DayIndex(s[0]) then
      [x] + s
    else
      assert s == [s[0]] + s[1..];
      [s[0]] + InsertByDay(x, s[1..])
  }

  /** Inserting keeps a sorted list sorted, and a canonical one canonical when the day is new. */
  lemma {:induction false} InsertByDayOrdered(x: DayKey, s: seq<DayKey>)
    ensures SortedByDay(s) ==> SortedByDay(InsertByDay(x, s))
    ensures Canonical(s) && x !in s ==> Canonical(InsertByDay(x, s))
  {
    if s == [] {
    } else if DayIndex(x) <= DayIndex(s[0]) {
      if SortedByDay(s) {
        SortedTail(s);
        ConsSorted(x, s);
      }
      if Canonical(s) && x !in s {
        CanonicalTail(s);
        DayIndexInjective(x, s[0]);
        ConsCanonical(x, s);
      }
    } else {
      InsertByDayOrdered(x, s[1..]);
      var rest := InsertByDay(x, s[1..]);
      if SortedByDay(s) {
        SortedTail(s);
        ConsSorted(s[0], rest);
      }
      if Canonical(s) && x !in s {
        CanonicalTail(s);
        ConsCanonical(s[0], rest);
      }
    }
  }

  /**
   * `.sort((a, b) => WEEKDAYS.indexOf(a) - WEEKDAYS.indexOf(b))`, as an
   * insertion sort. Which stable sort the runtime uses does not matter:
   * `SortedUnique` shows there is only one sorted permutation.
   */
  function SortByDay(s: seq<DayKey>): (r: seq<DayKey>)
    ensures multiset(r) == multiset(s)
    ensures SortedByDay(r)
  {
    if s == [] then []
    else
      assert s == [s[0]] + s[1..];
      var rest := SortByDay(s[1..]);
      InsertByDayOrdered(s[0], rest);
      InsertByDay(s[0], rest)
  }

  /** In a sorted list the head has the smallest weekday position of all members. */
  lemma SortedHeadMinimal(s: seq<DayKey>, x: DayKey)
    requires SortedByDay(s) && x in multiset(s)
    ensures DayIndex(s[0]) <= DayIndex(x)
  {
    var k :| 0 <= k < |s| && s[k] == x;
  }

  /** Two sorted arrangements of the same days are the same list. */
  lemma {:induction false} SortedUnique(a: seq<DayKey>, b: seq<DayKey>)
    requires SortedByDay(a) && SortedByDay(b)
    requires multiset(a) == multiset(b)
    ensures a == b
  {
    if a != [] {
      assert a == [a[0]] + a[1..];
      assert |b| == |multiset(b)| == |multiset(a)| == |a|;
      assert b == [b[0]] + b[1..];
      assert b[0] in multiset(b) && a[0] in multiset(a);
      SortedHeadMinimal(a, b[0]);
      SortedHeadMinimal(b, a[0]);
      DayIndexInjective(a[0], b[0]);
      assert multiset(a[1..]) == multiset(a) - multiset{a[0]};
      assert multiset(b[1..]) == multiset(b) - multiset{b[0]};
      SortedTail(a);
      SortedTail(b);
      SortedUnique(a[1..], b[1..]);
    }
  }

  /**
   * The per-day toggle: an active day is filtered out, an inactive one is
   * appended and the list re-sorted.
   */
  function ToggleDay(days: seq<DayKey>, d: DayKey): (r: seq<DayKey>)
    ensures d in r <==> d !in days
    ensures forall x :: x != d ==> (x in r <==> x in days)
  {
    if d in days then RemoveDay(days, d)
    else
      var r := SortByDay(days + [d]);
      assert forall x :: x in r <==> x in multiset(days) + multiset{d};
      r
  }

  /** Toggling an active day removes exactly that day and keeps the rest in order. */
  lemma ToggleOff(days: seq<DayKey>, d: DayKey)
    requires d in days
    ensures d !in ToggleDay(days, d)
    ensures multiset(ToggleDay(days, d)) == multiset(days)[d := 0]
    ensures forall a, b :: days == a + b ==> ToggleDay(days, d) == RemoveDay(a, d) + RemoveDay(b, d)
  {
    forall a, b | days == a + b ensures ToggleDay(days, d) == RemoveDay(a, d) + RemoveDay(b, d) {
      RemoveDayConcat(a, b, d);
    }
  }

  /** Toggling an inactive day yields the old days plus that day, in weekday order. */
  lemma ToggleOn(days: seq<DayKey>, d: DayKey)
    requires d !in days
    ensures d in ToggleDay(days, d)
    ensures multiset(ToggleDay(days, d)) == multiset(days) + multiset{d}
    ensures SortedByDay(ToggleDay(days, d))
  {
    assert d in multiset(ToggleDay(days, d));
  }

  /** Inserting into a canonical list by sorting is the same as inserting in place. */
  lemma SortAppendCanonical(days: seq<DayKey>, d: DayKey)
    requires Canonical(days) && d !in days
    ensures SortByDay(days + [d]) == InsertByDay(d, days)
    ensures Canonical(SortByDay(days + [d]))
  {
    var sorted, inserted := SortByDay(days + [d]), InsertByDay(d, days);
    assert multiset(days + [d]) == multiset(days) + multiset{d};
    InsertByDayOrdered(d, days);
    SortedUnique(sorted, inserted);
  }

  /** Either toggle keeps `activeDays` an ordered subset of the weekdays. */
  lemma ToggleKeepsCanonical(days: seq<DayKey>, d: DayKey)
    requires Canonical(days)
    ensures Canonical(ToggleDay(days, d))
  {
    if d !in days {
      SortAppendCanonical(days, d);
    } else {
      RemoveDayOrdered(days, d);
    }
  }

  /** Removing a day from a canonical list and toggling it back restores the list. */
  lemma ReinsertRestores(days: seq<DayKey>, d: DayKey)
    requires Canonical(days) && d in days
    ensures SortByDay(RemoveDay(days, d) + [d]) == days
  {
    CanonicalCount(days, d);
    CanonicalSorted(days);
    var removed := RemoveDay(days, d);
    var back := SortByDay(removed + [d]);
    assert multiset(days) == multiset(days)[d := 0] + multiset{d};
    assert multiset(removed + [d]) == multiset(removed) + multiset{d};
    SortedUnique(back, days);
  }

  /** Adding a day missing from a canonical list and filtering it out again restores the list. */
  lemma RemoveRestores(days: seq<DayKey>, d: DayKey)
    requires Canonical(days) && d !in days
    ensures RemoveDay(SortByDay(days + [d]), d) == days
  {
    CanonicalSorted(days);
    var added := SortByDay(days + [d]);
    assert multiset(days + [d]) == multiset(days) + multiset{d};
    var back := RemoveDay(added, d);
    assert multiset(back) == (multiset(days) + multiset{d})[d := 0];
    assert multiset(back) == multiset(days);
    RemoveDayOrdered(added, d);
    SortedUnique(back, days);
  }

  /** On a canonical list, toggling the same day twice gives the list back. */
  lemma ToggleTwice(days: seq<DayKey>, d: DayKey)
    requires Canonical(days)
    ensures ToggleDay(ToggleDay(days, d), d) == days
  {
    if d in days {
      assert d !in RemoveDay(days, d);
      ReinsertRestores(days, d);
    } else {
      ToggleOn(days, d);
      RemoveRestores(days, d);
    }
  }

  /** The toggle handler: only `activeDays` changes. */
  function ApplyToggle(w: WeekData, d: DayKey): (r: WeekData)
    ensures d in r.activeDays <==> d !in w.activeDays
    ensures forall x :: x != d ==> (x in r.activeDays <==> x in w.activeDays)
    ensures r.(activeDays := w.activeDays) == w
  {
    var r := w.(activeDays := ToggleDay(w.activeDays, d));
    if d in w.activeDays then
      r
    else
      ToggleOn(w.activeDays, d);
      assert forall x :: x in r.activeDays <==> x in multiset(w.activeDays) + multiset{d};
      r
  }

  /** Toggling a day twice on a week whose active days are canonical gives the same week back. */
  lemma ApplyToggleTwice(w: WeekData, d: DayKey)
    requires Canonical(w.activeDays)
    ensures ApplyToggle(ApplyToggle(w, d), d) == w
  {
    ToggleTwice(w.activeDays, d);
  }
}
