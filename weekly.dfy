/**
 * The data model of the weekly gameplan page: the five school days, the
 * records a week is made of, and the canonical weekday order.
 */
module Weekly {

  datatype Option<+T> = None | Some(value: T)

  /** One of the five school days (the `DayKey` union of string literals). */
  datatype DayKey = Mon | Tue | Wed | Thu | Fri

  /** The canonical weekday order, Monday first. */
  const Weekdays: seq<DayKey> := [Mon, Tue, Wed, Thu, Fri]

  /** The label a day carries on screen and in the `source` of a due entry. */
  function DayLabel(d: DayKey): string
  {
    match d
    case Mon => "Mon"
    case Tue => "Tue"
    case Wed => "Wed"
    case Thu => "Thu"
    case Fri => "Fri"
  }

  /** A warm-up link; the source calls the caption `label`, a Dafny keyword. */
  datatype WarmupItem = WarmupItem(caption: string, url: string)

  /** `due` is optional; an absent or empty due is falsy in the page's tests. */
  datatype Assignment = Assignment(title: string, due: Option<string>)

  datatype VideoItem = VideoItem(title: string, url: string)

  datatype Theme = Theme(primary: string, accent: string, paper: string)

  datatype Standard = Standard(code: string, text: string)

  datatype DayPlan = DayPlan(assignments: seq<Assignment>, notes: string)

  /**
   * The aggregate the page renders and edits. The per-day records are maps
   * keyed by day; the page reads them defensively, so a missing key is
   * allowed here and read as an empty entry.
   */
  datatype WeekData = WeekData(
    weekLabel: string,
    theme: Theme,
    standard: Standard,
    lessons: seq<string>,
    assignments: seq<Assignment>,
    announcements: seq<string>,
    warmups: map<DayKey, seq<WarmupItem>>,
    dayPlans: map<DayKey, DayPlan>,
    videos: seq<VideoItem>,
    logoText: string,
    logoUrl: Option<string>,
    activeDays: seq<DayKey>)

  /** The plan used when a day has none yet. */
  const BlankDay: DayPlan := DayPlan([], "")

  /** JavaScript truthiness of an optional string: present and non-empty. */
  predicate Truthy(s: Option<string>)
    ensures !Truthy(s) <==> s == None || s == Some("")
  {
    s.Some? && s.value != ""
  }

  /** `d.dayPlans[day]?.assignments || []` */
  function PlanAssignments(w: WeekData, day: DayKey): seq<Assignment>
  {
    if day in w.dayPlans then w.dayPlans[day].assignments else []
  }

  /** `d.warmups[day] || []` */
  function WarmupsOf(w: WeekData, day: DayKey): seq<WarmupItem>
  {
    if day in w.warmups then w.warmups[day] else []
  }

  /** `Array.prototype.indexOf`: the first position of `x` in `s`, or -1. */
  function IndexOf(s: seq<DayKey>, x: DayKey): (i: int)
    ensures -1 <= i < |s|
    ensures i == -1 <==> x !in s
    ensures 0 <= i ==> s[i] == x && x !in s[..i]
  {
    if |s| == 0 then -1
    else if s[0] == x then 0
    else
      var j := IndexOf(s[1..], x);
      if j == -1 then -1
      else
        assert s[..j + 1] == [s[0]] + s[1..][..j];
        j + 1
  }

  /** The position of a day in the canonical order, the sort key of the day toggles. */
  function DayIndex(d: DayKey): (i: nat)
    ensures i < |Weekdays| && Weekdays[i] == d
  {
    match d
    case Mon => 0
    case Tue => 1
    case Wed => 2
    case Thu => 3
    case Fri => 4
  }

  /** `WEEKDAYS.indexOf(d)` finds every day, at the position `DayIndex` gives it. */
  lemma IndexOfWeekdays(d: DayKey)
    ensures IndexOf(Weekdays, d) == DayIndex(d)
  {
  }

  /** Every day has its own position in the canonical order. */
  lemma DayIndexInjective(a: DayKey, b: DayKey)
    ensures DayIndex(a) == DayIndex(b) <==> a == b
  {
  }

  /** Sorted by canonical weekday position, repeats allowed. */
  predicate SortedByDay(s: seq<DayKey>)
  {
    forall i, j :: 0 <= i < j < |s| ==> DayIndex(s[i]) <= DayIndex(s[j])
  }

  /**
   * Strictly increasing in canonical position: an ordered subset of the
   * weekdays with no day twice, the form `activeDays` is meant to have.
   */
  predicate Canonical(s: seq<DayKey>)
  {
    forall i, j :: 0 <= i < j < |s| ==> DayIndex(s[i]) < DayIndex(s[j])
  }

  /** A canonical list is in particular sorted. */
  lemma CanonicalSorted(s: seq<DayKey>)
    requires Canonical(s)
    ensures SortedByDay(s)
  {
  }

  /** The canonical order is itself canonical and names every day. */
  lemma WeekdaysCanonical()
    ensures Canonical(Weekdays)
    ensures forall d: DayKey :: d in Weekdays
    ensures forall i :: 0 <= i < |Weekdays| ==> DayIndex(Weekdays[i]) == i
  {
    forall d: DayKey ensures d in Weekdays {
      assert Weekdays[DayIndex(d)] == d;
    }
  }

  /** A canonical list holds each day at most once. */
  lemma {:induction false} CanonicalCount(s: seq<DayKey>, x: DayKey)
    requires Canonical(s)
    ensures multiset(s)[x] <= 1
  {
    if s != [] {
      assert s == [s[0]] + s[1..];
      CanonicalCount(s[1..], x);
      if s[0] == x {
        assert x !in s[1..] by {
          forall k | 0 <= k < |s[1..]| ensures s[1..][k] != x {
            assert DayIndex(s[0]) < DayIndex(s[k + 1]);
          }
        }
      }
    }
  }
}
