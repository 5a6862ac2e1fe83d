/**
 * The two static weeks the page ships with, the regular track and the
 * accelerated one, and what the self-checks report for them.
 */
module SampleWeeks {
  import opened Weekly
  import opened DueDates
  import opened DevChecks
  import Edits

  const BaseTheme: Theme := Theme("#0b4da2", "#15a1e6", "#faf7f2")

  const CoreLogo: string := "https://drive.google.com/uc?id=1ckhsKopfwDLRiMmAetSP-zcUzzsUFZHj"
  const AccelLogo: string := "https://drive.google.com/uc?id=XirbZmB2Rq2YNsTD2LZhBF"

  const CoreWeek: WeekData := WeekData(
    "Week of Sep 22–26",
    BaseTheme,
    Standard("6.NS.A.1",
      "Interpret and compute quotients of fractions; solve word problems involving division of fractions by fractions."),
    [ "Dividing fractions with visual models",
      "Keep-Change-Flip strategy + error analysis",
      "Dividing mixed numbers; simplify answers",
      "Real-world word problems (3-Act Task)",
      "Weekly spiral review + quick check" ],
    [ Assignment("Practice Set: Dividing Fractions #1", Some("Wed")),
      Assignment("Word Problems Mini-Project (pairs)", Some("Fri")) ],
    [ "Bring charged Chromebooks daily.",
      "Quiz next Tuesday — notes allowed, no calculators." ],
    map[
      Mon := [WarmupItem("Estimation 180 #23", "https://example.com/estimation-23")],
      Tue := [WarmupItem("Which One Doesn’t Belong?", "https://wodb.ca/")],
      Wed := [WarmupItem("Number Talk: 3/4 ÷ 1/2", "#")],
      Thu := [WarmupItem("Visual Pattern #112", "https://www.visualpatterns.org/")],
      Fri := [WarmupItem("Friday Puzzle: Cross-Number #5", "#")]
    ],
    map[
      Mon := DayPlan([Assignment("Notebook Setup Check", None)], "Emphasize model-first."),
      Tue := DayPlan([Assignment("Exit Ticket: KCF 3 items", None)], "Error analysis pairs."),
      Wed := DayPlan([], ""),
      Thu := DayPlan([Assignment("Word Problem Draft", None)], "Vocabulary: divisor, quotient."),
      Fri := DayPlan([Assignment("Quick Check", None)], "Celebrate effort shoutouts.")
    ],
    [ VideoItem("Dividing Fractions — Visual Models", "https://youtu.be/dQw4w9WgXcQ"),
      VideoItem("Keep-Change-Flip in 90 Seconds", "#") ],
    "Big Dog Math 6",
    Some(CoreLogo),
    Weekdays)

  /** `{ ...coreWeek, logoText, logoUrl, standard, lessons }` */
  const AccelWeek: WeekData := CoreWeek.(
    logoText := "Big Dog Accelerated 6",
    logoUrl := Some(AccelLogo),
    standard := Standard("6.NS.A.1+ (Accelerated)",
      "Extend division of fractions to mixed numbers; multi-step problems and error analysis."),
    lessons := [
      "Fluency sprint: reciprocal reasoning",
      "Word problems — rate & ratio contexts",
      "Dividing mixed numbers — shortcuts & proofs",
      "3-Act Task (extension) + student write-ups",
      "Challenge set + reflection" ])

  /**
   * The accelerated week is the regular week with its label, logo,
   * standard and lessons replaced, and both weeks start on all five days,
   * so either is a valid seed for the page.
   */
  lemma SampleWeekFields()
    ensures AccelWeek.(logoText := CoreWeek.logoText, logoUrl := CoreWeek.logoUrl,
                       standard := CoreWeek.standard, lessons := CoreWeek.lessons) == CoreWeek
    ensures AccelWeek.logoText != CoreWeek.logoText && AccelWeek.logoUrl != CoreWeek.logoUrl
    ensures CoreWeek.activeDays == Weekdays && AccelWeek.activeDays == Weekdays
    ensures Canonical(CoreWeek.activeDays) && Canonical(AccelWeek.activeDays)
  {
    WeekdaysCanonical();
    assert AccelWeek.logoText[10] != CoreWeek.logoText[10];
  }

  /** The regular week has one warm-up a day and titled videos. */
  lemma CoreWeekWellFormed()
    ensures WarmupsOk(CoreWeek) && VideosOk(CoreWeek)
  {
    forall i | 0 <= i < |Weekdays| ensures |WarmupsOf(CoreWeek, Weekdays[i])| <= 1 {
      assert Weekdays[i] in CoreWeek.warmups;
    }
  }

  /** A list whose entries all lack a due value keeps nothing. */
  lemma {:induction false} NoneDue(items: seq<Assignment>)
    requires forall k :: 0 <= k < |items| ==> items[k].due == None
    ensures DueAssignments(items) == []
  {
    if items != [] {
      NoneDue(items[1..]);
    }
  }

  /** A list whose entries all have a due value keeps everything. */
  lemma {:induction false} AllDue(items: seq<Assignment>)
    requires forall k :: 0 <= k < |items| ==> Truthy(items[k].due)
    ensures DueAssignments(items) == items
  {
    if items != [] {
      AllDue(items[1..]);
      assert items == [items[0]] + items[1..];
    }
  }

  /** When every weekly assignment is due and no day-plan assignment is, the list is the weekly one. */
  lemma WeeklyOnly(w: WeekData)
    requires forall k :: 0 <= k < |w.assignments| ==> Truthy(w.assignments[k].due)
    requires forall d: DayKey, k :: 0 <= k < |PlanAssignments(w, d)| ==> PlanAssignments(w, d)[k].due == None
    ensures UpcomingDueDates(w) == Tag(Weekly, w.assignments)
  {
    UpcomingIsGrouped(w);
    AllDue(w.assignments);
    forall d: DayKey ensures Group(w, Day(d)) == [] {
      NoneDue(PlanAssignments(w, d));
    }
  }

  /** The upcoming list of the regular week is its two weekly assignments, tagged as weekly. */
  lemma CoreWeekUpcoming()
    ensures UpcomingDueDates(CoreWeek) == Tag(Weekly, CoreWeek.assignments)
  {
    forall d: DayKey, k | 0 <= k < |PlanAssignments(CoreWeek, d)|
      ensures PlanAssignments(CoreWeek, d)[k].due == None
    {
    }
    WeeklyOnly(CoreWeek);
  }

  /** Both weeks pass every self-check, and share the same upcoming list. */
  lemma SampleWeeksPass()
    ensures AllPassed(Check(CoreWeek)) && AllPassed(Check(AccelWeek))
    ensures UpcomingDueDates(AccelWeek) == UpcomingDueDates(CoreWeek)
  {
    HexExamples();
    CoreWeekWellFormed();
    assert AccelWeek.warmups == CoreWeek.warmups && AccelWeek.videos == CoreWeek.videos;
    assert AccelWeek.theme == CoreWeek.theme;
    assert WarmupsOk(AccelWeek) && VideosOk(AccelWeek);
    Edits.DueDatesDependOnAssignments(AccelWeek, CoreWeek);
  }
}
