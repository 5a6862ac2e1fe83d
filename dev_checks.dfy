/**
 * The start-up self-checks: for each data set, whether the primary colour
 * is a six-digit hex colour, whether every day has at most one warm-up,
 * whether the active days are weekdays, whether the videos are well formed,
 * and whether the upcoming-due count matches an independent count.
 */
module DevChecks {
  import opened Weekly
  import opened DueDates
  import opened Edits

  /** One character of `[0-9a-fA-F]`. */
  predicate IsHexDigit(c: char)
  {
    ('0' <= c <= '9') || ('a' <= c <= 'f') || ('A' <= c <= 'F')
  }

  /**
   * `/^#([0-9a-fA-F]{6})$/.test(s)`: without the multiline flag `$` matches
   * only at the very end, so the string is exactly `#` and six hex digits.
   */
  predicate IsHex6(s: string)
    ensures IsHex6(s) <==> |s| == 7 && s[..1] == "#" && forall c :: c in s[1..] ==> IsHexDigit(c)
  {
    |s| == 7 && s[0] == '#' && forall i :: 1 <= i < 7 ==> IsHexDigit(s[i])
  }

  /** `WEEKDAYS.every(day => (d.warmups[day] || []).length <= 1)` */
  predicate WarmupsOk(w: WeekData)
    ensures WarmupsOk(w) <==> forall d: DayKey :: |WarmupsOf(w, d)| <= 1
  {
    assert forall d: DayKey {:trigger WarmupsOf(w, d)} :: WarmupsOf(w, Weekdays[DayIndex(d)]) == WarmupsOf(w, d);
    forall i :: 0 <= i < |Weekdays| ==> |WarmupsOf(w, Weekdays[i])| <= 1
  }

  /** `d.activeDays.every(x => WEEKDAYS.includes(x))`, which every week passes. */
  predicate ActiveOk(w: WeekData)
    ensures ActiveOk(w)
  {
    WeekdaysCanonical();
    forall k :: 0 <= k < |w.activeDays| ==> w.activeDays[k] in Weekdays
  }

  /** `d.videos.every(v => v.title && typeof v.url === 'string')`; the URL is always a string here. */
  predicate VideosOk(w: WeekData)
    ensures VideosOk(w) <==> forall v :: v in w.videos ==> v.title != ""
  {
    forall k :: 0 <= k < |w.videos| ==> w.videos[k].title != ""
  }

  /** What the self-test logs for one data set. */
  datatype CheckReport = CheckReport(
    dataSet: string,
    hexOk: bool,
    warmupsOk: bool,
    activeOk: bool,
    videosOk: bool,
    upcoming: nat,
    dueExpected: nat)

  /** Every line of a report is logged as a pass. */
  predicate AllPassed(r: CheckReport)
  {
    r.hexOk && r.warmupsOk && r.activeOk && r.videosOk && r.upcoming == r.dueExpected
  }

  /**
   * The checks for one data set. The subset check and the due-count check
   * pass for every week, so only the other three can ever log an error.
   */
  function Check(w: WeekData): (r: CheckReport)
    ensures r.activeOk && r.upcoming == r.dueExpected
    ensures AllPassed(r) <==> IsHex6(w.theme.primary) && WarmupsOk(w) && VideosOk(w)
  {
    DueCountMatches(w);
    WeekdaysCanonical();
    CheckReport(w.logoText, IsHex6(w.theme.primary), WarmupsOk(w), ActiveOk(w), VideosOk(w),
                |UpcomingDueDates(w)|, DueExpected(w))
  }

  /** `runDevChecks()`: one report per data set, in order. */
  method RunDevChecks(dataSets: seq<WeekData>) returns (reports: seq<CheckReport>)
    ensures |reports| == |dataSets|
    ensures forall i :: 0 <= i < |dataSets| ==> reports[i] == Check(dataSets[i])
    ensures forall i :: 0 <= i < |dataSets| ==> reports[i].dataSet == dataSets[i].logoText
    ensures forall i :: 0 <= i < |dataSets| ==> reports[i].upcoming == reports[i].dueExpected
  {
    reports := [];
    for i := 0 to |dataSets|
      invariant |reports| == i
      invariant forall k :: 0 <= k < i ==> reports[k] == Check(dataSets[k])
    {
      var d := dataSets[i];
      reports := reports + [Check(d)];
    }
  }

  /** The hex check accepts the page's base colours and rejects a colour name and near misses. */
  lemma HexExamples()
    ensures IsHex6("#0b4da2") && IsHex6("#15a1e6") && IsHex6("#faf7f2") && IsHex6("#ABCDEF")
    ensures !IsHex6("blue") && !IsHex6("0b4da2") && !IsHex6("#0b4da") && !IsHex6("#0b4da2\n") && !IsHex6("#0g4da2")
  {
    assert "#0g4da2"[2] == 'g' && !IsHexDigit('g');
  }

  /**
   * The check predicates applied to a week after a primary-colour pick: the
   * hex check passes exactly when the picked value is hex. The page itself
   * runs the checks only on the two static weeks, never on an edited one.
   */
  lemma PickPrimaryHex(w: WeekData, c: string)
    ensures Check(SetColor(w, Primary, c)).hexOk <==> IsHex6(c)
    ensures AllPassed(Check(SetColor(w, Primary, c))) <==> IsHex6(c) && WarmupsOk(w) && VideosOk(w)
  {
    var r := SetColor(w, Primary, c);
    assert r.warmups == w.warmups && r.videos == w.videos;
    assert WarmupsOk(r) == WarmupsOk(w);
  }

  /**
   * The check predicates applied to edited weeks: notes, week-label and logo
   * edits never change their outcome. The page itself runs the checks only
   * on the two static weeks, never on an edited one.
   */
  lemma EditsKeepChecks(w: WeekData, day: DayKey, text: string)
    ensures AllPassed(Check(SetNotes(w, day, text))) <==> AllPassed(Check(w))
    ensures AllPassed(Check(SetWeekLabel(w, text))) <==> AllPassed(Check(w))
    ensures AllPassed(Check(SetLogoUrl(w, text))) <==> AllPassed(Check(w))
  {
    var n := SetNotes(w, day, text);
    assert n.warmups == w.warmups && n.videos == w.videos && n.theme == w.theme;
    assert WarmupsOk(n) == WarmupsOk(w);
    var l := SetWeekLabel(w, text);
    assert WarmupsOk(l) == WarmupsOk(w);
    var u := SetLogoUrl(w, text);
    assert WarmupsOk(u) == WarmupsOk(w);
  }
}
