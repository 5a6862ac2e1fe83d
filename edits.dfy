/**
 * The whole-record edits the page's inputs commit: the week label and the
 * logo URL (on blur), a day's notes (on blur) and the three theme colours
 * (on every change). Each replaces one field of the week and nothing else.
 */
module Edits {
  import opened Weekly
  import opened DueDates

  /** The week-label input: `{ ...data, weekLabel }`. */
  function SetWeekLabel(w: WeekData, text: string): (r: WeekData)
    ensures r.weekLabel == text
    ensures r.(weekLabel := w.weekLabel) == w
  {
    w.(weekLabel := text)
  }

  /** The logo-URL input: `{ ...data, logoUrl: url }`; an empty URL is stored as given. */
  function SetLogoUrl(w: WeekData, url: string): (r: WeekData)
    ensures r.logoUrl == Some(url)
    ensures Truthy(r.logoUrl) <==> url != ""
    ensures r.(logoUrl := w.logoUrl) == w
  {
    w.(logoUrl := Some(url))
  }

  /**
   * The notes box of `day`: the day's plan, or the blank plan when there is
   * none, with its notes replaced.
   */
  function SetNotes(w: WeekData, day: DayKey, text: string): (r: WeekData)
    ensures day in r.dayPlans && r.dayPlans[day].notes == text
    ensures r.dayPlans[day].assignments == PlanAssignments(w, day)
    ensures r.dayPlans.Keys == w.dayPlans.Keys + {day}
    ensures forall d :: d != day && d in w.dayPlans ==> r.dayPlans[d] == w.dayPlans[d]
    ensures r.(dayPlans := w.dayPlans) == w
  {
    var plan := if day in w.dayPlans then w.dayPlans[day] else BlankDay;
    w.(dayPlans := w.dayPlans[day := plan.(notes := text)])
  }

  /** Committing the notes a day already has changes nothing. */
  lemma SetNotesUnchanged(w: WeekData, day: DayKey)
    requires day in w.dayPlans
    ensures SetNotes(w, day, w.dayPlans[day].notes) == w
  {
    assert SetNotes(w, day, w.dayPlans[day].notes).dayPlans == w.dayPlans;
  }

  /** Two commits to the same notes box: the last one wins. */
  lemma SetNotesTwice(w: WeekData, day: DayKey, first: string, second: string)
    ensures SetNotes(SetNotes(w, day, first), day, second) == SetNotes(w, day, second)
  {
    assert SetNotes(SetNotes(w, day, first), day, second).dayPlans == SetNotes(w, day, second).dayPlans;
  }

  /** Notes boxes of different days do not interfere: the commits commute. */
  lemma SetNotesCommute(w: WeekData, d1: DayKey, t1: string, d2: DayKey, t2: string)
    requires d1 != d2
    ensures SetNotes(SetNotes(w, d1, t1), d2, t2) == SetNotes(SetNotes(w, d2, t2), d1, t1)
  {
    assert SetNotes(SetNotes(w, d1, t1), d2, t2).dayPlans == SetNotes(SetNotes(w, d2, t2), d1, t1).dayPlans;
  }

  /** The upcoming due dates read only the weekly list and each day's assignments. */
  lemma DueDatesDependOnAssignments(w1: WeekData, w2: WeekData)
    requires w1.assignments == w2.assignments
    requires forall d :: PlanAssignments(w1, d) == PlanAssignments(w2, d)
    ensures UpcomingDueDates(w1) == UpcomingDueDates(w2)
  {
    UpcomingIsGrouped(w1);
    UpcomingIsGrouped(w2);
    assert forall src :: Origin(w1, src) == Origin(w2, src);
  }

  /** Editing notes never changes the upcoming due dates, even for a day without a plan. */
  lemma SetNotesKeepsDueDates(w: WeekData, day: DayKey, text: string)
    ensures UpcomingDueDates(SetNotes(w, day, text)) == UpcomingDueDates(w)
  {
    DueDatesDependOnAssignments(SetNotes(w, day, text), w);
  }

  /** The three colour pickers. */
  datatype ThemeField = Primary | Accent | Paper

  function ColorOf(t: Theme, f: ThemeField): string
  {
    match f
    case Primary => t.primary
    case Accent => t.accent
    case Paper => t.paper
  }

  /** A colour picker: `{ ...data, theme: { ...data.theme, <field>: value } }`. */
  function SetColor(w: WeekData, f: ThemeField, c: string): (r: WeekData)
    ensures ColorOf(r.theme, f) == c
    ensures forall g :: g != f ==> ColorOf(r.theme, g) == ColorOf(w.theme, g)
    ensures r.(theme := w.theme) == w
  {
    match f
    case Primary => w.(theme := w.theme.(primary := c))
    case Accent => w.(theme := w.theme.(accent := c))
    case Paper => w.(theme := w.theme.(paper := c))
  }

  /** A theme is determined by its three colours. */
  lemma {:induction false} ThemeExtensional(t1: Theme, t2: Theme)
    requires forall f :: ColorOf(t1, f) == ColorOf(t2, f)
    ensures t1 == t2
  {
    assert ColorOf(t1, Primary) == ColorOf(t2, Primary);
    assert ColorOf(t1, Accent) == ColorOf(t2, Accent);
    assert ColorOf(t1, Paper) == ColorOf(t2, Paper);
  }

  /** Re-picking the colour already shown changes nothing. */
  lemma SetColorUnchanged(w: WeekData, f: ThemeField)
    ensures SetColor(w, f, ColorOf(w.theme, f)) == w
  {
    ThemeExtensional(SetColor(w, f, ColorOf(w.theme, f)).theme, w.theme);
  }

  /** Pickers of different fields commute, and a picker's last value wins. */
  lemma SetColorCommute(w: WeekData, f: ThemeField, c: string, g: ThemeField, e: string)
    ensures f != g ==> SetColor(SetColor(w, f, c), g, e) == SetColor(SetColor(w, g, e), f, c)
    ensures f == g ==> SetColor(SetColor(w, f, c), g, e) == SetColor(w, g, e)
  {
    ThemeExtensional(SetColor(SetColor(w, f, c), g, e).theme,
                     if f != g then SetColor(SetColor(w, g, e), f, c).theme else SetColor(w, g, e).theme);
  }
}
