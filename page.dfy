/**
 * The page's mutable state: the working copy of the week, which every
 * handler overwrites with a whole new record, and the header's
 * "logo broken" flag, set by a failed image load and cleared whenever the
 * logo URL is committed.
 */
module Page {
  import opened Weekly
  import opened ActiveDays
  import opened Edits

  class WeeklyPage {
    var data: WeekData
    var logoBroken: bool

    /** The active days stay an ordered, duplicate-free list of weekdays. */
    predicate Valid()
      reads this
    {
      Canonical(data.activeDays)
    }

    /** `useState(initial)` and `useState(false)`; both static weeks are valid seeds. */
    constructor (initial: WeekData)
      requires Canonical(initial.activeDays)
      ensures Valid()
      ensures data == initial && !logoBroken
    {
      data := initial;
      logoBroken := false;
    }

    /** `data.logoUrl && !logoBroken`: the image is shown rather than the placeholder. */
    predicate ShowsLogoImage()
      reads this
    {
      Truthy(data.logoUrl) && !logoBroken
    }

    /** The image's `onError`: the placeholder replaces the image; the week is untouched. */
    method LogoLoadFailed()
      requires Valid()
      modifies this
      ensures Valid()
      ensures logoBroken && data == old(data)
      ensures !ShowsLogoImage()
    {
      logoBroken := true;
    }

    /** `updateLogo(url)` on blur: the flag is cleared and the URL stored. */
    method CommitLogoUrl(url: string)
      requires Valid()
      modifies this
      ensures Valid()
      ensures data == SetLogoUrl(old(data), url) && !logoBroken
      ensures ShowsLogoImage() <==> url != ""
    {
      logoBroken := false;
      data := SetLogoUrl(data, url);
    }

    /** The week-label input on blur. */
    method CommitWeekLabel(text: string)
      requires Valid()
      modifies this
      ensures Valid()
      ensures data == SetWeekLabel(old(data), text) && logoBroken == old(logoBroken)
    {
      data := SetWeekLabel(data, text);
    }

    /** A preset button: the active days become a canonical list. */
    method PickPreset(p: Preset)
      requires Valid()
      modifies this
      ensures Valid()
      ensures data == ChoosePreset(old(data), p) && logoBroken == old(logoBroken)
    {
      data := ChoosePreset(data, p);
    }

    /** A day toggle; a canonical day list stays canonical. */
    method ToggleActiveDay(d: DayKey)
      requires Valid()
      modifies this
      ensures Valid()
      ensures data == ApplyToggle(old(data), d) && logoBroken == old(logoBroken)
    {
      ToggleKeepsCanonical(data.activeDays, d);
      data := ApplyToggle(data, d);
    }

    /** A day's notes box on blur. */
    method CommitNotes(day: DayKey, text: string)
      requires Valid()
      modifies this
      ensures Valid()
      ensures data == SetNotes(old(data), day, text) && logoBroken == old(logoBroken)
    {
      data := SetNotes(data, day, text);
    }

    /** A colour picker on change. */
    method PickColor(f: ThemeField, c: string)
      requires Valid()
      modifies this
      ensures Valid()
      ensures data == SetColor(old(data), f, c) && logoBroken == old(logoBroken)
    {
      data := SetColor(data, f, c);
    }
  }

  /**
   * A session: the flag follows the load failure, a label edit leaves it
   * set, and committing a new URL brings the image back.
   */
  method LogoSession(initial: WeekData, url: string) returns (shownAfterFailure: bool, shownAfterLabel: bool, shownAfterUrl: bool)
    requires Canonical(initial.activeDays)
    ensures !shownAfterFailure && !shownAfterLabel
    ensures shownAfterUrl <==> url != ""
  {
    var page := new WeeklyPage(initial);
    page.LogoLoadFailed();
    shownAfterFailure := page.ShowsLogoImage();
    page.CommitWeekLabel("Week of Sep 29–Oct 3");
    shownAfterLabel := page.ShowsLogoImage();
    page.CommitLogoUrl(url);
    shownAfterUrl := page.ShowsLogoImage();
  }
}
