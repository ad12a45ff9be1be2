/**
 * The settings store: one settings record, merged with partial updates and
 * reset to the defaults. The defaults take the host's time zone, which the
 * store reads once, when it is created.
 */
module Settings {
  import opened Wrappers

  datatype Module = DashboardModule | TodosModule | SportsModule | IdeasModule | BooksModule | ExpensesModule

  datatype DateFormat = MonthDayYear | DayMonthYear | YearMonthDay

  datatype WeekStart = Sunday | Monday

  datatype UserSettings = UserSettings(
    defaultLandingModule: Module,
    enabledWidgets: seq<string>,
    widgetOrder: seq<string>,
    globalRemindersEnabled: bool,
    defaultReminderTime: string,
    quietHoursStart: string,
    quietHoursEnd: string,
    emailNotifications: bool,
    inAppNotifications: bool,
    timezone: string,
    currency: string,
    dateFormat: DateFormat,
    weekStartDay: WeekStart,
    lastExportDate: Option<string>)

  /** `Partial<UserSettings>`; `Some(None)` clears the last export date. */
  datatype SettingsPatch = SettingsPatch(
    defaultLandingModule: Option<Module>,
    enabledWidgets: Option<seq<string>>,
    widgetOrder: Option<seq<string>>,
    globalRemindersEnabled: Option<bool>,
    defaultReminderTime: Option<string>,
    quietHoursStart: Option<string>,
    quietHoursEnd: Option<string>,
    emailNotifications: Option<bool>,
    inAppNotifications: Option<bool>,
    timezone: Option<string>,
    currency: Option<string>,
    dateFormat: Option<DateFormat>,
    weekStartDay: Option<WeekStart>,
    lastExportDate: Option<Option<string>>)

  const NoChanges: SettingsPatch :=
    SettingsPatch(None, None, None, None, None, None, None, None, None, None, None, None, None, None)

  const Widgets: seq<string> := ["todos", "sports", "expenses", "books", "ideas"]

  /** The default settings, in the host time zone. */
  function Defaults(hostTimezone: string): UserSettings {
    UserSettings(DashboardModule, Widgets, Widgets, true, "09:00", "22:00", "08:00", true, true,
                 hostTimezone, "USD", MonthDayYear, Monday, None)
  }

  /** `{...s, ...p}`. */
  function Apply(s: UserSettings, p: SettingsPatch): UserSettings {
    UserSettings(
      p.defaultLandingModule.GetOr(s.defaultLandingModule),
      p.enabledWidgets.GetOr(s.enabledWidgets),
      p.widgetOrder.GetOr(s.widgetOrder),
      p.globalRemindersEnabled.GetOr(s.globalRemindersEnabled),
      p.defaultReminderTime.GetOr(s.defaultReminderTime),
      p.quietHoursStart.GetOr(s.quietHoursStart),
      p.quietHoursEnd.GetOr(s.quietHoursEnd),
      p.emailNotifications.GetOr(s.emailNotifications),
      p.inAppNotifications.GetOr(s.inAppNotifications),
      p.timezone.GetOr(s.timezone),
      p.currency.GetOr(s.currency),
      p.dateFormat.GetOr(s.dateFormat),
      p.weekStartDay.GetOr(s.weekStartDay),
      p.lastExportDate.GetOr(s.lastExportDate))
  }

  /** The patch that supplies every property of `u`. */
  function PatchOf(u: UserSettings): SettingsPatch {
    SettingsPatch(Some(u.defaultLandingModule), Some(u.enabledWidgets), Some(u.widgetOrder),
                  Some(u.globalRemindersEnabled), Some(u.defaultReminderTime),
                  Some(u.quietHoursStart), Some(u.quietHoursEnd), Some(u.emailNotifications),
                  Some(u.inAppNotifications), Some(u.timezone), Some(u.currency),
                  Some(u.dateFormat), Some(u.weekStartDay), Some(u.lastExportDate))
  }

  function Latest<T>(first: Option<T>, second: Option<T>): Option<T> {
    if second.Some? then second else first
  }

  /** One patch with the effect of `p` followed by `q`. */
  function Then(p: SettingsPatch, q: SettingsPatch): SettingsPatch {
    SettingsPatch(
      Latest(p.defaultLandingModule, q.defaultLandingModule),
      Latest(p.enabledWidgets, q.enabledWidgets),
      Latest(p.widgetOrder, q.widgetOrder),
      Latest(p.globalRemindersEnabled, q.globalRemindersEnabled),
      Latest(p.defaultReminderTime, q.defaultReminderTime),
      Latest(p.quietHoursStart, q.quietHoursStart),
      Latest(p.quietHoursEnd, q.quietHoursEnd),
      Latest(p.emailNotifications, q.emailNotifications),
      Latest(p.inAppNotifications, q.inAppNotifications),
      Latest(p.timezone, q.timezone),
      Latest(p.currency, q.currency),
      Latest(p.dateFormat, q.dateFormat),
      Latest(p.weekStartDay, q.weekStartDay),
      Latest(p.lastExportDate, q.lastExportDate))
  }

  class SettingsStore {
    const hostTimezone: string
    var settings: UserSettings

    constructor (hostTimezone: string)
      ensures this.hostTimezone == hostTimezone
      ensures settings == Defaults(hostTimezone)
    {
      this.hostTimezone := hostTimezone;
      settings := Defaults(hostTimezone);
    }

    method UpdateSettings(updates: SettingsPatch)
      modifies this
      ensures settings == Apply(old(settings), updates)
    {
      settings := Apply(settings, updates);
    }

    method ResetToDefaults()
      modifies this
      ensures settings == Defaults(hostTimezone)
    {
      settings := Defaults(hostTimezone);
    }
  }

  /**
   * The defaults: reminders on, all five widgets enabled and in the same
   * order, landing on the dashboard, US dollars, weeks from Monday, no
   * export yet.
   */
  lemma DefaultsShape(tz: string)
    ensures var d := Defaults(tz);
      && d.globalRemindersEnabled
      && d.enabledWidgets == ["todos", "sports", "expenses", "books", "ideas"]
      && d.widgetOrder == d.enabledWidgets
      && d.defaultLandingModule == DashboardModule
      && d.currency == "USD" && d.weekStartDay == Monday && d.dateFormat == MonthDayYear
      && d.timezone == tz && d.lastExportDate.None?
  {
  }

  /**
   * The merge: an empty patch keeps the settings, a patch supplying
   * everything yields its values, applying a patch twice is applying it once,
   * and two patches in a row are one combined patch.
   */
  lemma ApplyLaws(s: UserSettings, u: UserSettings, p: SettingsPatch, q: SettingsPatch)
    ensures Apply(s, NoChanges) == s
    ensures Apply(s, PatchOf(u)) == u
    ensures Apply(Apply(s, p), p) == Apply(s, p)
    ensures Apply(Apply(s, p), q) == Apply(s, Then(p, q))
  {
  }
}
