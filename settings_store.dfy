/**
 * The settings store of src/features/settings/model/store.ts: four
 * independent preferences, each overwritten only by its own setter.
 */
module Settings {
  /** Currency (src/shared/types/index.ts): the five supported quote currencies. */
  datatype Currency = Usd | Eur | Gbp | Jpy | Idr

  /** The `theme` field's three values. */
  datatype Theme = Dark | Light | System

  /** The string literal each currency is stored and compared as. */
  function CurrencyCode(c: Currency): (r: string)
    ensures |r| == 3
  {
    match c
    case Usd => "usd"
    case Eur => "eur"
    case Gbp => "gbp"
    case Jpy => "jpy"
    case Idr => "idr"
  }

  /** Distinct currencies have distinct codes, so a stored code names one currency. */
  lemma CurrencyCodeInjective(c1: Currency, c2: Currency)
    ensures CurrencyCode(c1) == CurrencyCode(c2) <==> c1 == c2
  {
  }

  /** The store's data, without its setters. */
  datatype Prefs = Prefs(currency: Currency, theme: Theme, notificationsEnabled: bool, hapticEnabled: bool)

  /** The state the store starts in. */
  function Defaults(): (r: Prefs)
    ensures r.currency == Usd && r.theme == Dark
    ensures r.notificationsEnabled && r.hapticEnabled
  {
    Prefs(Usd, Dark, true, true)
  }

  /** `set({ currency })`: the new currency, every other field as before. */
  function WithCurrency(p: Prefs, c: Currency): (r: Prefs)
    ensures r.currency == c
    ensures r.theme == p.theme && r.notificationsEnabled == p.notificationsEnabled
    ensures r.hapticEnabled == p.hapticEnabled
  {
    p.(currency := c)
  }

  /** `set({ theme })`. */
  function WithTheme(p: Prefs, t: Theme): (r: Prefs)
    ensures r.theme == t
    ensures r.currency == p.currency && r.notificationsEnabled == p.notificationsEnabled
    ensures r.hapticEnabled == p.hapticEnabled
  {
    p.(theme := t)
  }

  /** `set({ notificationsEnabled })`. */
  function WithNotifications(p: Prefs, enabled: bool): (r: Prefs)
    ensures r.notificationsEnabled == enabled
    ensures r.currency == p.currency && r.theme == p.theme
    ensures r.hapticEnabled == p.hapticEnabled
  {
    p.(notificationsEnabled := enabled)
  }

  /** `set({ hapticEnabled })`. */
  function WithHaptic(p: Prefs, enabled: bool): (r: Prefs)
    ensures r.hapticEnabled == enabled
    ensures r.currency == p.currency && r.theme == p.theme
    ensures r.notificationsEnabled == p.notificationsEnabled
  {
    p.(hapticEnabled := enabled)
  }

  /** Writing a field twice keeps only the second value. */
  lemma LastWriteWins(p: Prefs, c1: Currency, c2: Currency, t1: Theme, t2: Theme, b1: bool, b2: bool)
    ensures WithCurrency(WithCurrency(p, c1), c2) == WithCurrency(p, c2)
    ensures WithTheme(WithTheme(p, t1), t2) == WithTheme(p, t2)
    ensures WithNotifications(WithNotifications(p, b1), b2) == WithNotifications(p, b2)
    ensures WithHaptic(WithHaptic(p, b1), b2) == WithHaptic(p, b2)
  {
  }

  /** The fields are independent: setters of different fields commute. */
  lemma SettersCommute(p: Prefs, c: Currency, t: Theme, n: bool, h: bool)
    ensures WithTheme(WithCurrency(p, c), t) == WithCurrency(WithTheme(p, t), c)
    ensures WithNotifications(WithCurrency(p, c), n) == WithCurrency(WithNotifications(p, n), c)
    ensures WithHaptic(WithCurrency(p, c), h) == WithCurrency(WithHaptic(p, h), c)
    ensures WithNotifications(WithTheme(p, t), n) == WithTheme(WithNotifications(p, n), t)
    ensures WithHaptic(WithTheme(p, t), h) == WithTheme(WithHaptic(p, h), t)
    ensures WithHaptic(WithNotifications(p, n), h) == WithNotifications(WithHaptic(p, h), n)
  {
  }

  /** Any settings record is reachable from the defaults by the four setters. */
  lemma EveryPrefsReachable(p: Prefs)
    ensures WithHaptic(WithNotifications(WithTheme(WithCurrency(Defaults(), p.currency), p.theme),
                                         p.notificationsEnabled), p.hapticEnabled) == p
  {
  }

  /** The zustand store created by `useSettingsStore`. */
  class SettingsStore {
    var currency: Currency
    var theme: Theme
    var notificationsEnabled: bool
    var hapticEnabled: bool

    /** The four fields as one value. */
    function Model(): Prefs
      reads this
    {
      Prefs(currency, theme, notificationsEnabled, hapticEnabled)
    }

    /** The defaults: `usd`, `dark`, notifications and haptics on. */
    constructor ()
      ensures Model() == Defaults()
    {
      currency := Usd;
      theme := Dark;
      notificationsEnabled := true;
      hapticEnabled := true;
    }

    /** `setCurrency`. */
    method SetCurrency(c: Currency)
      modifies this
      ensures Model() == WithCurrency(old(Model()), c)
    {
      currency := c;
    }

    /** `setTheme`. */
    method SetTheme(t: Theme)
      modifies this
      ensures Model() == WithTheme(old(Model()), t)
    {
      theme := t;
    }

    /** `setNotificationsEnabled`. */
    method SetNotificationsEnabled(enabled: bool)
      modifies this
      ensures Model() == WithNotifications(old(Model()), enabled)
    {
      notificationsEnabled := enabled;
    }

    /** `setHapticEnabled`. */
    method SetHapticEnabled(enabled: bool)
      modifies this
      ensures Model() == WithHaptic(old(Model()), enabled)
    {
      hapticEnabled := enabled;
    }
  }
}
