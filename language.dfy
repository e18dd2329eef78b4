/** The language context: the current language, its persisted copy in the
    browser's local storage, restoring a saved choice on start, changing the
    language, and the translation table handed to the pages. */
module Language {
  import opened Common

  /** The English translations. */
  const EN_TABLE: map<string, string> := map[
    "nav.dashboard" := "Dashboard",
    "nav.boards" := "Boards",
    "nav.analytics" := "Analytics",
    "nav.settings" := "Settings",
    "settings.title" := "Settings",
    "settings.subtitle" := "Manage your account settings and preferences.",
    "settings.quickActions" := "Quick Actions",
    "settings.backupData" := "Backup Data",
    "settings.changeLanguage" := "Change Language",
    "settings.profile" := "Profile Settings",
    "settings.appearance" := "Appearance",
    "settings.notifications" := "Notifications",
    "settings.team" := "Team & Organization",
    "settings.billing" := "Billing & Subscription",
    "settings.data" := "Data & Storage",
    "profile.personalInfo" := "Personal Information",
    "profile.emailPrefs" := "Email Preferences",
    "profile.password" := "Password & Security",
    "profile.2fa" := "Two-Factor Authentication",
    "appearance.theme" := "Theme Settings",
    "appearance.language" := "Language & Region",
    "appearance.customization" := "Customization",
    "notifications.email" := "Email Notifications",
    "notifications.push" := "Push Notifications",
    "notifications.marketing" := "Marketing Emails",
    "team.members" := "Team Members",
    "team.roles" := "Roles & Permissions",
    "team.organization" := "Organization Settings",
    "billing.payment" := "Payment Methods",
    "billing.history" := "Billing History",
    "billing.subscription" := "Subscription Plan",
    "data.backup" := "Backup & Restore",
    "data.export" := "Data Export",
    "data.deletion" := "Account Deletion",
    "language.select" := "Select Language"
  ]

  /** The Spanish translations. */
  const ES_TABLE: map<string, string> := map[
    "nav.dashboard" := "Panel",
    "nav.boards" := "Tableros",
    "nav.analytics" := "Análisis",
    "nav.settings" := "Configuración",
    "settings.title" := "Configuración",
    "settings.subtitle" := "Gestiona la configuración y preferencias de tu cuenta.",
    "settings.quickActions" := "Acciones Rápidas",
    "settings.backupData" := "Respaldar Datos",
    "settings.changeLanguage" := "Cambiar Idioma",
    "settings.profile" := "Perfil",
    "settings.appearance" := "Apariencia",
    "settings.notifications" := "Notificaciones",
    "settings.team" := "Equipo y Organización",
    "settings.billing" := "Facturación y Suscripción",
    "settings.data" := "Datos y Almacenamiento",
    "profile.personalInfo" := "Información Personal",
    "profile.emailPrefs" := "Preferencias de Email",
    "profile.password" := "Contraseña y Seguridad",
    "profile.2fa" := "Autenticación de Dos Factores",
    "appearance.theme" := "Tema",
    "appearance.language" := "Idioma y Región",
    "appearance.customization" := "Personalización",
    "notifications.email" := "Notificaciones por Email",
    "notifications.push" := "Notificaciones Push",
    "notifications.marketing" := "Emails de Marketing",
    "team.members" := "Miembros del Equipo",
    "team.roles" := "Roles y Permisos",
    "team.organization" := "Configuración de la Organización",
    "billing.payment" := "Métodos de Pago",
    "billing.history" := "Historial de Facturación",
    "billing.subscription" := "Plan de Suscripción",
    "data.backup" := "Respaldo y Restauración",
    "data.export" := "Exportar Datos",
    "data.deletion" := "Eliminación de Cuenta",
    "language.select" := "Seleccionar Idioma"
  ]

  /** The translation tables by language code. */
  const TRANSLATIONS: map<string, map<string, string>> := map["en" := EN_TABLE, "es" := ES_TABLE]

  /** The codes the language dialog offers. */
  const OFFERED_CODES: seq<string> := ["en", "es", "fr", "de", "it", "pt", "ru", "zh", "ja", "ko"]

  const DEFAULT_LANGUAGE := "en"

  /** `translations[code]`: the table of a code, or nothing for a code
      without one. */
  function TableFor(code: string): (r: Option<map<string, string>>)
    ensures r.Some? <==> code == "en" || code == "es"
  {
    if code in TRANSLATIONS then Some(TRANSLATIONS[code]) else None
  }

  /** Both tables translate the same keys. */
  lemma TablesHaveSameKeys()
    ensures EN_TABLE.Keys == ES_TABLE.Keys
    ensures "language.select" in EN_TABLE && "language.select" in ES_TABLE
  {
  }

  class LanguageProvider {
    var currentLanguage: string
    /** The `preferredLanguage` entry of local storage. */
    var storedLanguage: Option<string>

    /** The provider mounts with English, whatever is stored. */
    constructor (stored: Option<string>)
      ensures currentLanguage == DEFAULT_LANGUAGE && storedLanguage == stored
      ensures HasTable()
    {
      currentLanguage := DEFAULT_LANGUAGE;
      storedLanguage := stored;
    }

    /** The current language has a translation table. */
    predicate HasTable()
      reads this
    {
      currentLanguage in TRANSLATIONS
    }

    /** The mount effect: a saved, non-empty code is adopted only if a
        table exists for it. */
    method RestoreSavedLanguage()
      modifies this`currentLanguage
      ensures Truthy(storedLanguage) && storedLanguage.value in TRANSLATIONS ==> currentLanguage == storedLanguage.value
      ensures !(Truthy(storedLanguage) && storedLanguage.value in TRANSLATIONS) ==> currentLanguage == old(currentLanguage)
      ensures old(HasTable()) ==> HasTable()
    {
      if Truthy(storedLanguage) && storedLanguage.value in TRANSLATIONS {
        currentLanguage := storedLanguage.value;
      }
    }

    /** `setLanguage`: the code is adopted and persisted as given, whether or
        not a table exists for it. */
    method SetLanguage(language: string)
      modifies this
      ensures currentLanguage == language && storedLanguage == Some(language)
      ensures HasTable() <==> language in TRANSLATIONS
    {
      currentLanguage := language;
      storedLanguage := Some(language);
    }

    /** The `translations` value of the context: the current language's
        table, absent when there is none. */
    function Translations(): (r: Option<map<string, string>>)
      reads this
      ensures r.Some? <==> HasTable()
      ensures r.Some? ==> r.value == TRANSLATIONS[currentLanguage]
    {
      TableFor(currentLanguage)
    }

    /** The evidently intended `translations` value: the current language's
        table, falling back to English. */
    function TranslationsOrDefault(): (r: map<string, string>)
      reads this
      ensures HasTable() ==> r == TRANSLATIONS[currentLanguage]
      ensures !HasTable() ==> r == EN_TABLE
      ensures r.Keys == EN_TABLE.Keys
    {
      TablesHaveSameKeys();
      TableOrDefault(currentLanguage)
    }
  }

  /** The table of a code, or the English one for a code without a table. */
  function TableOrDefault(code: string): map<string, string>
  {
    if code in TRANSLATIONS then TRANSLATIONS[code] else EN_TABLE
  }

  /** Every code the dialog offers gets a table with every key under the
      fallback, and the fallback agrees with the plain lookup wherever that
      finds a table. */
  lemma TableOrDefaultIsTotal(code: string)
    ensures "language.select" in TableOrDefault(code)
    ensures TableOrDefault(code).Keys == EN_TABLE.Keys
    ensures TableFor(code).Some? ==> TableOrDefault(code) == TableFor(code).value
  {
    TablesHaveSameKeys();
  }

  /** Eight of the ten offered codes have no table. */
  lemma OfferedCodesWithoutTable()
    ensures forall i :: 2 <= i < |OFFERED_CODES| ==> TableFor(OFFERED_CODES[i]).None?
    ensures TableFor(OFFERED_CODES[0]).Some? && TableFor(OFFERED_CODES[1]).Some?
  {
  }

  /** Choosing French in the dialog leaves the context with no translations,
      so reading any key of them fails; after a reload the stored "fr" is
      ignored and English returns. */
  method ChooseFrenchScenario()
  {
    var provider := new LanguageProvider(None);
    provider.SetLanguage(OFFERED_CODES[2]);
    assert provider.currentLanguage == "fr" && provider.Translations() == None;
    assert provider.TranslationsOrDefault() == EN_TABLE;
    var reloaded := new LanguageProvider(provider.storedLanguage);
    reloaded.RestoreSavedLanguage();
    assert reloaded.currentLanguage == DEFAULT_LANGUAGE;
  }
}
