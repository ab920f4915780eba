/**
 * The bilingual text layer: the current language, its persisted preference,
 * and the lookup `t(key)` that falls back to the key itself.
 *
 * The two translation tables are represented by their key lists; the texts are
 * a parameter (`Translations`), constrained only to have those keys and
 * non-empty texts.
 */
module LanguageContext {
  import opened Wrappers

  datatype Language = En | Fr

  /** The code a language is stored under: "en" or "fr". */
  function Code(l: Language): string
  {
    match l
    case En => "en"
    case Fr => "fr"
  }

  /** The language a stored code names, if it is exactly "en" or "fr". */
  function Parse(s: string): (r: Option<Language>)
    ensures r == Some(En) <==> s == "en"
    ensures r == Some(Fr) <==> s == "fr"
  {
    if s == "en" then Some(En) else if s == "fr" then Some(Fr) else None
  }

  /** A stored code reads back as the language that wrote it, and only codes read back at all. */
  lemma ParseInvertsCode(l: Language, s: string)
    ensures Parse(Code(l)) == Some(l)
    ensures Parse(s) == Some(l) ==> s == Code(l)
  {
  }

  /** The language a fresh provider starts with, before the stored preference is read. */
  const DefaultLanguage: Language := En

  /** The key the preference is stored under. */
  const StorageKey: string := "language"

  /** The keys of the English table, in source order. */
  const EnKeys: seq<string> := [
    "nav.home", "nav.about", "nav.projects", "nav.contact", "hero.title", "hero.description",
    "hero.cta", "about.title", "about.description", "about.skills", "projects.title",
    "projects.subtitle", "projects.showMore", "projects.showLess", "projects.keyFeatures",
    "projects.projectStats", "projects.viewOnGithub", "projects.cineList.title",
    "projects.cineList.description", "projects.cineList.longDescription",
    "projects.cineList.features.0", "projects.cineList.features.1", "projects.cineList.features.2",
    "projects.cineList.features.3", "projects.cineList.stats.users",
    "projects.cineList.stats.movies", "projects.cineList.stats.rating",
    "projects.cineList.stats.satisfaction", "projects.planty.title", "projects.planty.description",
    "projects.planty.longDescription", "projects.planty.features.0", "projects.planty.features.1",
    "projects.planty.features.2", "projects.planty.features.3", "projects.planty.stats.devices",
    "projects.planty.stats.waterSaved", "projects.planty.stats.plants",
    "projects.planty.stats.uptime", "projects.barrier.title", "projects.barrier.description",
    "projects.barrier.longDescription", "projects.barrier.features.0",
    "projects.barrier.features.1", "projects.barrier.features.2", "projects.barrier.features.3",
    "projects.barrier.stats.families", "projects.barrier.stats.screenReduction",
    "projects.barrier.stats.locationsTracked", "projects.barrier.stats.alertAccuracy",
    "projects.game.title", "projects.game.description", "projects.game.longDescription",
    "projects.game.features.0", "projects.game.features.1", "projects.game.features.2",
    "projects.game.features.3", "projects.game.stats.downloads", "projects.game.stats.rating",
    "projects.game.stats.avgPlaytime", "projects.game.stats.levels", "contact.title",
    "contact.description", "contact.name", "contact.email", "contact.message", "contact.send",
    "contact.namePlaceholder", "contact.emailPlaceholder", "contact.messagePlaceholder",
    "contact.success", "contact.successDescription", "footer.rights"
  ]

  /** The keys of the French table, in source order. */
  const FrKeys: seq<string> := [
    "nav.home", "nav.about", "nav.projects", "nav.contact", "hero.title", "hero.description",
    "hero.cta", "about.title", "about.description", "about.skills", "projects.title",
    "projects.subtitle", "projects.showMore", "projects.showLess", "projects.keyFeatures",
    "projects.projectStats", "projects.viewOnGithub", "projects.cineList.title",
    "projects.cineList.description", "projects.cineList.longDescription",
    "projects.cineList.features.0", "projects.cineList.features.1", "projects.cineList.features.2",
    "projects.cineList.features.3", "projects.cineList.stats.users",
    "projects.cineList.stats.movies", "projects.cineList.stats.rating",
    "projects.cineList.stats.satisfaction", "projects.planty.title", "projects.planty.description",
    "projects.planty.longDescription", "projects.planty.features.0", "projects.planty.features.1",
    "projects.planty.features.2", "projects.planty.features.3", "projects.planty.stats.devices",
    "projects.planty.stats.waterSaved", "projects.planty.stats.plants",
    "projects.planty.stats.uptime", "projects.barrier.title", "projects.barrier.description",
    "projects.barrier.longDescription", "projects.barrier.features.0",
    "projects.barrier.features.1", "projects.barrier.features.2", "projects.barrier.features.3",
    "projects.barrier.stats.families", "projects.barrier.stats.screenReduction",
    "projects.barrier.stats.locationsTracked", "projects.barrier.stats.alertAccuracy",
    "projects.game.title", "projects.game.description", "projects.game.longDescription",
    "projects.game.features.0", "projects.game.features.1", "projects.game.features.2",
    "projects.game.features.3", "projects.game.stats.downloads", "projects.game.stats.rating",
    "projects.game.stats.avgPlaytime", "projects.game.stats.levels", "contact.title",
    "contact.description", "contact.name", "contact.email", "contact.message", "contact.send",
    "contact.namePlaceholder", "contact.emailPlaceholder", "contact.messagePlaceholder",
    "contact.success", "contact.successDescription", "footer.rights"
  ]

  /** The two tables define the same keys. */
  lemma SameKeySets()
    ensures (set k | k in EnKeys) == (set k | k in FrKeys)
  {
    assert EnKeys == FrKeys;
  }

  type Table = map<string, string>

  datatype Translations = Translations(en: Table, fr: Table)

  function TableFor(tr: Translations, l: Language): Table
  {
    match l
    case En => tr.en
    case Fr => tr.fr
  }

  /** The texts agree with the source's tables: the same keys, and no empty text. */
  ghost predicate Conforms(tr: Translations)
  {
    tr.en.Keys == (set k | k in EnKeys) && tr.fr.Keys == (set k | k in FrKeys) &&
    (forall k :: k in tr.en ==> tr.en[k] != "") &&
    (forall k :: k in tr.fr ==> tr.fr[k] != "")
  }

  /** Whether the table gives no text of its own for `key`: the entry is missing or empty. */
  predicate FallsBack(table: Table, key: string)
  {
    key !in table || table[key] == ""
  }

  /**
   * The names every JavaScript object inherits from `Object.prototype`. Looking
   * one of them up in a table that has no own entry for it yields the inherited
   * member, which is truthy.
   */
  const InheritedNames: set<string> := {
    "constructor", "hasOwnProperty", "isPrototypeOf", "propertyIsEnumerable",
    "toLocaleString", "toString", "valueOf", "__proto__",
    "__defineGetter__", "__defineSetter__", "__lookupGetter__", "__lookupSetter__"
  }

  /** What `t` hands back: a text, or the inherited member a name resolves to. */
  datatype Text = Text(s: string) | InheritedMember(name: string)

  /**
   * `translations[language][key] || key`: an own non-empty entry wins; an own empty
   * entry gives the key; a missing entry gives the inherited member of that name if
   * there is one, and the key otherwise.
   */
  function Lookup(table: Table, key: string): (r: Text)
    ensures !FallsBack(table, key) ==> r == Text(table[key]) && r.s != ""
    ensures key in table && table[key] == "" ==> r == Text(key)
    ensures key !in table && key in InheritedNames ==> r == InheritedMember(key)
    ensures key !in table && key !in InheritedNames ==> r == Text(key)
  {
    if key in table then
      if table[key] != "" then Text(table[key]) else Text(key)
    else if key in InheritedNames then InheritedMember(key)
    else Text(key)
  }

  /**
   * With tables like the source's, the table has no text of its own for a key
   * exactly when it is not one of the table keys, and therefore in both languages
   * or in neither.
   */
  lemma FallbackIffUnknown(tr: Translations, l: Language, key: string)
    requires Conforms(tr)
    ensures FallsBack(TableFor(tr, l), key) <==> key !in EnKeys
    ensures FallsBack(TableFor(tr, l), key) <==> FallsBack(TableFor(tr, En), key)
  {
    SameKeySets();
    assert key in (set k | k in EnKeys) <==> key in EnKeys;
    assert key in (set k | k in FrKeys) <==> key in FrKeys;
  }

  /**
   * A key missing from the tables comes back verbatim, whatever the language,
   * unless it names an inherited member, which comes back instead.
   */
  lemma UnknownKeyVerbatim(tr: Translations, l: Language, key: string)
    requires Conforms(tr) && key !in EnKeys
    ensures key !in InheritedNames ==> Lookup(TableFor(tr, l), key) == Text(key)
    ensures key in InheritedNames ==> Lookup(TableFor(tr, l), key) == InheritedMember(key)
  {
    FallbackIffUnknown(tr, l, key);
  }

  /** A table key always gives its own text, in either language, and never an inherited member. */
  lemma KnownKeyTranslated(tr: Translations, l: Language, key: string)
    requires Conforms(tr) && key in EnKeys
    ensures Lookup(TableFor(tr, l), key) == Text(TableFor(tr, l)[key])
    ensures Lookup(TableFor(tr, l), key).s != ""
  {
    FallbackIffUnknown(tr, l, key);
  }

  /** The language after the mount-time read of the stored preference. */
  function Restore(current: Language, saved: Option<string>): (l: Language)
    ensures saved == Some("en") ==> l == En
    ensures saved == Some("fr") ==> l == Fr
    ensures saved != Some("en") && saved != Some("fr") ==> l == current
  {
    match saved
    case None => current
    case Some(s) => match Parse(s) { case Some(l) => l case None => current }
  }

  /** `localStorage.getItem("language")`. */
  function Saved(storage: map<string, string>): Option<string>
  {
    if StorageKey in storage then Some(storage[StorageKey]) else None
  }

  /** A preference written by `setLanguage` is the one read back by the next mount. */
  lemma PreferenceSurvivesReload(storage: map<string, string>, l: Language, current: Language)
    ensures Restore(current, Saved(storage[StorageKey := Code(l)])) == l
  {
    ParseInvertsCode(l, Code(l));
  }

  /** The state of one `LanguageProvider`, with the browser's local storage it reads and writes. */
  class LanguageProvider {
    var language: Language
    var storage: map<string, string>

    constructor (storage: map<string, string>)
      ensures language == DefaultLanguage && this.storage == storage
    {
      language := DefaultLanguage;
      this.storage := storage;
    }

    /** The mount effect: adopt the stored preference if it is exactly "en" or "fr". */
    method Mount()
      modifies this`language
      ensures language == Restore(old(language), Saved(storage))
    {
      if StorageKey in storage {
        var saved := storage[StorageKey];
        if saved == "en" {
          language := En;
        } else if saved == "fr" {
          language := Fr;
        }
      }
    }

    /** `setLanguage`: the state and the stored preference both take the new language. */
    method SetLanguage(l: Language)
      modifies this
      ensures language == l
      ensures storage == old(storage)[StorageKey := Code(l)]
    {
      language := l;
      storage := storage[StorageKey := Code(l)];
    }
  }

  /** The error `useLanguage` throws outside a provider. */
  const OutsideProvider: string := "useLanguage must be used within a LanguageProvider"

  /** `useLanguage`: the provider's value, or an error when there is none. */
  function UseLanguage(context: Option<LanguageProvider>): (r: Result<LanguageProvider>)
    ensures r.Success? <==> context.Some?
    ensures r.Success? ==> r.value == context.value
    ensures r.Failure? ==> r.error == OutsideProvider
  {
    match context
    case None => Failure(OutsideProvider)
    case Some(p) => Success(p)
  }
}
