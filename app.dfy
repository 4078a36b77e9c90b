/**
 * The application shell (App.js): which screen a view renders behind the
 * sign-in gate, the theme and language toggles, the initial theme, and the
 * document class, direction and stored theme that follow the state.
 */
module App {
  import opened Wrappers
  import opened Text
  import opened Browser
  import opened Js
  import Constants

  /** What the main area shows. */
  datatype Screen =
    | HomeScreen
    | AgentScreen
    | AuthRequiredScreen
    | AboutScreen
    | ContactScreen
    | TermsScreen
    | PrivacyScreen

  /**
   * `renderView`: the screen for the view string. The agent is shown only to
   * a signed-in user when sign-in is available; an unknown view shows Home.
   */
  function RenderView(view: string, hasUser: bool, supabaseConfigured: bool): (r: Screen)
    ensures view == Constants.AppView.PMCAgent.Value() ==>
      (r == AuthRequiredScreen <==> !hasUser && supabaseConfigured)
      && (r != AuthRequiredScreen ==> r == AgentScreen)
    ensures Constants.ParseAppView(view).None? ==> r == HomeScreen
    ensures Constants.ParseAppView(view) == Some(Constants.AppView.Home) ==> r == HomeScreen
    ensures Constants.ParseAppView(view) == Some(Constants.AppView.About) ==> r == AboutScreen
    ensures Constants.ParseAppView(view) == Some(Constants.AppView.Contact) ==> r == ContactScreen
    ensures Constants.ParseAppView(view) == Some(Constants.AppView.Terms) ==> r == TermsScreen
    ensures Constants.ParseAppView(view) == Some(Constants.AppView.Privacy) ==> r == PrivacyScreen
    ensures r == AuthRequiredScreen ==> !hasUser && supabaseConfigured
  {
    match Constants.ParseAppView(view)
    case None => HomeScreen
    case Some(v) =>
      match v
      case Home => HomeScreen
      case PMCAgent => if !hasUser && supabaseConfigured then AuthRequiredScreen else AgentScreen
      case About => AboutScreen
      case Contact => ContactScreen
      case Terms => TermsScreen
      case Privacy => PrivacyScreen
  }

  /** Only the agent view depends on who is signed in: every other view renders the same for everyone. */
  lemma OnlyAgentIsGated(view: string, u1: bool, u2: bool, configured: bool)
    requires view != Constants.AppView.PMCAgent.Value()
    ensures RenderView(view, u1, configured) == RenderView(view, u2, configured)
    ensures RenderView(view, u1, configured) != AgentScreen
  {
  }

  const Light := "light"
  const Dark := "dark"

  /** `toggleTheme`: light becomes dark, and anything else becomes light. */
  function ToggleTheme(theme: string): (r: string)
    ensures r == Dark <==> theme == Light
    ensures r == Light || r == Dark
  {
    if theme == Light then Dark else Light
  }

  /** The language button: English becomes Arabic, and anything else becomes English. */
  function ToggleLanguage(language: string): (r: string)
    ensures r == Constants.Language.AR.Code() <==> language == Constants.Language.EN.Code()
    ensures r == Constants.Language.EN.Code() || r == Constants.Language.AR.Code()
  {
    if language == Constants.Language.EN.Code() then Constants.Language.AR.Code() else Constants.Language.EN.Code()
  }

  /** Toggling twice restores a theme that is light or dark, and a language that is English or Arabic. */
  lemma TogglesAreInvolutions(theme: string, language: string)
    ensures theme == Light || theme == Dark ==> ToggleTheme(ToggleTheme(theme)) == theme
    ensures language == Constants.Language.EN.Code() || language == Constants.Language.AR.Code() ==>
      ToggleLanguage(ToggleLanguage(language)) == language
  {
  }

  /**
   * The initial theme: the stored one if it is a non-empty string, else dark
   * when the system prefers a dark scheme, else light.
   */
  function InitialTheme(stored: Option<string>, prefersDark: bool): (r: string)
    ensures Filled(stored) ==> r == stored.value
    ensures !Filled(stored) ==> (r == Dark <==> prefersDark) && (r == Light <==> !prefersDark)
    ensures r != ""
  {
    if Filled(stored) then stored.value else if prefersDark then Dark else Light
  }

  /** The document direction: right-to-left for Arabic only. */
  function Direction(language: string): (r: string)
    ensures r == "rtl" <==> language == Constants.Language.AR.Code()
    ensures r == "rtl" || r == "ltr"
  {
    if language == Constants.Language.AR.Code() then "rtl" else "ltr"
  }

  /** A signed-in user as the header reads it. */
  datatype User = User(email: string, metadataFullName: Option<Value>)

  /** The header's name: the full name if truthy, else the email up to its first `@`. */
  function HeaderName(user: User): (r: Value)
    ensures Truthy(user.metadataFullName) ==> r == user.metadataFullName.value
    ensures !Truthy(user.metadataFullName) ==>
      exists s :: r == Str(s) && s <= user.email && !Contains(s, "@")
        && (s == user.email || OccursAt(user.email, "@", |s|))
  {
    if Truthy(user.metadataFullName) then user.metadataFullName.value
    else
      var i := IndexOf(user.email, "@");
      if i < 0 then
        assert !Contains(user.email, "@");
        Str(user.email)
      else
        var s := user.email[..i];
        assert !Contains(s, "@") by {
          forall j | 0 <= j <= |s| - 1 ensures !OccursAt(s, "@", j) {
            assert !OccursAt(user.email, "@", j);
          }
        }
        Str(s)
  }

  /** The application's state with the document and storage it keeps in step. */
  class Shell {
    var view: string
    var language: string
    var theme: string
    var isMobileMenuOpen: bool
    var isAuthModalOpen: bool
    var isSettingsOpen: bool
    var user: Option<User>
    const supabaseConfigured: bool
    /** The `dark` class on the document root. */
    var darkClass: bool
    /** The document's `lang` and `dir` attributes. */
    var documentLang: string
    var documentDir: string
    const storage: LocalStorage

    /** What the effects keep true after every render. */
    predicate Valid()
      reads this, storage
    {
      && darkClass == (theme == Dark)
      && storage.GetItem("theme") == Some(theme)
      && documentLang == language
      && documentDir == Direction(language)
    }

    /** The screen in the main area. */
    function Screen(): (r: Screen)
      reads this
      ensures r == RenderView(view, user.Some?, supabaseConfigured)
    {
      RenderView(view, user.Some?, supabaseConfigured)
    }

    /** The theme effect: the class follows the theme, which is stored. */
    method ApplyTheme()
      modifies this, storage
      ensures darkClass == (theme == Dark)
      ensures storage.entries == old(storage.entries)["theme" := theme]
      ensures view == old(view) && language == old(language) && theme == old(theme) && user == old(user)
      ensures documentLang == old(documentLang) && documentDir == old(documentDir)
      ensures isMobileMenuOpen == old(isMobileMenuOpen) && isAuthModalOpen == old(isAuthModalOpen)
      ensures isSettingsOpen == old(isSettingsOpen)
    {
      darkClass := theme == Dark;
      storage.SetItem("theme", theme);
    }

    /** The language effect: the document's language and direction follow the language. */
    method ApplyLanguage()
      modifies this
      ensures documentLang == language && documentDir == Direction(language)
      ensures view == old(view) && language == old(language) && theme == old(theme) && user == old(user)
      ensures darkClass == old(darkClass)
      ensures isMobileMenuOpen == old(isMobileMenuOpen) && isAuthModalOpen == old(isAuthModalOpen)
      ensures isSettingsOpen == old(isSettingsOpen)
    {
      documentLang := language;
      documentDir := Direction(language);
    }

    /**
     * The first render: Home in Arabic, no dialog open, nobody signed in, and
     * the initial theme read from storage and the system preference.
     */
    constructor (storage: LocalStorage, prefersDark: bool, supabaseConfigured: bool)
      modifies storage
      ensures Valid() && this.storage == storage
      ensures view == Constants.AppView.Home.Value() && language == Constants.Language.AR.Code()
      ensures theme == InitialTheme(old(storage.GetItem("theme")), prefersDark)
      ensures !isMobileMenuOpen && !isAuthModalOpen && !isSettingsOpen && user.None?
      ensures this.supabaseConfigured == supabaseConfigured
      ensures storage.entries == old(storage.entries)["theme" := theme]
    {
      view := Constants.AppView.Home.Value();
      language := Constants.Language.AR.Code();
      isMobileMenuOpen := false;
      isAuthModalOpen := false;
      isSettingsOpen := false;
      user := None;
      this.supabaseConfigured := supabaseConfigured;
      this.storage := storage;
      theme := InitialTheme(storage.GetItem("theme"), prefersDark);
      new;
      darkClass := theme == Dark;
      storage.SetItem("theme", theme);
      documentLang := language;
      documentDir := Direction(language);
    }

    /** The theme button, followed by the theme effect. */
    method ToggleThemeClicked()
      requires Valid()
      modifies this, storage
      ensures Valid()
      ensures theme == ToggleTheme(old(theme))
      ensures storage.entries == old(storage.entries)["theme" := theme]
      ensures view == old(view) && language == old(language) && user == old(user)
      ensures isMobileMenuOpen == old(isMobileMenuOpen) && isAuthModalOpen == old(isAuthModalOpen)
      ensures isSettingsOpen == old(isSettingsOpen)
    {
      theme := ToggleTheme(theme);
      ApplyTheme();
    }

    /** The language button, followed by the language effect. */
    method ToggleLanguageClicked()
      requires Valid()
      modifies this
      ensures Valid()
      ensures language == ToggleLanguage(old(language))
      ensures view == old(view) && theme == old(theme) && user == old(user)
      ensures isMobileMenuOpen == old(isMobileMenuOpen) && isAuthModalOpen == old(isAuthModalOpen)
      ensures isSettingsOpen == old(isSettingsOpen)
    {
      language := ToggleLanguage(language);
      ApplyLanguage();
    }

    /** A navigation button; from the mobile menu it also closes the menu. */
    method Navigate(target: Constants.AppView, fromMobileMenu: bool)
      requires Valid()
      modifies this
      ensures Valid()
      ensures view == target.Value()
      ensures isMobileMenuOpen == (old(isMobileMenuOpen) && !fromMobileMenu)
      ensures language == old(language) && theme == old(theme) && user == old(user)
      ensures isAuthModalOpen == old(isAuthModalOpen) && isSettingsOpen == old(isSettingsOpen)
    {
      view := target.Value();
      if fromMobileMenu {
        isMobileMenuOpen := false;
      }
    }

    /** Opening or closing the mobile menu, the sign-in dialog or the settings dialog. */
    method SetDialogs(menu: bool, auth: bool, settings: bool)
      requires Valid()
      modifies this
      ensures Valid()
      ensures isMobileMenuOpen == menu && isAuthModalOpen == auth && isSettingsOpen == settings
      ensures view == old(view) && language == old(language) && theme == old(theme) && user == old(user)
    {
      isMobileMenuOpen := menu;
      isAuthModalOpen := auth;
      isSettingsOpen := settings;
    }

    /**
     * The session listener: the session's user, or nobody. It only fires
     * when sign-in is available.
     */
    method SessionChanged(sessionUser: Option<User>)
      requires Valid() && supabaseConfigured
      modifies this
      ensures Valid()
      ensures user == sessionUser
      ensures sessionUser.None? && view == Constants.AppView.PMCAgent.Value() ==> Screen() == AuthRequiredScreen
      ensures sessionUser.Some? && view == Constants.AppView.PMCAgent.Value() ==> Screen() == AgentScreen
      ensures view != Constants.AppView.PMCAgent.Value() ==> Screen() == old(Screen())
      ensures view == old(view) && language == old(language) && theme == old(theme)
      ensures isMobileMenuOpen == old(isMobileMenuOpen) && isAuthModalOpen == old(isAuthModalOpen)
      ensures isSettingsOpen == old(isSettingsOpen)
    {
      user := sessionUser;
    }
  }

  /**
   * Signing out changes the screen only on the agent view, and only when
   * sign-in is available; there the agent gives way to the sign-in prompt.
   */
  lemma SignOutGatesAgent(view: string, configured: bool)
    ensures RenderView(view, false, configured) ==
      if view == Constants.AppView.PMCAgent.Value() && configured then AuthRequiredScreen
      else RenderView(view, true, configured)
  {
    if view != Constants.AppView.PMCAgent.Value() {
      OnlyAgentIsGated(view, false, true, configured);
    }
  }
}
