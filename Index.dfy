/**
 * The top-level page (src/pages/Index.tsx): which screen is on display,
 * which tool module is open, and who is signed in.
 */
module Index {
  import opened Wrappers
  import Auth

  /** `currentView`. */
  datatype View = LandingView | AuthView | DashboardView

  /** What `renderCurrentView` puts on screen. */
  datatype Screen =
    | LandingPage
    | AuthSystem
    | GraphQLStudio
    | SdkMigration
    | BridgeComposer
    | Dashboard(user: Option<Auth.User>)

  const GraphQLStudioId: string := "graphql-studio"
  const SdkMigrationId: string := "sdk-migration"
  const BridgeComposerId: string := "bridge-composer"

  datatype ModuleStatus = Active | Beta | ComingSoon

  /** A card of the dashboard's module grid, as far as routing cares. */
  datatype ModuleCard = ModuleCard(id: string, status: ModuleStatus)

  /** The dashboard's module cards, in display order. */
  const Modules: seq<ModuleCard> := [
    ModuleCard(GraphQLStudioId, Active),
    ModuleCard(SdkMigrationId, Active),
    ModuleCard(BridgeComposerId, Active),
    ModuleCard("scion-simulator", ComingSoon),
    ModuleCard("instant-deploy", ComingSoon),
    ModuleCard("move-simulator", ComingSoon)
  ]

  /** Can `id` be selected? A card calls `onModuleSelect` only when its status is active. */
  predicate Selectable(id: string): (b: bool)
    ensures b ==> id in {GraphQLStudioId, SdkMigrationId, BridgeComposerId}
  {
    exists i :: 0 <= i < |Modules| && Modules[i].id == id && Modules[i].status == Active
  }

  predicate IsTool(s: Screen)
  {
    s == GraphQLStudio || s == SdkMigration || s == BridgeComposer
  }

  /** The tool screen a module id opens, if it names one. */
  function ToolScreen(id: string): (r: Option<Screen>)
    ensures r.Some? <==> id in {GraphQLStudioId, SdkMigrationId, BridgeComposerId}
    ensures r.Some? ==> IsTool(r.value)
    ensures id == GraphQLStudioId ==> r == Some(GraphQLStudio)
    ensures id == SdkMigrationId ==> r == Some(SdkMigration)
    ensures id == BridgeComposerId ==> r == Some(BridgeComposer)
  {
    if id == GraphQLStudioId then Some(GraphQLStudio)
    else if id == SdkMigrationId then Some(SdkMigration)
    else if id == BridgeComposerId then Some(BridgeComposer)
    else None
  }

  /** Distinct module ids open distinct tools. */
  lemma ToolScreenInjective(a: string, b: string)
    requires ToolScreen(a).Some? && ToolScreen(a) == ToolScreen(b)
    ensures a == b
  {
  }

  /** The selectable modules are exactly the ones that have a tool screen. */
  lemma SelectableIffTool(id: string)
    ensures Selectable(id) <==> ToolScreen(id).Some?
  {
    if ToolScreen(id).Some? {
      if id == GraphQLStudioId { assert Modules[0].id == id; }
      else if id == SdkMigrationId { assert Modules[1].id == id; }
      else { assert Modules[2].id == id; }
    }
    if Selectable(id) {
      var i :| 0 <= i < |Modules| && Modules[i].id == id && Modules[i].status == Active;
      assert i < 3;
    }
  }

  /** `renderCurrentView`: the screen for a view, an open module and a user. */
  function Render(view: View, selected: Option<string>, user: Option<Auth.User>): (s: Screen)
    ensures s == LandingPage <==> view == LandingView
    ensures s == AuthSystem <==> view == AuthView
    ensures IsTool(s) <==> view == DashboardView && selected.Some? && ToolScreen(selected.value).Some?
    ensures IsTool(s) ==> Some(s) == ToolScreen(selected.value)
    ensures s.Dashboard? <==> view == DashboardView && (selected.None? || ToolScreen(selected.value).None?)
    ensures s.Dashboard? ==> s.user == user
  {
    match view
    case LandingView => LandingPage
    case AuthView => AuthSystem
    case DashboardView =>
      if selected.Some? && ToolScreen(selected.value).Some? then ToolScreen(selected.value).value
      else Dashboard(user)
  }

  /**
   * The page's invariant: the dashboard view is reached only with a user,
   * and a module is open only in the dashboard view and only if its card
   * is selectable.
   */
  predicate Consistent(view: View, selected: Option<string>, user: Option<Auth.User>)
  {
    && (view == DashboardView ==> user.Some?)
    && (selected.Some? ==> view == DashboardView && Selectable(selected.value))
  }

  /** In a consistent state every screen past the landing and sign-in pages has a user, and an open module always shows its tool. */
  lemma ConsistentScreens(view: View, selected: Option<string>, user: Option<Auth.User>)
    requires Consistent(view, selected, user)
    ensures Render(view, selected, user) != LandingPage && Render(view, selected, user) != AuthSystem ==> user.Some?
    ensures selected.Some? ==> IsTool(Render(view, selected, user))
  {
  }

  /** The view the page starts in: the dashboard when a stored user was found, else the landing page. */
  function InitialView(stored: Option<Auth.User>): (v: View)
    ensures v == DashboardView <==> stored.Some?
    ensures v != AuthView
  {
    if stored.Some? then DashboardView else LandingView
  }

  /** The page's state: `currentView`, `currentModule` and `user`. */
  class App {
    var currentView: View
    var currentModule: Option<string>
    var user: Option<Auth.User>

    ghost predicate Valid()
      reads this
    {
      Consistent(currentView, currentModule, user)
    }

    /** The screen on display. */
    function CurrentScreen(): Screen
      reads this
    {
      Render(currentView, currentModule, user)
    }

    /**
     * The page once its mount effect has run: `stored` is the user read
     * back from storage, or None when there is none or it cannot be read.
     */
    constructor (stored: Option<Auth.User>)
      ensures Valid()
      ensures currentView == InitialView(stored)
      ensures currentModule == None && user == stored
    {
      currentView := InitialView(stored);
      currentModule := None;
      user := stored;
    }

    /** `handleEnterApp`: straight to the dashboard when signed in, else to the sign-in form. */
    method EnterApp()
      requires Valid()
      modifies this`currentView
      ensures Valid()
      ensures currentView == if user.Some? then DashboardView else AuthView
    {
      if user.Some? {
        currentView := DashboardView;
      } else {
        currentView := AuthView;
      }
    }

    /** `handleAuthenticated`: record the user and show the dashboard. */
    method Authenticated(u: Auth.User)
      requires Valid()
      modifies this`user, this`currentView
      ensures Valid()
      ensures user == Some(u) && currentView == DashboardView
    {
      user := Some(u);
      currentView := DashboardView;
    }

    /** `handleModuleSelect`, reached from an active card of the dashboard screen. */
    method SelectModule(id: string)
      requires Valid()
      requires CurrentScreen().Dashboard? && Selectable(id)
      modifies this`currentModule
      ensures Valid()
      ensures currentModule == Some(id)
      ensures IsTool(CurrentScreen()) && Some(CurrentScreen()) == ToolScreen(id)
    {
      currentModule := Some(id);
      SelectableIffTool(id);
    }

    /** `handleBackToDashboard`: close the open module. */
    method BackToDashboard()
      requires Valid()
      modifies this`currentModule
      ensures Valid()
      ensures currentModule == None
      ensures currentView == DashboardView ==> CurrentScreen() == Dashboard(user)
    {
      currentModule := None;
    }

    /** `handleLogout`: forget the user and the module and return to the landing page. */
    method Logout()
      modifies this
      ensures Valid()
      ensures user == None && currentModule == None && currentView == LandingView
    {
      user := None;
      currentModule := None;
      currentView := LandingView;
    }
  }
}
