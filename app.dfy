/** The application shell: which screen shows (role picker, login, or the
    dashboard of the signed-in role), the language switch, and sign-in and
    sign-out. */
module AppShell {
  import opened Types
  import opened I18n
  import Login

  /** The four dashboards. */
  datatype Dashboard = CustomerDashboard | ShopDashboard | DeliveryDashboard | AdminDashboard

  datatype Screen = RolePicker | LoginScreen(role: UserRole) | DashboardScreen(view: Dashboard)

  /** The one dashboard the main area renders for a signed-in role. */
  function ViewFor(role: UserRole): (d: Dashboard)
    ensures d == CustomerDashboard <==> role == Customer
    ensures d == ShopDashboard <==> role == ShopOwner
    ensures d == DeliveryDashboard <==> role == DeliveryPartner
    ensures d == AdminDashboard <==> role == Admin
  {
    match role
    case Customer => CustomerDashboard
    case ShopOwner => ShopDashboard
    case DeliveryPartner => DeliveryDashboard
    case Admin => AdminDashboard
  }

  /** The screen for the shell's state: the role picker while no role is
      chosen, the login screen while a role is chosen but nobody is signed
      in, and the signed-in user's dashboard otherwise. */
  function ScreenFor(selectedRole: Option<UserRole>, user: Option<User>): (s: Screen)
    ensures s == RolePicker <==> selectedRole.None?
    ensures s.LoginScreen? <==> selectedRole.Some? && user.None?
    ensures s.LoginScreen? ==> s.role == selectedRole.value
    ensures s.DashboardScreen? <==> selectedRole.Some? && user.Some?
    ensures s.DashboardScreen? ==> s.view == ViewFor(user.value.role)
  {
    if selectedRole.None? then RolePicker
    else if user.None? then LoginScreen(selectedRole.value)
    else DashboardScreen(ViewFor(user.value.role))
  }

  /** The language button: English becomes Tamil and Tamil English. */
  function OtherLanguage(lang: Language): (r: Language)
    ensures r != lang
  {
    if lang == English then Tamil else English
  }

  lemma OtherLanguageTwice(lang: Language)
    ensures OtherLanguage(OtherLanguage(lang)) == lang
  {
  }

  class App {
    var selectedRole: Option<UserRole>
    var user: Option<User>
    var lang: Language

    constructor ()
      ensures selectedRole == None && user == None && lang == English
    {
      selectedRole := None;
      user := None;
      lang := English;
    }

    /** The screen the shell renders now. */
    function Current(): Screen
      reads this
    {
      ScreenFor(selectedRole, user)
    }

    /** A role card, or the settings button for the admin, on the role
        picker. With nobody signed in the login screen of that role follows;
        a user already set (by a late login, see `HandleLogin`) goes
        straight to that user's own dashboard, whatever role was picked. */
    method SelectRole(role: UserRole) returns (chosen: bool)
      modifies this
      ensures chosen == (old(Current()) == RolePicker)
      ensures selectedRole == if chosen then Some(role) else old(selectedRole)
      ensures chosen && user.None? ==> Current() == LoginScreen(role)
      ensures chosen && user.Some? ==> Current() == DashboardScreen(ViewFor(user.value.role))
      ensures user == old(user) && lang == old(lang)
    {
      chosen := selectedRole.None?;
      if chosen {
        selectedRole := Some(role);
      }
    }

    /** The language button on the role picker. */
    method ToggleLanguage() returns (toggled: bool)
      modifies this
      ensures toggled == (old(Current()) == RolePicker)
      ensures lang == if toggled then OtherLanguage(old(lang)) else old(lang)
      ensures selectedRole == old(selectedRole) && user == old(user)
    {
      toggled := selectedRole.None?;
      if toggled {
        lang := OtherLanguage(lang);
      }
    }

    /** `handleLogin`, the login screen's callback. It sets the user
        whatever the shell shows: the login screen's delayed answer is never
        cancelled, so it can arrive after Back, or after another role was
        picked, and its user's role need not be the chosen one. With a role
        chosen the user's own dashboard shows; with none, the role picker
        stays. */
    method HandleLogin(u: User)
      modifies this
      ensures user == Some(u)
      ensures Current() == if selectedRole.None? then RolePicker else DashboardScreen(ViewFor(u.role))
      ensures selectedRole == old(selectedRole) && lang == old(lang)
    {
      user := Some(u);
    }

    /** `handleLogout`, the header's sign-out button: back to the role
        picker with nobody signed in. */
    method HandleLogout() returns (signedOut: bool)
      modifies this
      ensures signedOut == old(Current()).DashboardScreen?
      ensures signedOut ==> user == None && selectedRole == None && Current() == RolePicker
      ensures !signedOut ==> user == old(user) && selectedRole == old(selectedRole)
      ensures lang == old(lang)
    {
      signedOut := selectedRole.Some? && user.Some?;
      if signedOut {
        user := None;
        selectedRole := None;
      }
    }

    /** The login screen's back button: only the chosen role is cleared. */
    method Back() returns (wentBack: bool)
      modifies this
      ensures wentBack == old(Current()).LoginScreen?
      ensures selectedRole == if wentBack then None else old(selectedRole)
      ensures wentBack ==> Current() == RolePicker
      ensures user == old(user) && lang == old(lang)
    {
      wentBack := selectedRole.Some? && user.None?;
      if wentBack {
        selectedRole := None;
      }
    }
  }

  /** A shop owner's way in: pick the role, submit the password form and
      wait for the answer; the shell then shows the shop dashboard under the
      name 'Shop Manager'. */
  method ShopOwnerSignIn(app: App) returns (login: Login.LoginView)
    requires app.selectedRole == None && app.user == None
    modifies app
    ensures app.selectedRole == Some(ShopOwner)
    ensures app.user == Some(User("Shop Manager", ShopOwner))
    ensures app.Current() == DashboardScreen(ShopDashboard)
  {
    var chosen := app.SelectRole(ShopOwner);
    login := new Login.LoginView(ShopOwner, app.lang);
    var started := login.HandleSubmit();
    var outcome := login.Resolve();
    app.HandleLogin(outcome.user);
  }

  /** A login answer that arrives late: the shop owner submits the password,
      goes back before the answer and picks the admin card; the pending
      answer then signs in 'Shop Manager', and the shell shows the shop
      dashboard under the admin role. */
  method StaleLogin(app: App) returns (login: Login.LoginView)
    requires app.selectedRole == None && app.user == None
    modifies app
    ensures app.selectedRole == Some(Admin)
    ensures app.user == Some(User("Shop Manager", ShopOwner))
    ensures app.Current() == DashboardScreen(ShopDashboard)
  {
    var chosen := app.SelectRole(ShopOwner);
    login := new Login.LoginView(ShopOwner, app.lang);
    var started := login.HandleSubmit();
    var wentBack := app.Back();
    assert app.Current() == RolePicker;
    chosen := app.SelectRole(Admin);
    assert app.Current() == LoginScreen(Admin);
    var outcome := login.Resolve();
    app.HandleLogin(outcome.user);
  }

  /** Two presses of the language button bring the first language back. */
  method ToggleLanguageTwice(app: App)
    requires app.selectedRole == None
    modifies app
    ensures app.lang == old(app.lang) && app.selectedRole == old(app.selectedRole) && app.user == old(app.user)
  {
    var toggled := app.ToggleLanguage();
    toggled := app.ToggleLanguage();
    OtherLanguageTwice(old(app.lang));
  }
}
