/**
 * The application shell around the screens: the demo sign-in (the role follows
 * from the e-mail address), sign-out, the four-step onboarding wizard, and which
 * of the sign-in page, the wizard or the main layout is shown.
 */
module Session {
  import opened ArrayOps

  datatype Role = Admin | Staff

  datatype User = User(id: string, name: string, email: string, role: Role)

  /** The shell state the screens share. */
  datatype AppState = AppState(user: Option<User>, restaurantName: string, isOnboarded: bool)

  datatype Screen = SignIn | Onboarding | Layout

  /** The state the application starts in. */
  const Initial: AppState := AppState(None, "", false)

  /** `String.prototype.includes`: `sub` occurs somewhere in `s`. */
  function Includes(s: string, sub: string): (r: bool)
    ensures r ==> |sub| <= |s|
    ensures |sub| <= |s| && s[..|sub|] == sub ==> r
    decreases |s|
  {
    if |sub| > |s| then false
    else if s[..|sub|] == sub then true
    else Includes(s[1..], sub)
  }

  /** `sub` occurs in `s` starting at position `i`. */
  predicate OccursAt(s: string, sub: string, i: int) {
    0 <= i && i + |sub| <= |s| && s[i..i + |sub|] == sub
  }

  /** `Includes` holds exactly when `sub` occurs at some position of `s`. */
  lemma {:induction false} IncludesIffOccurs(s: string, sub: string)
    ensures Includes(s, sub) <==> exists i :: OccursAt(s, sub, i)
    decreases |s|
  {
    if |sub| > |s| {
      assert forall i :: !OccursAt(s, sub, i);
    } else if s[..|sub|] == sub {
      assert OccursAt(s, sub, 0);
    } else {
      IncludesIffOccurs(s[1..], sub);
      if exists i :: OccursAt(s, sub, i) {
        var i :| OccursAt(s, sub, i);
        assert i != 0;
        assert s[1..][i - 1..i - 1 + |sub|] == s[i..i + |sub|];
        assert OccursAt(s[1..], sub, i - 1);
      }
      if exists i :: OccursAt(s[1..], sub, i) {
        var i :| OccursAt(s[1..], sub, i);
        assert s[1..][i..i + |sub|] == s[i + 1..i + 1 + |sub|];
        assert OccursAt(s, sub, i + 1);
      }
    }
  }

  /**
   * The demo sign-in grants the owner role to any address containing "admin":
   * the role is Admin exactly when "admin" occurs at some position of the address.
   */
  function RoleFor(email: string): (r: Role)
    ensures r == Admin <==> exists i :: OccursAt(email, "admin", i)
  {
    IncludesIffOccurs(email, "admin");
    if Includes(email, "admin") then Admin else Staff
  }

  /** The name the top bar shows for a role. */
  function DisplayName(role: Role): string {
    if role == Admin then "Ägare" else "Personal"
  }

  /** Signing in stores the user; the display name follows the role. */
  function Login(st: AppState, email: string, role: Role): (r: AppState)
    ensures r.user == Some(User("1", DisplayName(role), email, role))
    ensures r.restaurantName == st.restaurantName && r.isOnboarded == st.isOnboarded
  {
    st.(user := Some(User("1", DisplayName(role), email, role)))
  }

  /** Submitting the sign-in form: sign in with the role the address gives, and greet. */
  function SubmitSignIn(st: AppState, email: string): (r: (AppState, string))
    ensures r.0.user.Some? && r.0.user.value.email == email && r.0.user.value.id == "1"
    ensures r.0.user.value.role == Admin <==> Includes(email, "admin")
    ensures r.0.user.value.name == (if Includes(email, "admin") then "Ägare" else "Personal")
    ensures r.0.restaurantName == st.restaurantName && r.0.isOnboarded == st.isOnboarded
    ensures r.1 == (if Includes(email, "admin") then "Välkommen tillbaka, Ägare!"
                    else "Välkommen tillbaka, Personal!")
  {
    var role := RoleFor(email);
    (Login(st, email, role), "Välkommen tillbaka, " + DisplayName(role) + "!")
  }

  /** Signing out forgets the user, the onboarding and the restaurant name. */
  function Logout(st: AppState): (r: AppState)
    ensures r == Initial
  {
    AppState(None, "", false)
  }

  /** Which top-level view the shell renders. */
  function CurrentScreen(st: AppState): (r: Screen)
    ensures r == SignIn <==> st.user.None?
    ensures r == Onboarding <==> st.user.Some? && !st.isOnboarded
    ensures r == Layout <==> st.user.Some? && st.isOnboarded
  {
    if st.user.None? then SignIn
    else if !st.isOnboarded then Onboarding
    else Layout
  }

  /**
   * The shell's order: sign-in first, then the wizard, then the layout; signing
   * out and in again goes through the wizard again.
   */
  lemma ScreenOrder(st: AppState, email: string, role: Role)
    ensures CurrentScreen(Logout(st)) == SignIn
    ensures CurrentScreen(Login(st, email, role)) == if st.isOnboarded then Layout else Onboarding
    ensures CurrentScreen(Login(Logout(st), email, role)) == Onboarding
  {
  }

  // ---------------------------------------------------------------------------
  // Onboarding wizard

  datatype Wizard = Wizard(step: int, name: string)

  /** The wizard opens on step 1 with a suggested restaurant name. */
  const FirstStep: Wizard := Wizard(1, "Bistro Noory")

  predicate ValidStep(w: Wizard) {
    1 <= w.step <= 4
  }

  datatype WizardOutcome = WizardOutcome(app: AppState, wizard: Wizard, toast: Option<string>)

  /** "Nästa steg" on steps 1-3; on step 4 "Slutför Setup" names the restaurant and finishes. */
  function NextStep(app: AppState, w: Wizard): (r: WizardOutcome)
    ensures w.step < 4 ==> r == WizardOutcome(app, w.(step := w.step + 1), None)
    ensures w.step >= 4 ==> r.wizard == w && r.app.isOnboarded && r.app.restaurantName == w.name
    ensures w.step >= 4 ==> r.app.user == app.user && r.toast == Some("Din restaurang är nu konfigurerad!")
  {
    if w.step < 4 then WizardOutcome(app, w.(step := w.step + 1), None)
    else WizardOutcome(app.(restaurantName := w.name, isOnboarded := true), w,
                       Some("Din restaurang är nu konfigurerad!"))
  }

  /** "Tillbaka", which the wizard only offers after step 1. */
  function PreviousStep(w: Wizard): (r: Wizard)
    ensures w.step > 1 ==> r == w.(step := w.step - 1)
    ensures w.step <= 1 ==> r == w
  {
    if w.step > 1 then w.(step := w.step - 1) else w
  }

  /** Neither button leaves the steps 1 to 4. */
  lemma StepStaysInRange(app: AppState, w: Wizard)
    requires ValidStep(w)
    ensures ValidStep(NextStep(app, w).wizard) && ValidStep(PreviousStep(w))
  {
  }

  /**
   * A signed-in user who presses "next" four times from the first step has
   * finished onboarding under the chosen name and reaches the main layout.
   */
  lemma FourNextsFinishOnboarding(app: AppState, name: string)
    requires app.user.Some?
    ensures var r1 := NextStep(app, FirstStep.(name := name));
      var r2 := NextStep(r1.app, r1.wizard);
      var r3 := NextStep(r2.app, r2.wizard);
      var r4 := NextStep(r3.app, r3.wizard);
      && r3.app == app && r3.wizard.step == 4
      && r4.app.isOnboarded && r4.app.restaurantName == name
      && CurrentScreen(r4.app) == Layout
  {
  }

  /** The demo accounts: the admin address signs in as owner, the staff address as staff. */
  lemma DemoAccounts()
    ensures RoleFor("admin@demo.se") == Admin
    ensures RoleFor("staff@demo.se") == Staff
  {
    assert "admin@demo.se"[..5] == "admin";
    var staff := "staff@demo.se";
    forall i | 0 <= i ensures !OccursAt(staff, "admin", i) {
      if i + 5 <= |staff| {
        assert staff[i..i + 5][0] == staff[i] && staff[i..i + 5][1] == staff[i + 1];
      }
    }
    assert RoleFor(staff) == Staff;
  }
}
