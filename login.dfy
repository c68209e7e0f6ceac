/**
 * The login/signup page (frontend/src/app/login/page.tsx): a form in one of
 * two modes, a submit handler that talks to the identity provider, and the
 * choice of landing page by the `user_type` in the user's metadata.
 */
module Login {
  import opened Wrappers
  import opened Values
  import opened Session

  const ConfirmationSent := "Check your email for the confirmation link!"
  const ConfirmFirst := "Please confirm your email first!"

  /** The roles the form's select offers. */
  datatype Role = Adopter | Shelter

  /** The page each role lands on. */
  function Home(role: Role): string {
    match role
    case Adopter => "/adopter"
    case Shelter => "/shelter"
  }

  /**
   * `type === "shelter" ? "/shelter" : "/adopter"` where
   * `type = user_type || "adopter"`: only the string "shelter" leads to the
   * shelter page; anything else, a falsy value included, leads to the
   * adopter page.
   */
  function RouteFor(userType: Json): (route: string)
    ensures route == "/shelter" <==> userType == JStr("shelter")
    ensures route != "/shelter" ==> route == "/adopter"
    ensures !JsTruthy(userType) ==> route == "/adopter"
  {
    var chosen := if JsTruthy(userType) then userType else JStr("adopter");
    if chosen == JStr("shelter") then "/shelter" else "/adopter"
  }

  /** The landing page for a signed-in user, by `user_metadata.user_type`. */
  function UserRoute(user: User): (route: string)
    ensures route == "/shelter" || route == "/adopter"
    ensures route == "/shelter" <==> Get(user.userMetadata, "user_type") == JStr("shelter")
  {
    RouteFor(Get(user.userMetadata, "user_type"))
  }

  /**
   * The `user_type` value the form sends at signup; a user created with it
   * lands on that role's page.
   */
  function RoleName(role: Role): (name: string)
    ensures name == "adopter" || name == "shelter"
    ensures RouteFor(JStr(name)) == Home(role)
    ensures UserRoute(User(JStr("confirmed"), map["user_type" := JStr(name)])) == Home(role)
  {
    match role
    case Adopter => "adopter"
    case Shelter => "shelter"
  }

  /** What the page renders when it is mounted. */
  datatype View = RedirectTo(route: string) | Form

  /**
   * An already signed-in user with a confirmed email is sent to their
   * landing page and nothing is rendered; everyone else sees the form.
   */
  function PageView(user: Option<User>): (view: View)
    ensures view.RedirectTo? <==> user.Some? && Confirmed(user.value)
    ensures view.RedirectTo? ==> view.route == UserRoute(user.value)
  {
    if user.Some? && Confirmed(user.value) then RedirectTo(UserRoute(user.value)) else Form
  }

  /** A call to the identity provider. */
  datatype AuthRequest =
    | SignUp(email: string, password: string, metadata: map<string, Json>)
    | SignIn(email: string, password: string)

  /** The provider's answer: an error with its message, or success with the user it returns, if any. */
  datatype AuthReply =
    | AuthError(message: string)
    | AuthOk(user: Option<User>)

  /** The state of one mounted login page. */
  class LoginPage {
    var email: string
    var password: string
    var userType: Role
    var isSignup: bool

    /** The form starts empty, in signup mode, with the adopter role selected. */
    constructor ()
      ensures email == "" && password == "" && userType == Adopter && isSignup
    {
      email := "";
      password := "";
      userType := Adopter;
      isSignup := true;
    }

    method SetEmail(value: string)
      modifies this`email
      ensures email == value
    {
      email := value;
    }

    method SetPassword(value: string)
      modifies this`password
      ensures password == value
    {
      password := value;
    }

    method SetUserType(value: Role)
      modifies this`userType
      ensures userType == value
    {
      userType := value;
    }

    /** The button under the form switches between signup and login. */
    method ToggleMode()
      modifies this`isSignup
      ensures isSignup == !old(isSignup)
    {
      isSignup := !isSignup;
    }

    /**
     * handleSubmit. Signup sends the selected role as `user_type` metadata
     * and never navigates: it alerts the provider's error verbatim or asks
     * the user to confirm their email. Login alerts the provider's error
     * verbatim, navigates by role only when the returned user's email is
     * confirmed, and otherwise alerts that the email must be confirmed.
     */
    method HandleSubmit(reply: AuthReply) returns (request: AuthRequest, effect: Effect)
      ensures isSignup ==> request == SignUp(email, password, map["user_type" := JStr(RoleName(userType))])
      ensures !isSignup ==> request == SignIn(email, password)
      ensures reply.AuthError? ==> effect == Alert(reply.message)
      ensures effect.Navigate? <==>
        !isSignup && reply.AuthOk? && reply.user.Some? && Confirmed(reply.user.value)
      ensures effect.Navigate? ==> effect.route == UserRoute(reply.user.value)
      ensures isSignup && reply.AuthOk? ==> effect == Alert(ConfirmationSent)
      ensures !isSignup && reply.AuthOk? && !(reply.user.Some? && Confirmed(reply.user.value)) ==>
        effect == Alert(ConfirmFirst)
    {
      if isSignup {
        request := SignUp(email, password, map["user_type" := JStr(RoleName(userType))]);
        if reply.AuthError? {
          effect := Alert(reply.message);
        } else {
          effect := Alert(ConfirmationSent);
        }
      } else {
        request := SignIn(email, password);
        if reply.AuthError? {
          effect := Alert(reply.message);
        } else if reply.user.Some? && Confirmed(reply.user.value) {
          effect := Navigate(UserRoute(reply.user.value));
        } else {
          effect := Alert(ConfirmFirst);
        }
      }
    }
  }
}
