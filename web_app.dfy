/**
 * The request decisions of main.py, the web front end: the login status
 * flag `invalid_login` with its error callback and the password login route,
 * the zeroconf action dispatch, and the input checks of the volume and
 * display-name routes. Flask, JSON rendering and the HTTP server are not
 * modelled; a reply is its status code, its error text and the library call
 * the route makes.
 */
module WebApp {
  import opened Common
  import opened Control

  /** The error codes the library reports to `web_error_callback`. */
  datatype SpError = ErrorLoginBadCredentials | OtherError(code: int)

  datatype HttpMethod = GET | POST

  /** The JSON body of `check_login`. */
  datatype LoginStatus = LoginStatus(finished: bool, success: bool)

  /** What `login_zeroconf` answers: a status object, or the `get_info` or `add_user` handler. */
  datatype ZeroconfReply = StatusReply(status: int, spotifyError: int, statusString: string) | GetInfo | AddUser

  /**
   * What `int(request.form.get('value'))` makes of the form field: it raises
   * for a missing field or for text that is not an integer literal.
   */
  datatype FormInt = Missing | NotAnInteger | Integer(n: int)

  /** The library calls the volume and display-name routes make. */
  datatype ApiCall = SpPlaybackUpdateVolume(volume: int) | SpSetDisplayName(name: string)

  /** A route's reply: HTTP status, the `error` text of a JSON error body (empty otherwise), and the call made. */
  datatype Reply = Reply(status: int, error: string, call: Option<ApiCall>)

  /** A flashed message and its category. */
  datatype Flash = Flash(message: string, category: string)

  /** The exception Python 2's `str` raises on text it cannot encode as ASCII. */
  datatype StrError = UnicodeEncodeError

  /** Text whose every character is ASCII. */
  predicate Ascii(text: string)
  {
    forall i :: 0 <= i < |text| ==> text[i] as int < 128
  }

  /**
   * Python 2's `str` of an optional form field. Form values are unicode
   * text: a missing field becomes the text "None", an ASCII value is kept,
   * and a value with any other character raises `UnicodeEncodeError`.
   */
  function PyStr(field: Option<string>): (s: Result<string, StrError>)
    ensures s.Err? <==> field.Some? && !Ascii(field.value)
    ensures s.Ok? && field.Some? ==> s.value == field.value
    ensures field.None? ==> s == Ok("None") && s.value != ""
  {
    match field
    case None => Ok("None")
    case Some(text) => if Ascii(text) then Ok(text) else Err(UnicodeEncodeError)
  }

  /** `request.args.get('action') or request.form.get('action')` */
  function Action(argAction: Option<string>, formAction: Option<string>): (action: Option<string>)
    ensures Truthy(action) <==> Truthy(argAction) || Truthy(formAction)
    ensures Truthy(argAction) ==> action == argAction
    ensures !Truthy(argAction) ==> action == formAction
  {
    if Truthy(argAction) then argAction else formAction
  }

  /**
   * `login_zeroconf`: no action gives status 301 ERROR-MISSING-ACTION,
   * getInfo over GET and addUser over POST go to their handlers, and every
   * other action and method gives status 301 ERROR-INVALID-ACTION.
   */
  function LoginZeroconf(argAction: Option<string>, formAction: Option<string>, httpMethod: HttpMethod): (r: ZeroconfReply)
    ensures r == StatusReply(301, 0, "ERROR-MISSING-ACTION") <==> !Truthy(argAction) && !Truthy(formAction)
    ensures r == GetInfo <==> Action(argAction, formAction) == Some("getInfo") && httpMethod == GET
    ensures r == AddUser <==> Action(argAction, formAction) == Some("addUser") && httpMethod == POST
    ensures r.StatusReply? ==> r.status == 301 && r.spotifyError == 0
    ensures r.StatusReply? ==>
              r.statusString == "ERROR-MISSING-ACTION" || r.statusString == "ERROR-INVALID-ACTION"
  {
    var action := Action(argAction, formAction);
    if !Truthy(action) then StatusReply(301, 0, "ERROR-MISSING-ACTION")
    else if action.value == "getInfo" && httpMethod == GET then GetInfo
    else if action.value == "addUser" && httpMethod == POST then AddUser
    else StatusReply(301, 0, "ERROR-INVALID-ACTION")
  }

  /**
   * The POST volume route: a value that is missing or not an integer is an
   * uncaught exception (500), zero is rejected with 400, and any other
   * integer, negative ones included, is passed to the library with 204.
   */
  function PlaybackVolumePost(value: FormInt): (r: Reply)
    ensures r.status == 204 <==> value.Integer? && value.n != 0
    ensures r.status == 204 ==> r.call == Some(SpPlaybackUpdateVolume(value.n))
    ensures r.status != 204 ==> r.call == None
    ensures value == Integer(0) ==> r == Reply(400, "value must be set", None)
    ensures !value.Integer? ==> r.status == 500
  {
    match value
    case Missing => Reply(500, "", None)
    case NotAnInteger => Reply(500, "", None)
    case Integer(volume) =>
      if volume == 0 then Reply(400, "value must be set", None)
      else Reply(204, "", Some(SpPlaybackUpdateVolume(volume)))
  }

  /**
   * The POST display-name route: a value that `str` cannot encode is an
   * uncaught exception (500), only an empty field is rejected with 400, and a
   * missing field sets the display name "None".
   */
  function InfoDisplayNamePost(displayName: Option<string>): (r: Reply)
    ensures r.status == 500 <==> displayName.Some? && !Ascii(displayName.value)
    ensures r.status == 400 <==> displayName == Some("")
    ensures r.status == 500 ==> r == Reply(500, "", None)
    ensures r.status == 400 ==> r == Reply(400, "displayName must be set", None)
    ensures r.status != 500 && r.status != 400 ==>
              r == Reply(204, "", Some(SpSetDisplayName(if displayName.Some? then displayName.value else "None")))
  {
    match PyStr(displayName)
    case Err(_) => Reply(500, "", None)
    case Ok(name) =>
      if name == "" then Reply(400, "displayName must be set", None)
      else Reply(204, "", Some(SpSetDisplayName(name)))
  }

  class Web {
    /** `connect_app` */
    const connect: Connect
    /** `invalid_login` */
    var invalidLogin: bool

    constructor (connect: Connect)
      ensures this.connect == connect && !invalidLogin
    {
      this.connect := connect;
      invalidLogin := false;
    }

    /** `web_error_callback`: only the bad-credentials error marks the login invalid. */
    method WebErrorCallback(error: SpError)
      modifies this`invalidLogin
      ensures invalidLogin <==> old(invalidLogin) || error == ErrorLoginBadCredentials
    {
      if error == ErrorLoginBadCredentials {
        invalidLogin := true;
      }
    }

    /**
     * `check_login`: a bad-credentials error finishes the attempt without
     * success; otherwise the attempt is finished, and successful, exactly
     * when the library reports a logged-in session.
     */
    function CheckLogin(loggedIn: bool): (r: LoginStatus)
      reads this
      ensures r.finished <==> invalidLogin || loggedIn
      ensures r.success <==> !invalidLogin && loggedIn
      ensures r.success ==> r.finished
    {
      if invalidLogin then LoginStatus(true, false)
      else if loggedIn then LoginStatus(true, true)
      else LoginStatus(false, false)
    }

    /**
     * `login_password`: clear the invalid-login flag, then log in with the
     * password unless either field, as Python text, is empty. A missing
     * field is the text "None" and is not caught. A field that `str` cannot
     * encode raises after the flag is cleared: no message is flashed
     * (`flash` is `None`) and no login is made.
     */
    method LoginPassword(username: Option<string>, password: Option<string>) returns (flash: Option<Flash>)
      modifies this`invalidLogin, connect`credentials, connect`calls
      ensures !invalidLogin
      ensures PyStr(username).Err? || PyStr(password).Err? ==> flash == None && unchanged(connect)
      ensures PyStr(username).Ok? && PyStr(password).Ok? && (PyStr(username).value == "" || PyStr(password).value == "") ==>
                flash == Some(Flash("Username or password not specified", "danger")) && unchanged(connect)
      ensures PyStr(username).Ok? && PyStr(password).Ok? && PyStr(username).value != "" && PyStr(password).value != "" ==>
                && flash == Some(Flash("Waiting for spotify", "info"))
                && connect.credentials == old(connect.credentials).(username := Some(PyStr(username).value))
                && connect.calls == old(connect.calls) + [SpConnectionLoginPassword(PyStr(username).value, PyStr(password).value)]
    {
      invalidLogin := false;
      var user := PyStr(username);
      if user.Err? {
        return None;
      }
      var pass := PyStr(password);
      if pass.Err? {
        return None;
      }
      if user.value == "" || pass.value == "" {
        flash := Some(Flash("Username or password not specified", "danger"));
      } else {
        flash := Some(Flash("Waiting for spotify", "info"));
        var _ := connect.Login(Some(user.value), Some(pass.value), None, None);
      }
    }
  }
}
