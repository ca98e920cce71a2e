/**
  The login page object: it logs in by posting the login form from a
  script in the browser, then waits for the logout link that marks an
  authenticated session. The browser is a record of the steps the page
  asks of it.
 */
module Login {
  import opened Wrappers
  import opened JavaText
  import opened Templates

  const LOGIN_PATH := "/login.htm"
  const LOGOUT_PATH := "/logout"
  const CLERK_USERNAME := "clerk"
  const CLERK_PASSWORD := "Clerk123"
  const NURSE_USERNAME := "nurse"
  const NURSE_PASSWORD := "Nurse123"
  const DOCTOR_USERNAME := "doctor"
  const DOCTOR_PASSWORD := "Doctor123"
  const SYSADMIN_USERNAME := "sysadmin"
  const SYSADMIN_PASSWORD := "Sysadmin123"

  /** The location login(user, password) posts. */
  const DEFAULT_LOCATION := 1

  /** What the page asks of the browser. */
  datatype BrowserStep =
    | WaitForPageReady          // waitForPageToBeReady(true)
    | ExecuteScript(script: string)
    | WaitForLink(href: string) // findElement(byFromHref(href)), which waits for it

  /** The call appended to post.js: post(url, {username, password,
      sessionLocation}), the strings single-quoted and the location as a
      decimal number. */
  function PostCall(url: string, user: string, password: string, location: int): string {
    " post('" + url + "', {username: '" + user + "', password: '" + password
      + "', sessionLocation: " + IntToString(location) + "});"
  }

  /** The literal text around the four values of a post call. */
  const POST_CALL_PIECES: seq<string> :=
    [" post('", "', {username: '", "', password: '", "', sessionLocation: ", "});"]

  lemma PostCallIsFill(url: string, user: string, password: string, location: int)
    ensures PostCall(url, user, password, location) ==
            Fill(POST_CALL_PIECES, [url, user, password, IntToString(location)])
  {
    FillFour(" post('", "', {username: '", "', password: '", "', sessionLocation: ", "});",
             url, user, password, IntToString(location));
  }

  /** The url, the credentials and the location a post call carries. */
  function ReadPostCall(s: string): Option<(string, string, string, int)> {
    match Match(POST_CALL_PIECES, s)
    case None => None
    case Some(vs) =>
      if |vs| != 4 then None
      else
        match ParseInt(vs[3])
        case None => None
        case Some(n) => Some((vs[0], vs[1], vs[2], n))
  }

  /** The decimal text of an int contains no character but '-' and digits. */
  lemma IntTextHasNo(n: int, c: char)
    requires c != '-' && !IsDigit(c)
    ensures c !in IntToString(n)
  {
    var d := NatToString(if n < 0 then -n else n);
    assert forall i :: 0 <= i < |d| ==> d[i] != c;
    assert IntToString(n) == d || IntToString(n) == "-" + d;
  }

  /** As long as the url and the credentials hold no single quote, the
      script's post call hands the server exactly the url, user name,
      password and location it was built from. */
  lemma PostCallReadBack(url: string, user: string, password: string, location: int)
    requires '\'' !in url && '\'' !in user && '\'' !in password
    ensures ReadPostCall(PostCall(url, user, password, location)) == Some((url, user, password, location))
  {
    var vs := [url, user, password, IntToString(location)];
    PostCallIsFill(url, user, password, location);
    assert Delimited(POST_CALL_PIECES);
    IntTextHasNo(location, '}');
    assert Fits(POST_CALL_PIECES, vs);
    MatchFill(POST_CALL_PIECES, vs);
    IntRoundTrip(location);
  }

  /** expectedUrlPath: the login page under the application root. */
  function ExpectedUrlPath(urlRoot: string): string {
    urlRoot + LOGIN_PATH
  }

  /** The steps of login(user, password, location): wait for the page, run
      post.js followed by the post call to the login page, then wait for
      the logout link under the application root. */
  function LoginSteps(postJs: string, urlRoot: string, user: string, password: string, location: int)
    : seq<BrowserStep>
  {
    [ WaitForPageReady,
      ExecuteScript(postJs + PostCall(ExpectedUrlPath(urlRoot), user, password, location)),
      WaitForLink(urlRoot + LOGOUT_PATH) ]
  }

  /** A login posts to the login page the credentials and location it was
      given, after the text of post.js, and only then waits for the logout
      link. */
  lemma LoginStepsPostCredentials(postJs: string, urlRoot: string, user: string, password: string, location: int)
    requires '\'' !in urlRoot && '\'' !in user && '\'' !in password
    ensures var steps := LoginSteps(postJs, urlRoot, user, password, location);
      |steps| == 3 && steps[0] == WaitForPageReady && steps[1].ExecuteScript? &&
      |postJs| <= |steps[1].script| && steps[1].script[..|postJs|] == postJs &&
      ReadPostCall(steps[1].script[|postJs|..]) == Some((urlRoot + LOGIN_PATH, user, password, location)) &&
      steps[2] == WaitForLink(urlRoot + "/logout")
  {
    var call := PostCall(ExpectedUrlPath(urlRoot), user, password, location);
    var script := postJs + call;
    assert script[..|postJs|] == postJs && script[|postJs|..] == call;
    assert '\'' !in ExpectedUrlPath(urlRoot);
    PostCallReadBack(ExpectedUrlPath(urlRoot), user, password, location);
  }

  /** The credentials a login posts, read back from its script. */
  function PostedCredentials(postJs: string, steps: seq<BrowserStep>): Option<(string, string, string, int)> {
    if |steps| < 2 || !steps[1].ExecuteScript? || |steps[1].script| < |postJs| then None
    else ReadPostCall(steps[1].script[|postJs|..])
  }

  /** The credentials read back from a login's script are the ones it was
      given. */
  lemma LoginPostsCredentials(postJs: string, urlRoot: string, user: string, password: string, location: int)
    requires '\'' !in urlRoot && '\'' !in user && '\'' !in password
    ensures PostedCredentials(postJs, LoginSteps(postJs, urlRoot, user, password, location))
            == Some((urlRoot + LOGIN_PATH, user, password, location))
  {
    LoginStepsPostCredentials(postJs, urlRoot, user, password, location);
  }

  /** Every preset login posts its own user name and password, at the
      default location, to the login page. */
  lemma PresetLoginsPostTheirCredentials(postJs: string, urlRoot: string)
    requires '\'' !in urlRoot
    ensures PostedCredentials(postJs, LoginSteps(postJs, urlRoot, CLERK_USERNAME, CLERK_PASSWORD, 1))
            == Some((urlRoot + LOGIN_PATH, CLERK_USERNAME, CLERK_PASSWORD, 1))
    ensures PostedCredentials(postJs, LoginSteps(postJs, urlRoot, NURSE_USERNAME, NURSE_PASSWORD, 1))
            == Some((urlRoot + LOGIN_PATH, NURSE_USERNAME, NURSE_PASSWORD, 1))
    ensures PostedCredentials(postJs, LoginSteps(postJs, urlRoot, DOCTOR_USERNAME, DOCTOR_PASSWORD, 1))
            == Some((urlRoot + LOGIN_PATH, DOCTOR_USERNAME, DOCTOR_PASSWORD, 1))
    ensures PostedCredentials(postJs, LoginSteps(postJs, urlRoot, SYSADMIN_USERNAME, SYSADMIN_PASSWORD, 1))
            == Some((urlRoot + LOGIN_PATH, SYSADMIN_USERNAME, SYSADMIN_PASSWORD, 1))
  {
    assert '\'' !in CLERK_USERNAME && '\'' !in CLERK_PASSWORD;
    assert '\'' !in NURSE_USERNAME && '\'' !in NURSE_PASSWORD;
    assert '\'' !in DOCTOR_USERNAME && '\'' !in DOCTOR_PASSWORD;
    assert '\'' !in SYSADMIN_USERNAME && '\'' !in SYSADMIN_PASSWORD;
    LoginPostsCredentials(postJs, urlRoot, CLERK_USERNAME, CLERK_PASSWORD, 1);
    LoginPostsCredentials(postJs, urlRoot, NURSE_USERNAME, NURSE_PASSWORD, 1);
    LoginPostsCredentials(postJs, urlRoot, DOCTOR_USERNAME, DOCTOR_PASSWORD, 1);
    LoginPostsCredentials(postJs, urlRoot, SYSADMIN_USERNAME, SYSADMIN_PASSWORD, 1);
  }

  /** The login page object of one browser session. */
  class LoginPage {
    /** URL_ROOT of the page objects: the application root. */
    const urlRoot: string
    /** The text of the post.js resource. */
    const postJs: string
    /** The administrator credentials read from the test properties. */
    const userName: string
    const password: string
    /** The steps asked of the browser so far, oldest first. */
    var steps: seq<BrowserStep>

    constructor (urlRoot: string, postJs: string, propertiesUserName: string, propertiesPassword: string)
      ensures this.urlRoot == urlRoot && this.postJs == postJs
      ensures userName == propertiesUserName && password == propertiesPassword
      ensures steps == []
    {
      this.urlRoot := urlRoot;
      this.postJs := postJs;
      userName := propertiesUserName;
      password := propertiesPassword;
      steps := [];
    }

    /** postLoginForm: runs post.js with the post call to the login page. */
    method PostLoginForm(user: string, pw: string, location: int)
      modifies this
      ensures steps == old(steps) + [ExecuteScript(postJs + PostCall(ExpectedUrlPath(urlRoot), user, pw, location))]
    {
      var script := postJs + PostCall(ExpectedUrlPath(urlRoot), user, pw, location);
      steps := steps + [ExecuteScript(script)];
    }

    /** login(user, password, location). */
    method Login(user: string, pw: string, location: int)
      modifies this
      ensures steps == old(steps) + LoginSteps(postJs, urlRoot, user, pw, location)
    {
      steps := steps + [WaitForPageReady];
      PostLoginForm(user, pw, location);
      steps := steps + [WaitForLink(urlRoot + LOGOUT_PATH)];
    }

    /** login(user, password): the default location. */
    method LoginAtDefaultLocation(user: string, pw: string)
      modifies this
      ensures steps == old(steps) + LoginSteps(postJs, urlRoot, user, pw, DEFAULT_LOCATION)
    {
      Login(user, pw, DEFAULT_LOCATION);
    }

    /** loginAsAdmin: the credentials from the test properties. */
    method LoginAsAdmin()
      modifies this
      ensures steps == old(steps) + LoginSteps(postJs, urlRoot, userName, password, DEFAULT_LOCATION)
    {
      LoginAtDefaultLocation(userName, password);
    }

    method LoginAsClerk()
      modifies this
      ensures steps == old(steps) + LoginSteps(postJs, urlRoot, "clerk", "Clerk123", 1)
    {
      LoginAtDefaultLocation(CLERK_USERNAME, CLERK_PASSWORD);
    }

    method LoginAsNurse()
      modifies this
      ensures steps == old(steps) + LoginSteps(postJs, urlRoot, "nurse", "Nurse123", 1)
    {
      LoginAtDefaultLocation(NURSE_USERNAME, NURSE_PASSWORD);
    }

    method LoginAsDoctor()
      modifies this
      ensures steps == old(steps) + LoginSteps(postJs, urlRoot, "doctor", "Doctor123", 1)
    {
      LoginAtDefaultLocation(DOCTOR_USERNAME, DOCTOR_PASSWORD);
    }

    method LoginAsSysadmin()
      modifies this
      ensures steps == old(steps) + LoginSteps(postJs, urlRoot, "sysadmin", "Sysadmin123", 1)
    {
      LoginAtDefaultLocation(SYSADMIN_USERNAME, SYSADMIN_PASSWORD);
    }
  }
}
