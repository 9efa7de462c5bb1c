/** The authenticated application shell: the `APIService` request wrapper
    and its token, the mock request router, the auth provider, the
    regenerate handler of the sessions view and the dashboard's
    navigation. The network is a parameter: a request's outcome is given
    as the value `fetch` and `response.json()` produced. */
module App {
  import opened Values
  import MockBackend
  import ResponseDisplay
  import Config

  // ----- APIService.request -----

  datatype Header = Header(name: string, value: string)

  /** A request body as a caller passes it: already text, or a plain
      object whose fields are given. */
  datatype Body = TextBody(text: string) | ObjectBody(fields: seq<(string, string)>)

  /** The body that reaches `fetch`: text as given, or `JSON.stringify`
      of an object (the serialised text itself is not modelled). */
  datatype SentBody = Raw(text: string) | JsonOf(fields: seq<(string, string)>)

  datatype Options = Options(httpMethod: Option<string>, body: Option<Body>, headers: Option<seq<Header>>)

  datatype RequestConfig = RequestConfig(url: string, httpMethod: Option<string>, headers: seq<Header>, body: Option<SentBody>)

  /** Position `i` holds the first header with the given name. */
  predicate FirstNamed(headers: seq<Header>, name: string, i: int)
  {
    0 <= i < |headers| && headers[i].name == name && forall j :: 0 <= j < i ==> headers[j].name != name
  }

  /** The value of the first header with the given name. */
  function HeaderValue(headers: seq<Header>, name: string): (r: Option<string>)
    ensures r.None? <==> forall i :: 0 <= i < |headers| ==> headers[i].name != name
    ensures forall i :: FirstNamed(headers, name, i) ==> r == Some(headers[i].value)
  {
    if headers == [] then None
    else if headers[0].name == name then Some(headers[0].value)
    else
      assert forall i :: FirstNamed(headers, name, i) ==> FirstNamed(headers[1..], name, i - 1);
      HeaderValue(headers[1..], name)
  }

  function DefaultHeaders(token: Option<string>): seq<Header>
  {
    [Header("Content-Type", "application/json")]
      + (if Truthy(token) then [Header("Authorization", "Bearer " + token.value)] else [])
  }

  /** The `fetch` arguments of the effective `request`: the base URL and
      the endpoint, the JSON content type and a bearer header for a truthy
      token, then the caller's options spread over them (their `headers`,
      when given, replace the defaults wholesale); an object body is
      serialised. */
  function BuildConfig(baseUrl: string, token: Option<string>, endpoint: string, options: Options): (c: RequestConfig)
    ensures c.url == baseUrl + endpoint && c.httpMethod == options.httpMethod
    ensures options.headers.None? ==>
      HeaderValue(c.headers, "Content-Type") == Some("application/json")
      && HeaderValue(c.headers, "Authorization") == (if Truthy(token) then Some("Bearer " + token.value) else None)
    ensures options.headers.Some? ==> c.headers == options.headers.value
    ensures options.body.None? ==> c.body.None?
    ensures options.body.Some? && options.body.value.TextBody? ==> c.body == Some(Raw(options.body.value.text))
    ensures options.body.Some? && options.body.value.ObjectBody? ==> c.body == Some(JsonOf(options.body.value.fields))
  {
    var headers := if options.headers.Some? then options.headers.value else DefaultHeaders(token);
    var body := match options.body
      case None => None
      case Some(TextBody(t)) => Some(Raw(t))
      case Some(ObjectBody(f)) => Some(JsonOf(f));
    RequestConfig(baseUrl + endpoint, options.httpMethod, headers, body)
  }

  /** The decoded reply body: its `message` and the rest. */
  datatype ReplyData<T> = ReplyData(message: Option<string>, payload: T)

  /** What `fetch` resolved to: the status flag and the outcome of
      `response.json()`. */
  datatype Reply<T> = Reply(ok: bool, data: Call<ReplyData<T>>)

  const RequestFailed: string := "API request failed"

  /** The outcome of the effective `request`: a failed `fetch` or decoding
      error propagates; a non-ok status throws `data.message`, or a fixed
      text when there is none; an ok status returns the body. */
  function Settle<T>(fetched: Call<Reply<T>>): (r: Call<T>)
    ensures fetched.Threw? ==> r == Threw(fetched.message)
    ensures fetched.Returned? && fetched.value.data.Threw? ==> r == Threw(fetched.value.data.message)
    ensures fetched.Returned? && fetched.value.data.Returned? ==>
      var d := fetched.value.data.value;
      && (r.Returned? <==> fetched.value.ok)
      && (fetched.value.ok ==> r == Returned(d.payload))
      && (!fetched.value.ok ==> r == Threw(OrElse(d.message, RequestFailed)))
  {
    match fetched
    case Threw(m) => Threw(m)
    case Returned(reply) =>
      match reply.data
      case Threw(m) => Threw(m)
      case Returned(d) => if reply.ok then Returned(d.payload) else Threw(OrElse(d.message, RequestFailed))
  }

  /** A failing request never reports an empty message unless the
      transport or the decoder did. */
  lemma StatusErrorNonEmpty<T>(reply: Reply<T>)
    requires reply.data.Returned? && !reply.ok
    ensures Settle(Returned(reply)).Threw? && Settle(Returned(reply)).message != ""
  {
  }

  class ApiService {
    const baseUrl: string
    /** Set from `MOCK_MODE`; the effective `request` never reads it. */
    const mockMode: bool
    var token: Option<string>
    /** The `auth_token` entry of `localStorage`. */
    var storedToken: Option<string>

    constructor(baseUrl: string, storedToken: Option<string>, mockFlag: bool)
      ensures this.baseUrl == baseUrl && mockMode == mockFlag
      ensures token == storedToken && this.storedToken == storedToken
    {
      this.baseUrl := baseUrl;
      mockMode := mockFlag;
      token := storedToken;
      this.storedToken := storedToken;
    }

    /** `setToken`: the token is kept as given; storage holds a truthy
        token and forgets a falsy one. */
    method SetToken(t: Option<string>)
      modifies this
      ensures token == t
      ensures Truthy(t) ==> storedToken == t
      ensures !Truthy(t) ==> storedToken == None
    {
      token := t;
      if Truthy(t) {
        storedToken := t;
      } else {
        storedToken := None;
      }
    }

    /** The second, effective definition of `request`: the request it
        sends and the outcome it settles to. The mock flag plays no part. */
    function Request<T>(endpoint: string, options: Options, fetched: Call<Reply<T>>): (r: (RequestConfig, Call<T>))
      reads this
      ensures r.0 == BuildConfig(baseUrl, token, endpoint, options)
      ensures options.headers.None? ==> (HeaderValue(r.0.headers, "Authorization").Some? <==> Truthy(token))
      ensures r.1 == Settle(fetched)
    {
      (BuildConfig(baseUrl, token, endpoint, options), Settle(fetched))
    }
  }

  /** The shared `api` instance: the configured base URL, the stored
      token, and `MOCK_MODE || false`. */
  method NewApiService(storedToken: Option<string>) returns (api: ApiService)
    ensures fresh(api)
    ensures api.baseUrl == Config.ApiBaseUrl && !api.mockMode
    ensures api.token == storedToken && api.storedToken == storedToken
  {
    api := new ApiService(Config.ApiBaseUrl, storedToken, Config.MockMode || false);
  }

  // ----- handleMockRequest -----

  datatype MockOp =
    | MockRegister | MockLogin | MockProfile
    | MockCreateBusinessType | MockListBusinessTypes
    | MockListAudiences | MockCreateAudience
    | MockPackages | MockBalance

  const MockEndpoints: seq<string> := [
    "/api/auth/register", "/api/auth/login", "/api/auth/profile", "/api/businesses",
    "/api/audiences", "/api/audiences/manual", "/api/payments/packages", "/api/payments/balance"
  ]

  /** The mock router: which store operation an endpoint and method reach
      (the method defaults to GET), or the error for any other endpoint. */
  function MockRoute(endpoint: string, httpMethod: Option<string>): (r: Call<MockOp>)
    ensures r.Returned? <==> endpoint in MockEndpoints
    ensures r.Threw? ==> r.message == "Mock endpoint not implemented: " + endpoint
    ensures endpoint == "/api/businesses" ==>
      r == (if OrElse(httpMethod, "GET") == "POST" then Returned(MockCreateBusinessType) else Returned(MockListBusinessTypes))
    ensures endpoint == "/api/auth/register" ==> r == Returned(MockRegister)
    ensures endpoint == "/api/auth/login" ==> r == Returned(MockLogin)
    ensures endpoint == "/api/auth/profile" ==> r == Returned(MockProfile)
    ensures endpoint == "/api/audiences" ==> r == Returned(MockListAudiences)
    ensures endpoint == "/api/audiences/manual" ==> r == Returned(MockCreateAudience)
    ensures endpoint == "/api/payments/packages" ==> r == Returned(MockPackages)
    ensures endpoint == "/api/payments/balance" ==> r == Returned(MockBalance)
  {
    if endpoint == "/api/auth/register" then Returned(MockRegister)
    else if endpoint == "/api/auth/login" then Returned(MockLogin)
    else if endpoint == "/api/auth/profile" then Returned(MockProfile)
    else if endpoint == "/api/businesses" then
      if OrElse(httpMethod, "GET") == "POST" then Returned(MockCreateBusinessType) else Returned(MockListBusinessTypes)
    else if endpoint == "/api/audiences" then Returned(MockListAudiences)
    else if endpoint == "/api/audiences/manual" then Returned(MockCreateAudience)
    else if endpoint == "/api/payments/packages" then Returned(MockPackages)
    else if endpoint == "/api/payments/balance" then Returned(MockBalance)
    else Threw("Mock endpoint not implemented: " + endpoint)
  }

  const MockFailed: string := "Mock API request failed"

  /** The router's `catch`: an error is thrown again with its message, or
      a fixed text for an empty one. */
  function MockRethrow<T>(c: Call<T>): (r: Call<T>)
    ensures c.Returned? ==> r == c
    ensures c.Threw? ==> r.Threw? && r.message != ""
    ensures c.Threw? && c.message != "" ==> r == c
    ensures c.Threw? && c.message == "" ==> r == Threw(MockFailed)
  {
    match c
    case Returned(_) => c
    case Threw(m) => Threw(if m == "" then MockFailed else m)
  }

  /** An unknown endpoint's error comes out of the router unchanged. */
  lemma UnknownEndpointMessage(endpoint: string, httpMethod: Option<string>)
    requires endpoint !in MockEndpoints
    ensures MockRethrow(MockRoute(endpoint, httpMethod)) == Threw("Mock endpoint not implemented: " + endpoint)
  {
  }

  // ----- AuthProvider -----

  datatype AuthUser = AuthUser(userId: string, email: string)

  /** The login or register answer: `access_token` and `user`. */
  datatype AuthData = AuthData(accessToken: Option<string>, user: Option<AuthUser>)

  class AuthProvider {
    const api: ApiService
    var user: Option<AuthUser>
    var loading: bool

    constructor(api: ApiService)
      ensures this.api == api && user == None && loading
    {
      this.api := api;
      user := None;
      loading := true;
    }

    /** The mount effect: with a stored token the profile is fetched; a
        failure forgets the token. Loading ends either way. */
    method Restore(profile: Call<Option<AuthUser>>)
      modifies this, api
      ensures !loading
      ensures !Truthy(old(api.storedToken)) ==>
        user == old(user) && api.token == old(api.token) && api.storedToken == old(api.storedToken)
      ensures Truthy(old(api.storedToken)) && profile.Returned? ==>
        user == profile.value && api.token == old(api.storedToken) && api.storedToken == old(api.storedToken)
      ensures Truthy(old(api.storedToken)) && profile.Threw? ==>
        user == old(user) && api.token == None && api.storedToken == None
    {
      var stored := api.storedToken;
      if Truthy(stored) {
        api.SetToken(stored);
        match profile {
          case Returned(u) =>
            user := u;
          case Threw(_) =>
            api.SetToken(None);
        }
      }
      loading := false;
    }

    /** `login` and `register` after their request: an answer sets the
        token and the user; a failure changes nothing and reaches the
        form. */
    method SignIn(r: Call<AuthData>) returns (out: Call<AuthData>)
      modifies this, api
      ensures out == r && loading == old(loading)
      ensures r.Threw? ==> user == old(user) && api.token == old(api.token) && api.storedToken == old(api.storedToken)
      ensures r.Returned? ==> user == r.value.user && api.token == r.value.accessToken
      ensures r.Returned? && Truthy(r.value.accessToken) ==> api.storedToken == r.value.accessToken
      ensures r.Returned? && !Truthy(r.value.accessToken) ==> api.storedToken == None
    {
      out := r;
      if r.Returned? {
        api.SetToken(r.value.accessToken);
        user := r.value.user;
      }
    }

    /** `logout`. */
    method Logout()
      modifies this, api
      ensures user == None && api.token == None && api.storedToken == None && loading == old(loading)
    {
      api.SetToken(None);
      user := None;
    }
  }

  // ----- the sessions view -----

  datatype RegenerateResult = RegenerateResult(aiResponses: Option<seq<ResponseDisplay.Entry>>, creditsConsumed: int)

  /** `{ ...session, ai_responses, credits_consumed: old + new }`. */
  function Regenerated(s: ResponseDisplay.Session, result: RegenerateResult): (t: ResponseDisplay.Session)
    ensures t.aiResponses == result.aiResponses
    ensures t.creditsConsumed - s.creditsConsumed == result.creditsConsumed
    ensures t.sessionId == s.sessionId && t.missionObjective == s.missionObjective && t.status == s.status
    ensures t.businessType == s.businessType && t.targetAudience == s.targetAudience
  {
    s.(aiResponses := result.aiResponses, creditsConsumed := s.creditsConsumed + result.creditsConsumed)
  }

  /** Regenerating repeatedly keeps the latest responses and charges the
      sum of the credits. */
  lemma RegenerateTwice(s: ResponseDisplay.Session, a: RegenerateResult, b: RegenerateResult)
    ensures Regenerated(Regenerated(s, a), b)
      == s.(aiResponses := b.aiResponses, creditsConsumed := s.creditsConsumed + a.creditsConsumed + b.creditsConsumed)
  {
  }

  class SessionsView {
    var selectedSession: Option<ResponseDisplay.Session>
    var loading: bool
    var error: string

    constructor()
      ensures selectedSession == None && !loading && error == ""
    {
      selectedSession := None;
      loading := false;
      error := "";
    }

    /** `handleRegenerate` with the regenerate request's outcome `r`. */
    method HandleRegenerate(r: Call<RegenerateResult>)
      modifies this
      ensures old(selectedSession).None? ==>
        selectedSession == old(selectedSession) && loading == old(loading) && error == old(error)
      ensures old(selectedSession).Some? ==> !loading
      ensures old(selectedSession).Some? && r.Returned? ==>
        selectedSession == Some(Regenerated(old(selectedSession).value, r.value)) && error == old(error)
      ensures old(selectedSession).Some? && r.Threw? ==>
        selectedSession == old(selectedSession) && error == r.message
    {
      if selectedSession.None? {
        return;
      }
      loading := true;
      match r {
        case Returned(result) =>
          selectedSession := Some(Regenerated(selectedSession.value, result));
        case Threw(m) =>
          error := m;
      }
      loading := false;
    }
  }

  // ----- the dashboard's navigation -----

  class Dashboard {
    var activeTab: string
    var selectedBusiness: Option<MockBackend.BusinessType>
    var selectedAudience: Option<MockBackend.TargetAudience>
    var showChat: bool
    var businesses: seq<MockBackend.BusinessType>
    var audiences: seq<MockBackend.TargetAudience>

    constructor()
      ensures activeTab == "businesses" && selectedBusiness == None && selectedAudience == None
      ensures !showChat && businesses == [] && audiences == []
      ensures !ChatShown()
    {
      activeTab := "businesses";
      selectedBusiness := None;
      selectedAudience := None;
      showChat := false;
      businesses := [];
      audiences := [];
    }

    /** The live chat replaces the dashboard only with the flag set and
        both choices made. */
    predicate ChatShown()
      reads this
    {
      showChat && selectedBusiness.Some? && selectedAudience.Some?
    }

    /** The audience selector is on screen. */
    predicate SelectorShown()
      reads this
    {
      activeTab == "chat-setup" && selectedBusiness.Some?
    }

    /** `handleBusinessClick`. */
    method BusinessClick(b: MockBackend.BusinessType)
      modifies this
      ensures selectedBusiness == Some(b) && activeTab == "chat-setup"
      ensures selectedAudience == old(selectedAudience) && showChat == old(showChat)
      ensures businesses == old(businesses) && audiences == old(audiences)
      ensures SelectorShown()
    {
      selectedBusiness := Some(b);
      activeTab := "chat-setup";
    }

    /** `handleStartChat`. */
    method StartChat(a: MockBackend.TargetAudience)
      modifies this
      ensures selectedAudience == Some(a) && showChat
      ensures selectedBusiness == old(selectedBusiness) && activeTab == old(activeTab)
      ensures businesses == old(businesses) && audiences == old(audiences)
      ensures ChatShown() <==> selectedBusiness.Some?
    {
      selectedAudience := Some(a);
      showChat := true;
    }

    /** `handleBackToBusinesses`. */
    method BackToBusinesses()
      modifies this
      ensures selectedBusiness == None && selectedAudience == None && !showChat && activeTab == "businesses"
      ensures businesses == old(businesses) && audiences == old(audiences)
      ensures !ChatShown() && !SelectorShown()
    {
      selectedBusiness := None;
      selectedAudience := None;
      showChat := false;
      activeTab := "businesses";
    }

    /** A click in the side menu, `handleCreateBusiness` among them. */
    method SetTab(tab: string)
      modifies this
      ensures activeTab == tab
      ensures selectedBusiness == old(selectedBusiness) && selectedAudience == old(selectedAudience)
      ensures showChat == old(showChat) && businesses == old(businesses) && audiences == old(audiences)
    {
      activeTab := tab;
    }

    /** `loadBusinesses`: `business_types || []`; a failure is only logged. */
    method LoadBusinesses(r: Call<Option<seq<MockBackend.BusinessType>>>)
      modifies this
      ensures r.Returned? ==> businesses == (if r.value.Some? then r.value.value else [])
      ensures r.Threw? ==> businesses == old(businesses)
      ensures activeTab == old(activeTab) && selectedBusiness == old(selectedBusiness)
      ensures selectedAudience == old(selectedAudience) && showChat == old(showChat) && audiences == old(audiences)
    {
      if r.Returned? {
        businesses := if r.value.Some? then r.value.value else [];
      }
    }

    /** `loadAudiences`: `target_audiences || []`; a failure is only logged. */
    method LoadAudiences(r: Call<Option<seq<MockBackend.TargetAudience>>>)
      modifies this
      ensures r.Returned? ==> audiences == (if r.value.Some? then r.value.value else [])
      ensures r.Threw? ==> audiences == old(audiences)
      ensures activeTab == old(activeTab) && selectedBusiness == old(selectedBusiness)
      ensures selectedAudience == old(selectedAudience) && showChat == old(showChat) && businesses == old(businesses)
    {
      if r.Returned? {
        audiences := if r.value.Some? then r.value.value else [];
      }
    }
  }

  /** Choosing a business and then an audience opens the chat, and going
      back closes it. */
  method NavigationRoundTrip(d: Dashboard, b: MockBackend.BusinessType, a: MockBackend.TargetAudience)
    modifies d
    ensures !d.ChatShown() && d.activeTab == "businesses"
  {
    d.BusinessClick(b);
    d.StartChat(a);
    assert d.ChatShown();
    d.BackToBusinesses();
  }
}
