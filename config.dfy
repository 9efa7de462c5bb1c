/** The front end's configuration: the backend's base URL, the mock flag
    and the table of endpoint URLs with its two per-id builders. */
module Config {

  const ApiBaseUrl: string := "https://cognitive-persuasion-backend.onrender.com"

  /** `MOCK_MODE`: the real backend is used. */
  const MockMode: bool := false

  /** The fixed entries of `config.endpoints`. */
  datatype Endpoint =
    | AuthRegister | AuthLogin | AuthLogout
    | BusinessesList | BusinessesCreate
    | AudiencesList | AudiencesCreate
    | PaymentsCreate | PaymentsExecute
    | Health

  /** The path each entry appends to the base URL. */
  function Path(e: Endpoint): (p: string)
    ensures |p| >= 1 && p[0] == '/'
  {
    match e
    case AuthRegister => "/api/auth/register"
    case AuthLogin => "/api/auth/login"
    case AuthLogout => "/api/auth/logout"
    case BusinessesList => "/api/businesses"
    case BusinessesCreate => "/api/businesses"
    case AudiencesList => "/api/audiences"
    case AudiencesCreate => "/api/audiences"
    case PaymentsCreate => "/api/payments/create"
    case PaymentsExecute => "/api/payments/execute"
    case Health => "/api/health"
  }

  /** The URL of an entry: it always starts with the base URL, followed
      by a path. */
  function Url(e: Endpoint): (u: string)
    ensures ApiBaseUrl <= u && u[|ApiBaseUrl|..] == Path(e) && u[|ApiBaseUrl|] == '/'
  {
    var u := ApiBaseUrl + Path(e);
    assert u[|ApiBaseUrl|..] == Path(e);
    u
  }

  /** Listing and creating share one URL, for businesses and for
      audiences alike; the two resources do not share theirs. */
  lemma ListIsCreate()
    ensures Url(BusinessesList) == Url(BusinessesCreate)
    ensures Url(AudiencesList) == Url(AudiencesCreate)
    ensures Url(BusinessesList) != Url(AudiencesList)
  {
    assert Url(BusinessesList)[|ApiBaseUrl| + 5] != Url(AudiencesList)[|ApiBaseUrl| + 5];
  }

  /** The resources with per-id builders. */
  datatype Resource = Businesses | Audiences

  function ListOf(r: Resource): Endpoint
  {
    match r
    case Businesses => BusinessesList
    case Audiences => AudiencesList
  }

  /** `update(id)`: the list URL, a slash and the id. */
  function UpdateUrl(r: Resource, id: string): (u: string)
    ensures u == Url(ListOf(r)) + "/" + id
  {
    ApiBaseUrl + (if r == Businesses then "/api/businesses/" else "/api/audiences/") + id
  }

  /** `delete(id)`: the same URL as `update(id)`. */
  function DeleteUrl(r: Resource, id: string): (u: string)
    ensures u == UpdateUrl(r, id)
  {
    ApiBaseUrl + (if r == Businesses then "/api/businesses/" else "/api/audiences/") + id
  }

  /** Distinct ids give distinct URLs, so the id can be read back from
      the URL's tail. */
  lemma UpdateUrlInjective(r: Resource, a: string, b: string)
    requires UpdateUrl(r, a) == UpdateUrl(r, b)
    ensures a == b
  {
    var n := |Url(ListOf(r)) + "/"|;
    assert UpdateUrl(r, a)[n..] == a;
    assert UpdateUrl(r, b)[n..] == b;
  }
}
