/** The in-memory stand-in for the backend: a map of registered users, the
    signed-in user, and the business-type and audience lists that grow as
    users add their own entries. The clock is a parameter: `now` is
    `Date.now()` and `nowIso` is `new Date().toISOString()`. */
module MockBackend {
  import opened Values
  import Text
  import Seqs

  datatype User = User(userId: string, email: string, creditBalance: int, createdAt: string)

  /** `{ ...user, password }` as kept in the `users` map. */
  datatype StoredUser = StoredUser(user: User, password: string)

  datatype AuthResponse = AuthResponse(message: string, accessToken: string, user: User)

  datatype BusinessType = BusinessType(
    id: string,
    userId: Option<string>,
    name: Option<string>,
    description: Option<string>,
    industryCategory: Option<string>,
    isCustom: bool,
    createdAt: Option<string>)

  datatype TargetAudience = TargetAudience(
    id: string,
    userId: Option<string>,
    name: string,
    description: Option<string>,
    manualDescription: Option<string>,
    isCustom: bool,
    createdAt: Option<string>)

  /** The fields a caller supplies when adding a business type. */
  datatype BusinessTypeInput = BusinessTypeInput(name: Option<string>, description: Option<string>, industryCategory: Option<string>)

  /** The fields a caller supplies when adding an audience by hand. */
  datatype AudienceInput = AudienceInput(name: Option<string>, manualDescription: Option<string>)

  /** A creation result: the confirmation text and the stored entry. */
  datatype Created<T> = Created(message: string, item: T)

  const Token: string := "mock-jwt-token"
  const DuplicateEmail: string := "User with this email already exists"
  const BadCredentials: string := "Invalid email or password"
  const NoUser: string := "User not found"

  /** An entry is listed for the signed-in user when it has no owner or
      the user owns it; with nobody signed in, only ownerless entries. */
  predicate VisibleTo(owner: Option<string>, current: Option<User>)
  {
    !Truthy(owner) || (current.Some? && owner == Some(current.value.userId))
  }

  const SeedBusinessTypes: seq<BusinessType> := [
    BusinessType("1", None, Some("Roofing Services"),
      Some("Residential and commercial roofing installation, repair, and maintenance services"),
      Some("Construction & Home Services"), false, None),
    BusinessType("2", None, Some("Digital Marketing Agency"),
      Some("Full-service digital marketing including SEO, PPC, social media, and content marketing"),
      Some("Marketing & Advertising"), false, None)
  ]

  const SeedAudiences: seq<TargetAudience> := [
    TargetAudience("1", None, "Homeowners",
      Some("Residential property owners aged 25-65 interested in home improvement and maintenance"),
      None, false, None),
    TargetAudience("2", None, "Small Business Owners",
      Some("Entrepreneurs and business owners with 1-50 employees looking to grow their business"),
      None, false, None)
  ]

  class MockApi {
    var users: map<string, StoredUser>
    var currentUser: Option<User>
    var businessTypes: seq<BusinessType>
    var targetAudiences: seq<TargetAudience>

    /** Every stored user is filed under its own email with a zero balance,
        the signed-in user is a stored one, and exactly the custom entries
        have an owner. */
    ghost predicate Valid()
      reads this
    {
      (forall e :: e in users ==> users[e].user.email == e && users[e].user.creditBalance == 0)
      && (currentUser.Some? ==> currentUser.value.email in users && users[currentUser.value.email].user == currentUser.value)
      && (forall i :: 0 <= i < |businessTypes| ==> (businessTypes[i].isCustom <==> businessTypes[i].userId.Some?))
      && (forall i :: 0 <= i < |targetAudiences| ==> (targetAudiences[i].isCustom <==> targetAudiences[i].userId.Some?))
    }

    constructor()
      ensures Valid()
      ensures users == map[] && currentUser == None
      ensures businessTypes == SeedBusinessTypes && targetAudiences == SeedAudiences
    {
      users := map[];
      currentUser := None;
      businessTypes := SeedBusinessTypes;
      targetAudiences := SeedAudiences;
    }

    /** `register`: a new email becomes a stored user with a zero balance
        and is signed in; a known email is refused and nothing changes. */
    method Register(email: string, password: string, now: nat, nowIso: string) returns (r: Call<AuthResponse>)
      requires Valid()
      modifies this
      ensures Valid()
      ensures businessTypes == old(businessTypes) && targetAudiences == old(targetAudiences)
      ensures old(email in users) ==> r == Threw(DuplicateEmail) && users == old(users) && currentUser == old(currentUser)
      ensures !old(email in users) ==>
        var u := User(Text.Decimal(now), email, 0, nowIso);
        && r == Returned(AuthResponse("User registered successfully", Token, u))
        && users == old(users)[email := StoredUser(u, password)]
        && currentUser == Some(u)
    {
      if email in users {
        return Threw(DuplicateEmail);
      }
      var user := User(Text.Decimal(now), email, 0, nowIso);
      users := users[email := StoredUser(user, password)];
      currentUser := Some(user);
      r := Returned(AuthResponse("User registered successfully", Token, user));
    }

    /** `login`: the stored record without its password becomes the
        signed-in user; an unknown email or a wrong password is refused and
        nothing changes. */
    method Login(email: string, password: string) returns (r: Call<AuthResponse>)
      requires Valid()
      modifies this
      ensures Valid()
      ensures users == old(users) && businessTypes == old(businessTypes) && targetAudiences == old(targetAudiences)
      ensures email !in users || users[email].password != password ==>
        r == Threw(BadCredentials) && currentUser == old(currentUser)
      ensures email in users && users[email].password == password ==>
        r == Returned(AuthResponse("Login successful", Token, users[email].user))
        && currentUser == Some(users[email].user)
    {
      if email !in users || users[email].password != password {
        return Threw(BadCredentials);
      }
      currentUser := Some(users[email].user);
      r := Returned(AuthResponse("Login successful", Token, users[email].user));
    }

    /** `getProfile`. */
    function GetProfile(): (r: Call<User>)
      reads this
      ensures currentUser.None? <==> r == Threw(NoUser)
      ensures currentUser.Some? ==> r == Returned(currentUser.value)
    {
      match currentUser
      case None => Threw(NoUser)
      case Some(u) => Returned(u)
    }

    /** `getBusinessTypes`: the visible entries, in stored order. */
    function GetBusinessTypes(): (r: seq<BusinessType>)
      reads this
      ensures forall b :: b in r <==> b in businessTypes && VisibleTo(b.userId, currentUser)
      ensures Seqs.IsSubsequence(r, businessTypes)
      ensures forall b :: multiset(r)[b] == if VisibleTo(b.userId, currentUser) then multiset(businessTypes)[b] else 0
    {
      var current := currentUser;
      var p := (b: BusinessType) => VisibleTo(b.userId, current);
      Seqs.FilterIsSubsequence(businessTypes, p);
      Seqs.FilterCounts(businessTypes, p);
      Seqs.Filter(businessTypes, p)
    }

    /** `createBusinessType`: appends one custom entry owned by the
        signed-in user, which the next listing includes. */
    method CreateBusinessType(data: BusinessTypeInput, now: nat, nowIso: string) returns (r: Call<Created<BusinessType>>)
      requires Valid()
      modifies this
      ensures Valid()
      ensures users == old(users) && currentUser == old(currentUser) && targetAudiences == old(targetAudiences)
      ensures currentUser.None? ==> r == Threw(NoUser) && businessTypes == old(businessTypes)
      ensures currentUser.Some? ==>
        var bt := BusinessType(Text.Decimal(now), Some(currentUser.value.userId), data.name, data.description,
          data.industryCategory, true, Some(nowIso));
        && r == Returned(Created("Business type created successfully", bt))
        && businessTypes == old(businessTypes) + [bt]
      ensures r.Returned? ==> r.value.item in GetBusinessTypes()
    {
      if currentUser.None? {
        return Threw(NoUser);
      }
      var bt := BusinessType(Text.Decimal(now), Some(currentUser.value.userId), data.name, data.description,
        data.industryCategory, true, Some(nowIso));
      businessTypes := businessTypes + [bt];
      assert bt in businessTypes && VisibleTo(bt.userId, currentUser);
      r := Returned(Created("Business type created successfully", bt));
    }

    /** `getTargetAudiences`: the visible entries, in stored order. */
    function GetTargetAudiences(): (r: seq<TargetAudience>)
      reads this
      ensures forall a :: a in r <==> a in targetAudiences && VisibleTo(a.userId, currentUser)
      ensures Seqs.IsSubsequence(r, targetAudiences)
      ensures forall a :: multiset(r)[a] == if VisibleTo(a.userId, currentUser) then multiset(targetAudiences)[a] else 0
    {
      var current := currentUser;
      var p := (a: TargetAudience) => VisibleTo(a.userId, current);
      Seqs.FilterIsSubsequence(targetAudiences, p);
      Seqs.FilterCounts(targetAudiences, p);
      Seqs.Filter(targetAudiences, p)
    }

    /** `createManualAudience`: appends one custom audience whose name
        defaults to `Custom Audience` and whose two description fields both
        hold the supplied text. */
    method CreateManualAudience(data: AudienceInput, now: nat, nowIso: string) returns (r: Call<Created<TargetAudience>>)
      requires Valid()
      modifies this
      ensures Valid()
      ensures users == old(users) && currentUser == old(currentUser) && businessTypes == old(businessTypes)
      ensures currentUser.None? ==> r == Threw(NoUser) && targetAudiences == old(targetAudiences)
      ensures currentUser.Some? ==>
        var a := TargetAudience(Text.Decimal(now), Some(currentUser.value.userId), OrElse(data.name, "Custom Audience"),
          data.manualDescription, data.manualDescription, true, Some(nowIso));
        && r == Returned(Created("Target audience created successfully", a))
        && targetAudiences == old(targetAudiences) + [a]
      ensures r.Returned? ==> r.value.item in GetTargetAudiences()
      ensures r.Returned? ==> r.value.item.description == r.value.item.manualDescription == data.manualDescription
    {
      if currentUser.None? {
        return Threw(NoUser);
      }
      var a := TargetAudience(Text.Decimal(now), Some(currentUser.value.userId), OrElse(data.name, "Custom Audience"),
        data.manualDescription, data.manualDescription, true, Some(nowIso));
      targetAudiences := targetAudiences + [a];
      assert a in targetAudiences && VisibleTo(a.userId, currentUser);
      r := Returned(Created("Target audience created successfully", a));
    }

    /** `getCreditBalance`: nothing in the mock credits an account, so a
        signed-in user always reads zero. */
    function GetCreditBalance(): (r: Call<int>)
      requires Valid()
      reads this
      ensures currentUser.None? <==> r == Threw(NoUser)
      ensures currentUser.Some? ==> r == Returned(0)
    {
      match currentUser
      case None => Threw(NoUser)
      case Some(u) => Returned(u.creditBalance)
    }
  }

  /** A visible custom entry belongs to the signed-in user. */
  lemma VisibleCustomIsOwn(api: MockApi, b: BusinessType)
    requires api.Valid()
    requires b in api.GetBusinessTypes() && b.isCustom && Truthy(b.userId)
    ensures api.currentUser.Some? && b.userId == Some(api.currentUser.value.userId)
  {
  }

  // ----- credit packages -----

  /** A package with its prices in cents. */
  datatype CreditPackage = CreditPackage(
    id: string, name: string, credits: nat, priceCents: nat, pricePerCreditCents: nat, description: string)

  /** `getCreditPackages`. */
  const CreditPackages: seq<CreditPackage> := [
    CreditPackage("starter", "Starter Package", 10, 1576, 158, "Perfect for trying out the service"),
    CreditPackage("professional", "Professional Package", 50, 6725, 134, "Great for regular users"),
    CreditPackage("enterprise", "Enterprise Package", 200, 24748, 124, "Best for businesses"),
    CreditPackage("bulk", "Bulk Package", 500, 56674, 113, "Maximum value for power users")
  ]

  /** The quoted price per credit is within half a cent of the package
      price divided by its credits. */
  predicate PerCreditRounded(p: CreditPackage)
  {
    var diff := p.pricePerCreditCents * p.credits - p.priceCents;
    -(p.credits as int) <= 2 * diff <= p.credits
  }

  /** Every package's per-credit price is its price shared out, and larger
      packages cost less per credit. */
  lemma PackagesConsistent()
    ensures forall i :: 0 <= i < |CreditPackages| ==> PerCreditRounded(CreditPackages[i])
    ensures forall i, j :: 0 <= i < j < |CreditPackages| ==>
      CreditPackages[i].credits < CreditPackages[j].credits
      && CreditPackages[j].pricePerCreditCents < CreditPackages[i].pricePerCreditCents
  {
  }
}
