/** The anonymous-session front end: the browser fingerprint's 32-bit
    rolling hash, the session id built from it, the header's session badge,
    the WhatsApp link of the contact dialog and the legal-page dialog. */
module NoAuthApp {
  import opened Values
  import Text
  import Seqs

  /** A UTF-16 code unit, as `charCodeAt` returns it. */
  type CodeUnit = c: int | 0 <= c < 0x1_0000

  const TwoTo31: int := 0x8000_0000
  const TwoTo32: int := 0x1_0000_0000

  /** ToInt32 (section 7.1.6 of ECMA-262): the integer congruent to `x`
      modulo 2^32 in the signed 32-bit range. */
  function ToInt32(x: int): (r: int)
    ensures -TwoTo31 <= r < TwoTo31
    ensures (x - r) % TwoTo32 == 0
  {
    var m := x % TwoTo32;
    if m >= TwoTo31 then m - TwoTo32 else m
  }

  /** Two numbers congruent modulo 2^32 convert to the same 32-bit value. */
  lemma ToInt32Congruent(x: int, y: int)
    requires (x - y) % TwoTo32 == 0
    ensures ToInt32(x) == ToInt32(y)
  {
    var k := (x - y) / TwoTo32;
    assert x == y + k * TwoTo32;
    assert x % TwoTo32 == y % TwoTo32;
  }

  /** `x << 5`: both the operand and the result are taken as signed
      32-bit integers. */
  function ShiftLeft5(x: int): int
  {
    ToInt32(ToInt32(x) * 32)
  }

  /** `x & x`: the operands are converted by ToInt32 and equal bits are
      kept, which leaves the converted value. */
  function AndSelf(x: int): int
  {
    ToInt32(x)
  }

  /** The hash after reading `s`: each code unit multiplies the running
      value by 31, adds the code unit and wraps to signed 32 bits. */
  function HashOf(s: seq<CodeUnit>): (h: int)
    ensures -TwoTo31 <= h < TwoTo31
  {
    if s == [] then 0 else ToInt32(31 * HashOf(s[..|s| - 1]) + s[|s| - 1])
  }

  /** One step of the loop as written, `((hash << 5) - hash) + char`
      followed by `hash & hash`, is the multiply-by-31 step. */
  lemma StepIsTimes31(h: int, c: int)
    requires -TwoTo31 <= h < TwoTo31
    ensures AndSelf((ShiftLeft5(h) - h) + c) == ToInt32(31 * h + c)
  {
    var shifted := ToInt32(h * 32);
    assert ToInt32(h) == h;
    ToInt32Congruent((shifted - h) + c, 31 * h + c);
  }

  function Abs(x: int): nat
  {
    if x < 0 then -x else x
  }

  /** `Math.abs(hash).toString(16)` for the hash of `s`. */
  function HashHex(s: seq<CodeUnit>): string
  {
    Text.ToBase(Abs(HashOf(s)), 16)
  }

  /** `BrowserFingerprint.hashCode` over the code units of a string. */
  method HashCode(s: seq<CodeUnit>) returns (r: string)
    ensures r == HashHex(s)
  {
    var hash := 0;
    for i := 0 to |s|
      invariant hash == HashOf(s[..i])
    {
      var ch := s[i];
      StepIsTimes31(hash, ch);
      assert s[..i + 1][..i] == s[..i];
      hash := (ShiftLeft5(hash) - hash) + ch;
      hash := AndSelf(hash);
    }
    assert s[..|s|] == s;
    r := Text.ToBase(Abs(hash), 16);
  }

  /** The empty string hashes to "0". */
  lemma EmptyHash()
    ensures HashHex([]) == "0"
  {
  }

  /** The fingerprint is unsigned lower-case hex of at most eight digits,
      and it reads back as the absolute value of the hash, which is at
      most 2^31. */
  lemma HashHexShape(s: seq<CodeUnit>)
    ensures var r := HashHex(s);
      1 <= |r| <= 8
      && (forall i :: 0 <= i < |r| ==> Text.IsLowerHexDigit(r[i]))
      && Text.FromBase(r, 16) == Abs(HashOf(s)) <= TwoTo31
  {
    var n := Abs(HashOf(s));
    assert Text.Pow(16, 2) == 256;
    assert Text.Pow(16, 4) == 256 * 256 by {
      assert Text.Pow(16, 4) == 16 * (16 * Text.Pow(16, 2));
    }
    assert Text.Pow(16, 8) == TwoTo32 by {
      assert Text.Pow(16, 6) == 16 * (16 * Text.Pow(16, 4));
      assert Text.Pow(16, 8) == 16 * (16 * Text.Pow(16, 6));
    }
    Text.ToBaseLength(n, 16, 8);
    Text.BaseRoundTrip(n, 16);
  }

  // ----- session id and badge -----

  /** `${fingerprint}_${Date.now()}`. */
  function SessionId(fingerprint: string, now: nat): string
  {
    fingerprint + "_" + Text.Decimal(now)
  }

  predicate IsHex(s: string)
  {
    forall i :: 0 <= i < |s| ==> Text.IsLowerHexDigit(s[i])
  }

  /** A session id names its fingerprint and its timestamp unambiguously:
      as the fingerprint has no underscore, the first `_` separates them. */
  lemma {:induction false} SessionIdInjective(fp1: string, now1: nat, fp2: string, now2: nat)
    requires IsHex(fp1) && IsHex(fp2)
    requires SessionId(fp1, now1) == SessionId(fp2, now2)
    ensures fp1 == fp2 && now1 == now2
  {
    var s := SessionId(fp1, now1);
    assert s[|fp1|] == '_';
    assert s[|fp2|] == '_';
    // a hex digit is never `_`, so the separators are at the same place
    assert |fp1| == |fp2|;
    assert fp1 == s[..|fp1|] == fp2;
    var d1 := Text.Decimal(now1);
    var d2 := Text.Decimal(now2);
    assert d1 == s[|fp1| + 1..] == d2;
    Text.BaseRoundTrip(now1, 10);
    Text.BaseRoundTrip(now2, 10);
  }

  /** What the backend reports about the session. */
  datatype SessionInfo = SessionInfo(fingerprint: Option<string>)

  /** `str.substring(0, n)` for `n >= 0`. */
  function Prefix(s: string, n: nat): (r: string)
    ensures |r| == if n < |s| then n else |s|
    ensures r <= s
  {
    if n < |s| then s[..n] else s
  }

  /** The header badge: absent without session information, otherwise the
      first eight characters of a fingerprint, or `browser` without one. */
  function SessionBadge(info: Option<SessionInfo>): (r: Option<string>)
    ensures info.None? <==> r.None?
    ensures info.Some? && Truthy(info.value.fingerprint) ==>
      r == Some("Session: " + Prefix(info.value.fingerprint.value, 8))
    ensures info.Some? && !Truthy(info.value.fingerprint) ==> r == Some("Session: browser")
  {
    match info
    case None => None
    case Some(i) =>
      if Truthy(i.fingerprint) then Some("Session: " + Prefix(i.fingerprint.value, 8))
      else Some("Session: browser")
  }

  /** A fingerprint made by the hash is never cut short by the badge. */
  lemma BadgeShowsWholeHash(s: seq<CodeUnit>)
    ensures SessionBadge(Some(SessionInfo(Some(HashHex(s))))) == Some("Session: " + HashHex(s))
  {
    HashHexShape(s);
  }

  // ----- contact dialog -----

  /** The digits of a phone number, `replace(/[^0-9]/g, '')`: only digits,
      in their original order, and every digit of the number. */
  function PhoneDigits(s: string): (r: string)
    ensures forall i :: 0 <= i < |r| ==> Text.IsDecimalDigit(r[i])
    ensures Seqs.IsSubsequence(r, s)
    ensures forall c :: Text.IsDecimalDigit(c) ==> multiset(r)[c] == multiset(s)[c]
  {
    Seqs.FilterIsSubsequence(s, Text.IsDecimalDigit);
    forall c | Text.IsDecimalDigit(c)
      ensures multiset(Text.DigitsOnly(s))[c] == multiset(s)[c]
    {
      Seqs.FilterCount(s, Text.IsDecimalDigit, c);
    }
    Text.DigitsOnly(s)
  }

  /** The page the WhatsApp button opens, if any: only when the contact
      information carries a non-empty number. */
  function WhatsAppUrl(whatsapp: Option<string>): (r: Option<string>)
    ensures r.Some? <==> Truthy(whatsapp)
    ensures r.Some? ==> "https://wa.me/" <= r.value
    ensures r.Some? ==> var number := r.value[|"https://wa.me/"|..];
      (forall i :: 0 <= i < |number| ==> Text.IsDecimalDigit(number[i]))
      && Seqs.IsSubsequence(number, whatsapp.value)
      && forall c :: Text.IsDecimalDigit(c) ==> multiset(number)[c] == multiset(whatsapp.value)[c]
  {
    if Truthy(whatsapp) then Some("https://wa.me/" + PhoneDigits(whatsapp.value)) else None
  }

  /** A number already written in digits is used as it is. */
  lemma {:induction false} DigitsUnchanged(s: string)
    requires forall i :: 0 <= i < |s| ==> Text.IsDecimalDigit(s[i])
    ensures PhoneDigits(s) == s
  {
    Seqs.FilterKeepsAll(s, Text.IsDecimalDigit);
  }

  // ----- legal dialog -----

  datatype LegalPage = LegalPage(slug: string, title: string, description: string)

  const LegalPages: seq<LegalPage> := [
    LegalPage("terms", "Terms of Service", "Terms and conditions for using our service"),
    LegalPage("privacy", "Privacy Policy", "How we collect and use your information"),
    LegalPage("gdpr", "GDPR Compliance", "Our commitment to data protection"),
    LegalPage("cookies", "Cookie Policy", "How we use cookies and tracking")
  ]

  /** Position `i` holds the first page with the given slug. */
  predicate FirstWithSlug(pages: seq<LegalPage>, slug: string, i: int)
  {
    0 <= i < |pages| && pages[i].slug == slug && forall j :: 0 <= j < i ==> pages[j].slug != slug
  }

  /** `pages.find(p => p.slug === slug)?.title`: the first match's title. */
  function FindTitle(pages: seq<LegalPage>, slug: string): (r: Option<string>)
    ensures r.None? <==> forall p :: p in pages ==> p.slug != slug
    ensures r.Some? ==> exists p :: p in pages && p.slug == slug && p.title == r.value
    ensures forall i :: FirstWithSlug(pages, slug, i) ==> r == Some(pages[i].title)
  {
    if pages == [] then None
    else if pages[0].slug == slug then Some(pages[0].title)
    else
      assert forall i :: FirstWithSlug(pages, slug, i) ==> FirstWithSlug(pages[1..], slug, i - 1);
      FindTitle(pages[1..], slug)
  }

  /** The title shown when a page could not be loaded. */
  function FallbackTitle(slug: string): (t: string)
    ensures slug == "terms" ==> t == "Terms of Service"
    ensures slug == "privacy" ==> t == "Privacy Policy"
    ensures slug == "gdpr" ==> t == "GDPR Compliance"
    ensures slug == "cookies" ==> t == "Cookie Policy"
    ensures slug !in {"terms", "privacy", "gdpr", "cookies"} ==> t == "Legal Page"
  {
    OrElse(FindTitle(LegalPages, slug), "Legal Page")
  }

  const FallbackContent: string := "Legal content for VisitorIntel Cognitive Persuasion Engine."

  /** A legal page as the backend returns it. */
  datatype PageContent = PageContent(title: Option<string>, content: Option<string>)

  class LegalModal {
    var selectedPage: Option<string>
    var pageContent: Option<PageContent>

    constructor()
      ensures selectedPage == None && pageContent == None
    {
      selectedPage := None;
      pageContent := None;
    }

    /** The dialog's heading: the page's title once a page is selected,
        otherwise `Legal Information`; a missing title renders as nothing. */
    function Heading(): (h: string)
      reads this
      ensures !Truthy(selectedPage) ==> h == "Legal Information"
    {
      if Truthy(selectedPage) then
        match pageContent
        case Some(PageContent(Some(t), _)) => t
        case _ => ""
      else "Legal Information"
    }

    /** `handlePageSelect`: the page is selected whether or not it loads;
        a failed load shows the fallback title and text. */
    method HandlePageSelect(slug: string, response: Call<PageContent>)
      modifies this
      ensures selectedPage == Some(slug)
      ensures response.Returned? ==> pageContent == Some(response.value)
      ensures response.Threw? ==> pageContent == Some(PageContent(Some(FallbackTitle(slug)), Some(FallbackContent)))
      ensures response.Threw? && slug != "" ==> Heading() == FallbackTitle(slug)
    {
      match response
      case Returned(data) =>
        pageContent := Some(data);
        selectedPage := Some(slug);
      case Threw(_) =>
        pageContent := Some(PageContent(Some(FallbackTitle(slug)), Some(FallbackContent)));
        selectedPage := Some(slug);
    }

    /** `handleBack`: back to the list of pages. */
    method HandleBack()
      modifies this
      ensures selectedPage == None && pageContent == None
      ensures Heading() == "Legal Information"
    {
      selectedPage := None;
      pageContent := None;
    }
  }
}
